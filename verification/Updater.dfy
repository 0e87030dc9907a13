/**
 `UpdateBlob`: the epoch, ban and throttle gate, then one transaction that is synced,
 re-hashed from the start and committed together with its header.
 */
module Updater {
  import opened Basics
  import opened HashChain
  import opened BlobTx
  import opened BlobHash
  import opened HeaderStore
  import opened Syncer
  import Epoch
  import NameLocker

  datatype Item = Item(name: string, epoch: U16, size: U16)

  datatype Refusal =
    | AlreadySynchronized | Backdated | NameBanned | EpochCurrent | Throttled | Futuredated
    | NameLocked | AheadOfSchedule | TruncateFailed | SeekFailed

  /** Either a refusal or the sync request to make; `reset` means the blob starts over. */
  datatype Plan = Refuse(err: Refusal) | Proceed(opts: SyncOpts, reset: bool)

  /** One clock reading, the messages that arrive, and the faults storage throws. */
  datatype Env = Env(now: Time, ds: seq<Delivery>, pick: nat, readFaults: HashFaults, putFault: PutFault)

  datatype Outcome =
    | Refused(err: Refusal)
    | SyncAborted(syncErr: SyncError)
    | HashError
    | Crashed
    | TipMismatch
    | StoreError
    | Stored(header: Header)

  datatype After = After(db: Db, base: File, out: Outcome)

  function Gate(header: Option<Header>, bannedAt: Time, item: Item, now: Time, cur: U16): Plan {
    match header
    case None => Proceed(SyncOpts(item.name, 0, 0, Zero), true)
    case Some(h) =>
      if h.epoch == item.epoch && h.size >= item.size then Refuse(AlreadySynchronized)
      else if item.epoch < h.epoch then Refuse(Backdated)
      else if item.epoch == h.epoch then Proceed(SyncOpts(item.name, h.epoch, h.size, h.tip), false)
      else if bannedAt != ZERO_TIME && bannedAt + WEEK > now then Refuse(NameBanned)
      else if bannedAt != ZERO_TIME && item.epoch <= AddU16(h.epoch, 1) then Refuse(EpochCurrent)
      else if now < h.startAt + WEEK && item.epoch < AddU16(cur, 1) then Refuse(Throttled)
      else if item.epoch > AddU16(cur, 1) then Refuse(Futuredated)
      else Proceed(SyncOpts(item.name, item.epoch, 0, Zero), true)
  }

  function CurrentFor(w: World, name: string, now: Time): U16 {
    Epoch.Current(w.hashName(name), now)
  }

  function PlanFor(w: World, db: Db, item: Item, now: Time): Plan {
    Gate(LookupHeader(db, item.name), LookupBan(db, item.name), item, now, CurrentFor(w, item.name, now))
  }

  // ---------------------------------------------------------------- what the gate lets through

  /** The blob starts over: there is no header, or the item is of another epoch. */
  predicate StartsOver(db: Db, item: Item) {
    item.name !in db.headers || db.headers[item.name].epoch != item.epoch
  }

  /** What an update that goes ahead asks its peers for. */
  function Wanted(db: Db, item: Item): SyncOpts {
    if item.name !in db.headers then SyncOpts(item.name, 0, 0, Zero)
    else if StartsOver(db, item) then SyncOpts(item.name, item.epoch, 0, Zero)
    else SyncOpts(item.name, item.epoch, db.headers[item.name].size, db.headers[item.name].tip)
  }

  /** There is no ban, or it is a week old and the item skips an epoch. */
  predicate BanServed(h: Header, ban: Time, item: Item, now: Time) {
    ban == ZERO_TIME || (now >= ban + WEEK && item.epoch >= h.epoch + 2)
  }

  /** At most one epoch ahead of the clock, and exactly that within a week of the last start. */
  predicate InSchedule(h: Header, item: Item, now: Time, next: U16) {
    item.epoch == next || (item.epoch < next && now >= h.startAt + WEEK)
  }

  /** The update is wanted: a first header, more sectors of the same epoch, or a later epoch that is due. */
  predicate Admits(w: World, db: Db, item: Item, now: Time) {
    item.name in db.headers ==>
      var h, next := db.headers[item.name], AddU16(CurrentFor(w, item.name, now), 1);
      || (item.epoch == h.epoch && item.size > h.size)
      || (item.epoch > h.epoch && BanServed(h, LookupBan(db, item.name), item, now) && InSchedule(h, item, now, next))
  }

  /** The gate goes ahead with exactly the updates that are wanted, and asks for what they need. */
  lemma GateExact(w: World, db: Db, item: Item, now: Time)
    ensures PlanFor(w, db, item, now).Proceed? <==> Admits(w, db, item, now)
    ensures Admits(w, db, item, now) ==> PlanFor(w, db, item, now) == Proceed(Wanted(db, item), StartsOver(db, item))
  {
  }

  /** And the reason it gives for turning the others away. */
  lemma RefusalExact(w: World, db: Db, item: Item, now: Time)
    requires !Admits(w, db, item, now)
    ensures item.name in db.headers
    ensures var h, ban := db.headers[item.name], LookupBan(db, item.name);
            PlanFor(w, db, item, now)
            == if item.epoch == h.epoch then Refuse(AlreadySynchronized)
               else if item.epoch < h.epoch then Refuse(Backdated)
               else if BanServed(h, ban, item, now) then
                 Refuse(if item.epoch > AddU16(CurrentFor(w, item.name, now), 1) then Futuredated else Throttled)
               else Refuse(if now < ban + WEEK then NameBanned else EpochCurrent)
  {
  }

  /** The transaction as it is handed to the syncer. */
  function Prepared(opts: SyncOpts, reset: bool): Step {
    SeekOp(if reset then TruncateOp(FRESH).tx else FRESH, opts.size * SECTOR_BYTES, SeekStart)
  }

  function NewHeader(item: Item, reset: bool, now: Time, u: SyncUpdate): Header {
    Header(item.name, item.epoch, item.size, u.tip, u.sig, u.root, if reset then now else ZERO_TIME)
  }

  /** The re-hash agreed with the synced tip: store the header and commit, or roll back. */
  function Conclude(base: File, item: Item, reset: bool, env: Env, db: Db, tx: Tx, hashes: seq<Hash>, u: SyncUpdate): After {
    var header := NewHeader(item, reset, env.now, u);
    var (db', ok) := PutHeader(db, header, hashes, env.putFault);
    if ok then After(db', CommitOp(tx, base).0, Stored(header)) else After(db', base, StoreError)
  }

  /** After the syncer: re-hash the whole transaction and compare tips. */
  function Finish(base: File, item: Item, reset: bool, env: Env, s: SyncState): After {
    var r := Picked(s.events, env.pick);
    if r.SyncFailed? then After(s.db, base, SyncAborted(r.err))
    else
      var (tx, hashes) := HashOp(s.tx, base, item.size, env.readFaults);
      if hashes.Err? then After(s.db, base, HashError)
      else if r.TimedOut? then After(s.db, base, Crashed)
      else if r.update.tip != TipOf(hashes.value) then After(s.db, base, TipMismatch)
      else Conclude(base, item, reset, env, s.db, tx, hashes.value, r.update)
  }

  /** Bans, proofs, keys and banned names are as they were. */
  predicate SameOthers(a: Db, b: Db) {
    a.bans == b.bans && a.proofs == b.proofs && a.keys == b.keys && a.bannedNames == b.bannedNames
  }

  lemma ConcludeRecords(base: File, item: Item, reset: bool, env: Env, db: Db, tx: Tx, hashes: seq<Hash>, u: SyncUpdate)
    ensures SameOthers(Conclude(base, item, reset, env, db, tx, hashes, u).db, db)
  {
  }

  /** After the syncer only header, table and count can still change. */
  lemma FinishRecords(base: File, item: Item, reset: bool, env: Env, s: SyncState)
    ensures SameOthers(Finish(base, item, reset, env, s).db, s.db)
  {
    var r, h := Picked(s.events, env.pick), HashOp(s.tx, base, item.size, env.readFaults);
    if r.Synced? && h.1.Ok? {
      ConcludeRecords(base, item, reset, env, s.db, h.0, h.1.value, r.update);
    }
  }

  /** The part under the name lock, for a plan made from any header, current or not. */
  function Attempt(w: World, db: Db, base: File, item: Item, opts: SyncOpts, reset: bool, env: Env): After {
    if reset && opts.epoch > AddU16(CurrentFor(w, item.name, env.now), 1) then After(db, base, Refused(AheadOfSchedule))
    else
      var tx := Prepared(opts, reset);
      if tx.out != Done then After(db, base, Refused(SeekFailed))
      else Finish(base, item, reset, env, HandleAll(w, opts, base, env.now, Start(tx.tx, db), env.ds))
  }

  /** Under the lock the schedule is looked at once more: a blob cannot start over too far ahead of the clock. */
  lemma AheadRefused(w: World, db: Db, base: File, item: Item, opts: SyncOpts, reset: bool, env: Env)
    ensures Attempt(w, db, base, item, opts, reset, env).out == Refused(AheadOfSchedule)
       <==> reset && opts.epoch > AddU16(CurrentFor(w, item.name, env.now), 1)
    ensures Attempt(w, db, base, item, opts, reset, env).out.Refused? ==>
              Attempt(w, db, base, item, opts, reset, env) == After(db, base, Attempt(w, db, base, item, opts, reset, env).out)
  {
  }

  function Update(w: World, db: Db, base: File, item: Item, env: Env): After {
    match PlanFor(w, db, item, env.now)
    case Refuse(e) => After(db, base, Refused(e))
    case Proceed(opts, reset) => Attempt(w, db, base, item, opts, reset, env)
  }

  /** `UpdateBlob` */
  method UpdateBlob(w: World, db: Database, bl: BlobFile, locker: NameLocker.MultiLocker, item: Item, env: Env)
    returns (out: Outcome)
    requires NameLocker.Clean(locker.inUse)
    modifies db, bl, locker
    ensures locker.inUse == old(locker.inUse)
    ensures var locked := NameLocker.Apply(old(locker.inUse), NameLocker.TryLock(item.name)).1 != NameLocker.Granted;
            After(db.State(), bl.State(), out)
            == if locked && PlanFor(w, old(db.State()), item, env.now).Proceed?
               then After(old(db.State()), old(bl.State()), Refused(NameLocked))
               else Update(w, old(db.State()), old(bl.State()), item, env)
  {
    var plan := CheckGate(w, db, item, env.now);
    if plan.Refuse? {
      return Refused(plan.err);
    }
    NameLocker.LockUnlock(locker.inUse, item.name);
    var ok := locker.TryLock(item.name);
    if !ok {
      return Refused(NameLocked);
    }
    out := SyncAndStore(w, db, bl, item, plan.opts, plan.reset, env);
    var panics := locker.Unlock(item.name);
  }

  /** The checks `UpdateBlob` makes before it takes the name lock. */
  method CheckGate(w: World, db: Database, item: Item, now: Time) returns (plan: Plan)
    ensures plan == PlanFor(w, db.State(), item, now)
  {
    var header := db.GetHeader(item.name);
    if header.Some? && header.value.epoch == item.epoch && header.value.size >= item.size {
      return Refuse(AlreadySynchronized);
    }
    var prevHash := Zero;
    var epochHeight, sectorSize: U16 := 0, 0;
    var epochUpdated := true;
    if header.Some? {
      epochHeight := header.value.epoch;
      sectorSize := header.value.size;
      prevHash := header.value.tip;
      epochUpdated := false;
    }
    if item.epoch < epochHeight {
      return Refuse(Backdated);
    }
    var bannedAt := db.GetHeaderBan(item.name);
    var cur := Epoch.CurrentEpoch(w.hashName(item.name), now);
    if header.Some? && item.epoch > epochHeight {
      if bannedAt != ZERO_TIME {
        if bannedAt + WEEK > now {
          return Refuse(NameBanned);
        }
        if item.epoch <= AddU16(epochHeight, 1) {
          return Refuse(EpochCurrent);
        }
      }
      if now < header.value.startAt + WEEK {
        if item.epoch < AddU16(cur, 1) {
          return Refuse(Throttled);
        }
      }
      if item.epoch > AddU16(cur, 1) {
        return Refuse(Futuredated);
      }
      epochUpdated := true;
      sectorSize := 0;
      epochHeight := item.epoch;
      prevHash := Zero;
    }
    plan := Proceed(SyncOpts(item.name, epochHeight, sectorSize, prevHash), epochUpdated);
  }

  method SyncAndStore(w: World, db: Database, bl: BlobFile, item: Item, opts: SyncOpts, reset: bool, env: Env)
    returns (out: Outcome)
    modifies db, bl
    ensures After(db.State(), bl.State(), out) == Attempt(w, old(db.State()), old(bl.State()), item, opts, reset, env)
  {
    var tx := new Transaction(bl);
    if reset {
      var cur := Epoch.CurrentEpoch(w.hashName(item.name), env.now);
      if opts.epoch > AddU16(cur, 1) {
        return Refused(AheadOfSchedule);
      }
      var truncated := tx.Truncate();
    }
    var sought := tx.Seek(opts.size * SECTOR_BYTES, SeekStart);
    if sought != Done {
      return Refused(SeekFailed);
    }
    var meta := SyncSectors(w, opts, tx, db, env.now, env.ds, env.pick);
    if meta.SyncFailed? {
      var o := tx.Rollback();
      return SyncAborted(meta.err);
    }
    var br := new Reader(tx);
    var tree := SerialHash(br, item.size, env.readFaults);
    if tree.Err? {
      var o := tx.Rollback();
      return HashError;
    }
    if meta.TimedOut? {
      return Crashed;
    }
    var tip := Tip(tree.value);
    if meta.update.tip != tip {
      var o := tx.Rollback();
      return TipMismatch;
    }
    var epochStart := ZERO_TIME;
    if reset {
      epochStart := env.now;
    }
    var header := Header(item.name, item.epoch, item.size, tip, meta.update.sig, meta.update.root, epochStart);
    var ok := db.SetHeader(header, tree.value, env.putFault);
    if !ok {
      var o := tx.Rollback();
      return StoreError;
    }
    var o := tx.Commit();
    out := Stored(header);
  }
}
