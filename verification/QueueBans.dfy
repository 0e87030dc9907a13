/**
 The update queue, its workers and the bans they record, over whole runs. A ban is never
 lifted and the queue turns banned names away, so peers change the header of a banned name
 only through announcements that were let in before the ban.
 */
module QueueBans {
  import opened Basics
  import HashChain
  import BlobTx
  import BlobHash
  import opened HeaderStore
  import opened Syncer
  import SectorServer
  import opened Updater
  import opened Publisher
  import StoreRuns
  import EpochRules
  import UpdateQueue

  /** `inside` has been let in and waits for the queue's lock; `taken` is with the workers. */
  datatype Desk = Desk(host: Host, q: UpdateQueue.Queue, inside: seq<UpdateQueue.Announcement>, taken: seq<Item>)

  datatype Step =
    | Announce(a: UpdateQueue.Announcement, maxLen: int, importComplete: bool)
    | Enter(i: nat, peer: UpdateQueue.PeerID)
    | Take
    // the locked part of UpdateBlob, from a plan made at any earlier time
    | Work(i: nat, epoch: U16, size: U16, prevHash: HashChain.Hash, reset: bool, env: Env)
    | ProofArrives(proof: Proof, at: Time)
    | Import(keys: map<string, PubKey>, bannedNames: set<string>)
    | Sweep

  /** `validateUpdate` and the look-ups after it. */
  function ScreeningOf(w: World, db: Db, name: string, importComplete: bool): UpdateQueue.Screening {
    UpdateQueue.Screening(
      importComplete,
      w.validName(name) && name !in db.bannedNames && LookupBan(db, name) == ZERO_TIME,
      name in db.keys,
      match LookupHeader(db, name) case None => None case Some(h) => Some((h.epoch, h.size)))
  }

  function Without<T>(s: seq<T>, i: nat): seq<T>
    requires i < |s|
  {
    s[..i] + s[i + 1..]
  }

  function Next(w: World, d: Desk, step: Step): Desk {
    var db := d.host.db;
    match step
    case Announce(a, maxLen, importComplete) =>
      if d.q.queueLen >= maxLen || UpdateQueue.Screen(a, ScreeningOf(w, db, a.name, importComplete)).Some? then d
      else d.(inside := d.inside + [a])
    case Enter(i, peer) =>
      if i >= |d.inside| then d
      else d.(q := UpdateQueue.Insert(d.q, peer, d.inside[i]).0, inside := Without(d.inside, i))
    case Take =>
      var (q', item) := UpdateQueue.DequeueOp(d.q);
      if item.None? then d.(q := q')
      else d.(q := q', taken := d.taken + [Item(item.value.name, item.value.epoch, item.value.size)])
    case Work(i, epoch, size, prevHash, reset, env) =>
      if i >= |d.taken| then d
      else
        var item := d.taken[i];
        d.(host := StoreRuns.SyncInto(w, d.host, item, SyncOpts(item.name, epoch, size, prevHash), reset, env),
           taken := Without(d.taken, i))
    case ProofArrives(p, at) => d.(host := d.host.(db := SectorServer.ReceiveProof(w, db, at, p)))
    case Import(keys, bannedNames) => d.(host := d.host.(db := db.(keys := keys, bannedNames := bannedNames)))
    case Sweep => d.(q := UpdateQueue.Reap(d.q))
  }

  function Run(w: World, d: Desk, steps: seq<Step>): Desk
    decreases |steps|
  {
    if steps == [] then d else Next(w, Run(w, d, steps[..|steps| - 1]), steps[|steps| - 1])
  }

  /** The clock is past the zero time. */
  predicate Clocked(step: Step) {
    match step
    case Work(_, _, _, _, _, env) => env.now != ZERO_TIME
    case ProofArrives(_, at) => at != ZERO_TIME
    case _ => true
  }

  predicate AllClocked(steps: seq<Step>) {
    forall i :: 0 <= i < |steps| ==> Clocked(steps[i])
  }

  // ---------------------------------------------------------------- what a step can do to a banned name

  predicate Banned(d: Desk, name: string) {
    LookupBan(d.host.db, name) != ZERO_TIME
  }

  /** An announcement gets in at the door exactly like this, told from the store. */
  lemma LetInAtTheDoor(w: World, d: Desk, step: Step)
    requires step.Announce?
    ensures var a, db := step.a, d.host.db;
            var letIn :=
              && d.q.queueLen < step.maxLen && step.importComplete && a.size > 0
              && w.validName(a.name) && a.name !in db.bannedNames && a.name in db.keys && LookupBan(db, a.name) == ZERO_TIME
              && (a.name in db.headers ==>
                    var h := db.headers[a.name]; a.epoch > h.epoch || (a.epoch == h.epoch && a.size > h.size));
            Next(w, d, step) == if letIn then d.(inside := d.inside + [a]) else d
  {
    UpdateQueue.LetInExactly(step.a, ScreeningOf(w, d.host.db, step.a.name, step.importComplete));
  }

  /** Entries are filed under their own names. */
  predicate Filed(q: UpdateQueue.Queue) {
    forall k :: k in q.entries ==> q.entries[k].name == k
  }

  /** An announcement of that epoch and size is somewhere between the door and a worker. */
  predicate Pends(d: Desk, name: string, epoch: U16, size: U16) {
    || UpdateQueue.Announcement(name, epoch, size) in d.inside
    || (name in d.q.entries && d.q.entries[name].epoch == epoch && d.q.entries[name].size == size)
    || Item(name, epoch, size) in d.taken
  }

  /** Nothing new is pending, and a new header is one that was. */
  predicate Follows(d: Desk, d': Desk, name: string, epoch: U16, size: U16) {
    && (Pends(d', name, epoch, size) ==> Pends(d, name, epoch, size))
    && (LookupHeader(d.host.db, name).Some? ==> LookupHeader(d'.host.db, name).Some?)
    && (LookupHeader(d'.host.db, name) != LookupHeader(d.host.db, name)
        && LookupHeader(d'.host.db, name).Some?
        && LookupHeader(d'.host.db, name).value.epoch == epoch && LookupHeader(d'.host.db, name).value.size == size
        ==> Pends(d, name, epoch, size))
  }

  /** The new headers are the old ones, but for one of the item's epoch and size. */
  predicate Writes(db: Db, db': Db, item: Item) {
    || db'.headers == db.headers
    || (item.name in db'.headers && db'.headers == db.headers[item.name := db'.headers[item.name]]
        && db'.headers[item.name].epoch == item.epoch && db'.headers[item.name].size == item.size)
  }

  lemma ConcludeWrites(base: BlobTx.File, item: Item, reset: bool, env: Env, db: Db, tx: BlobTx.Tx, hashes: seq<HashChain.Hash>, u: SyncUpdate)
    ensures Writes(db, Conclude(base, item, reset, env, db, tx, hashes, u).db, item)
  {
  }

  /** Whatever fails in it, an update writes the header of its item or none. */
  lemma FinishWrites(base: BlobTx.File, item: Item, reset: bool, env: Env, s: SyncState)
    ensures Writes(s.db, Finish(base, item, reset, env, s).db, item) && Finish(base, item, reset, env, s).db.bans == s.db.bans
  {
    FinishRecords(base, item, reset, env, s);
    var r, h := Picked(s.events, env.pick), BlobHash.HashOp(s.tx, base, item.size, env.readFaults);
    if r.Synced? && h.1.Ok? {
      ConcludeWrites(base, item, reset, env, s.db, h.0, h.1.value, r.update);
    }
  }

  lemma WorkWrites(w: World, n: Host, item: Item, opts: SyncOpts, reset: bool, env: Env)
    requires opts.name == item.name
    ensures var db, db' := n.db, StoreRuns.SyncInto(w, n, item, opts, reset, env).db;
            && (db'.bans == db.bans || db'.bans == db.bans[item.name := env.now])
            && Writes(db, db', item)
  {
    var base, s0 := BlobOf(n, item.name), Start(Prepared(opts, reset).tx, n.db);
    EpochRules.SyncBans(w, opts, base, env.now, s0, env.ds);
    FinishWrites(base, item, reset, env, HandleAll(w, opts, base, env.now, s0, env.ds));
  }

  lemma WorkFollows(w: World, d: Desk, step: Step, name: string, epoch: U16, size: U16)
    requires step.Work? && Clocked(step) && Banned(d, name)
    ensures Banned(Next(w, d, step), name) && Follows(d, Next(w, d, step), name, epoch, size)
  {
    if step.i < |d.taken| {
      var item := d.taken[step.i];
      WorkWrites(w, d.host, item, SyncOpts(item.name, step.epoch, step.size, step.prevHash), step.reset, step.env);
    }
  }

  /** A banned name is turned away. */
  lemma AnnounceFollows(w: World, d: Desk, step: Step, name: string, epoch: U16, size: U16)
    requires step.Announce? && Banned(d, name)
    ensures Follows(d, Next(w, d, step), name, epoch, size)
  {
  }

  lemma QueueFollows(w: World, d: Desk, step: Step, name: string, epoch: U16, size: U16)
    requires (step.Enter? || step.Take? || step.Sweep?) && Filed(d.q)
    ensures Filed(Next(w, d, step).q) && Follows(d, Next(w, d, step), name, epoch, size)
  {
  }

  lemma StepFollows(w: World, d: Desk, step: Step, name: string, epoch: U16, size: U16)
    requires Filed(d.q) && Clocked(step) && Banned(d, name)
    ensures var d' := Next(w, d, step); Filed(d'.q) && Banned(d', name) && Follows(d, d', name, epoch, size)
  {
    match step
    case Announce(_, _, _) => AnnounceFollows(w, d, step, name, epoch, size);
    case Work(_, _, _, _, _, _) => WorkFollows(w, d, step, name, epoch, size);
    case ProofArrives(_, _) =>
    case Import(_, _) =>
    case _ => QueueFollows(w, d, step, name, epoch, size);
  }

  /**
   Over any run of announcements, workers and proofs, on any names and with any faults: a
   banned name stays banned, no announcement of it is let in any more, and its header is the
   old one or has the epoch and size of an announcement that was in before.
   */
  lemma {:induction false} BanKeepsOut(w: World, d: Desk, steps: seq<Step>, name: string, epoch: U16, size: U16)
    requires Filed(d.q) && Banned(d, name) && AllClocked(steps)
    ensures var d' := Run(w, d, steps); Filed(d'.q) && Banned(d', name) && Follows(d, d', name, epoch, size)
    decreases |steps|
  {
    if steps != [] {
      var front := steps[..|steps| - 1];
      BanKeepsOut(w, d, front, name, epoch, size);
      StepFollows(w, Run(w, d, front), steps[|steps| - 1], name, epoch, size);
    }
  }

  /** Once nothing of it is pending, peers never change the header of a banned name again. */
  lemma FrozenOnceDrained(w: World, d: Desk, steps: seq<Step>, name: string)
    requires Filed(d.q) && Banned(d, name) && AllClocked(steps)
    requires forall epoch, size :: !Pends(d, name, epoch, size)
    ensures LookupHeader(Run(w, d, steps).host.db, name) == LookupHeader(d.host.db, name)
  {
    var now := LookupHeader(Run(w, d, steps).host.db, name);
    var (epoch, size) := if now.Some? then (now.value.epoch, now.value.size) else (0, 0);
    BanKeepsOut(w, d, steps, name, epoch, size);
    assert !Pends(d, name, epoch, size);
  }
}
