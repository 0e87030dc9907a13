/**
 The rate limit does not survive appends: with an append between them, any number of
 rollovers up to the current epoch is accepted within one second.
 */
module RolloverBurst {
  import opened Basics
  import opened HashChain
  import BlobTx
  import BlobHash
  import opened HeaderStore
  import opened Syncer
  import opened Updater
  import opened StoredContent
  import opened EpochLog
  import opened EpochRules
  import Convergence
  import Epoch

  const NAME: string := "a"

  /** The owner's signatures verify and the name's epochs start on the epoch date. */
  ghost predicate Setting(w: World, o: Owner) {
    Signs(w, o) && w.validName(NAME) && w.hashName(NAME) == []
  }

  /** The blob after `size` writes of the zero sector. */
  function Blob(size: nat): seq<Sector> {
    Zeros(size)
  }

  function BlobSeal(epoch: U16, size: U16): Seal {
    Seal(NAME, epoch, size, Fold(Zero, Blob(size)), Zero)
  }

  /** Grow the blob of `epoch` to `size`, from a peer that answers with the one missing sector. */
  function Grow(o: Owner, epoch: U16, size: U16, now: Time): Step
    requires size > 0
  {
    var res := BlobRes(NAME, epoch, size - 1, Fold(Zero, Blob(size - 1)), Zero, [ZeroSector()], o.sign(BlobSeal(epoch, size)));
    UpdateStep(Item(NAME, epoch, size), Env(now, [Delivery(res, [])], 0, BlobHash.NO_FAULTS, AllPut))
  }

  function Burst(o: Owner, n: nat, now: Time): (steps: seq<Step>)
    requires n <= 65536
    ensures |steps| == 2 * n
  {
    if n == 0 then [] else Burst(o, n - 1, now) + [Grow(o, n - 1, 1, now), Grow(o, n - 1, 2, now)]
  }

  /** Nothing stands in the way of the next update of the name. */
  predicate Clear(o: Owner, st: NameState) {
    && NAME in st.db.keys && st.db.keys[NAME] == o.key && NAME !in st.db.bannedNames && NAME !in st.db.bans
    && BlobTx.Sized(st.base.sectors)
  }

  /** The name has the blob of `size` zero sectors at `epoch`, stamped `start`. */
  predicate Holds(o: Owner, st: NameState, epoch: U16, size: U16, start: Time) {
    && Clear(o, st) && size <= MAX_SECTORS && NAME in st.db.headers
    && st.db.headers[NAME] == Header(NAME, epoch, size, Fold(Zero, Blob(size)), o.sign(BlobSeal(epoch, size)), Zero, start)
    && st.base.sectors[..size] == Blob(size)
  }

  lemma GrowStores(w: World, o: Owner, st: NameState, epoch: U16, size: U16, now: Time, opts: SyncOpts, reset: bool)
    requires Setting(w, o)
    requires Clear(o, st) && 0 < size <= MAX_SECTORS
    requires PlanFor(w, st.db, Item(NAME, epoch, size), now) == Proceed(opts, reset)
    requires opts.name == NAME && opts.epoch <= epoch && opts.size == size - 1 && opts.prevHash == Fold(Zero, Blob(size - 1))
    requires if reset then size == 1 && opts.epoch <= AddU16(CurrentFor(w, NAME, now), 1)
             else Blob(size - 1) <= st.base.sectors
    ensures KindOf(w, st, Grow(o, epoch, size, now)) == if reset then Changed else Appended
    ensures Holds(o, Next(w, st, Grow(o, epoch, size, now)), epoch, size, if reset then now else ZERO_TIME)
  {
    var step := Grow(o, epoch, size, now);
    var item, env := step.item, step.env;
    var msg := env.ds[0].msg;
    assert env.ds == [] + [Delivery(msg, [])] + [];
    assert Blob(size - 1) + [ZeroSector()] == Blob(size);
    FoldAppend(Zero, Blob(size - 1), [ZeroSector()]);
    assert ResSeal(msg) == BlobSeal(epoch, size) && w.verify(o.key, msg.sig, BlobSeal(epoch, size));
    Convergence.AcceptedIsStored(w, st.db, st.base, item, opts, reset, env, Blob(size - 1), [], msg, []);
    UpdateKeepsIndex(w, st.db, st.base, item, opts, reset, env);
    Convergence.KeysKept(w, st.db, st.base, item, opts, reset, env);
    NoBan(w, st.db, st.base, item, opts, reset, env);
  }

  lemma NoBan(w: World, db: Db, base: BlobTx.File, item: Item, opts: SyncOpts, reset: bool, env: Env)
    requires |env.ds| == 1 && env.ds[0].msg.prevHash == opts.prevHash && env.putFault == AllPut
    ensures Attempt(w, db, base, item, opts, reset, env).db.bans == db.bans
  {
    var s0 := Start(Prepared(opts, reset).tx, db);
    assert env.ds[..|env.ds| - 1] == [];
    assert HandleAll(w, opts, base, env.now, s0, []) == s0;
    var s := HandleAll(w, opts, base, env.now, s0, env.ds);
    assert s == Handle(w, opts, base, env.now, s0, env.ds[0]);
    FinishEffect(base, item, reset, env, s);
  }

  /** Start of an epoch: from nothing, or from an appended blob of the epoch before. */
  lemma Rollover(w: World, o: Owner, st: NameState, epoch: U16, now: Time)
    requires Setting(w, o)
    requires now >= Epoch.EPOCH_DATE && epoch <= CurrentFor(w, NAME, now) + 1
    requires if epoch == 0 then Clear(o, st) && NAME !in st.db.headers else Holds(o, st, epoch - 1, 2, ZERO_TIME)
    ensures KindOf(w, st, Grow(o, epoch, 1, now)) == Changed
    ensures Holds(o, Next(w, st, Grow(o, epoch, 1, now)), epoch, 1, now)
  {
    Epoch.CurrentBounded([], now);
    assert Blob(0) == [];
    GrowStores(w, o, st, epoch, 1, now, SyncOpts(NAME, epoch, 0, Zero), true);
  }

  lemma Append(w: World, o: Owner, st: NameState, epoch: U16, now: Time, start: Time)
    requires Setting(w, o)
    requires Holds(o, st, epoch, 1, start)
    ensures Holds(o, Next(w, st, Grow(o, epoch, 2, now)), epoch, 2, ZERO_TIME)
  {
    assert Blob(1) <= st.base.sectors;
    GrowStores(w, o, st, epoch, 2, now, SyncOpts(NAME, epoch, 1, Fold(Zero, Blob(1))), false);
  }

  /** A burst is a run in which the clock stands still. */
  lemma BurstRuns(w: World, o: Owner, n: nat, now: Time)
    requires Setting(w, o) && n <= 65536 && now >= Epoch.StartDate([])
    ensures Runs(w, NAME, Burst(o, n, now))
    ensures forall i :: 0 <= i < |Burst(o, n, now)| ==> TimeOf(Burst(o, n, now)[i]) == now
  {
  }

  lemma RolloverAndAppend(w: World, o: Owner, st: NameState, epoch: U16, now: Time)
    requires Setting(w, o)
    requires now >= Epoch.EPOCH_DATE && epoch <= CurrentFor(w, NAME, now) + 1
    requires if epoch == 0 then Clear(o, st) && NAME !in st.db.headers else Holds(o, st, epoch - 1, 2, ZERO_TIME)
    ensures KindOf(w, st, Grow(o, epoch, 1, now)) == Changed
    ensures Holds(o, Next(w, Next(w, st, Grow(o, epoch, 1, now)), Grow(o, epoch, 2, now)), epoch, 2, ZERO_TIME)
  {
    Rollover(w, o, st, epoch, now);
    Append(w, o, Next(w, st, Grow(o, epoch, 1, now)), epoch, now, now);
  }

  lemma RunTwo(w: World, st: NameState, steps: seq<Step>, a: Step, b: Step)
    ensures Run(w, st, steps + [a, b]) == Next(w, Next(w, Run(w, st, steps), a), b)
  {
    var all := steps + [a, b];
    assert all[..|all| - 1] == steps + [a];
    assert (steps + [a])[..|steps + [a]| - 1] == steps;
  }

  /**
   Every epoch up to the one after the current is entered, one after the other, in the
   same second: so many rollovers, and not three, fit into one window.
   */
  lemma {:induction false} EveryEpochEntered(w: World, o: Owner, st: NameState, e: U16, now: Time)
    requires Setting(w, o) && Clear(o, st) && NAME !in st.db.headers
    requires now >= Epoch.EPOCH_DATE && e <= CurrentFor(w, NAME, now) + 1
    ensures KindOf(w, Run(w, st, Burst(o, e, now)), Grow(o, e, 1, now)) == Changed
    ensures Holds(o, Run(w, st, Burst(o, e + 1, now)), e, 2, ZERO_TIME)
    decreases e
  {
    if e > 0 {
      EveryEpochEntered(w, o, st, e - 1, now);
    }
    RolloverAndAppend(w, o, Run(w, st, Burst(o, e, now)), e, now);
    RunTwo(w, st, Burst(o, e, now), Grow(o, e, 1, now), Grow(o, e, 2, now));
  }

  /** The steps of a burst: epoch e is entered at position 2e, after the burst through the epochs before it. */
  lemma {:induction false} BurstIsPrefix(o: Owner, n: nat, e: nat, now: Time)
    requires e < n <= 65536
    ensures Burst(o, n, now)[..2 * e] == Burst(o, e, now) && Burst(o, n, now)[2 * e] == Grow(o, e, 1, now)
    decreases n
  {
    if e < n - 1 {
      BurstIsPrefix(o, n - 1, e, now);
      assert Burst(o, n, now)[..2 * e] == Burst(o, n - 1, now)[..2 * e];
    }
  }

  // ---------------------------------------------------------------- three in a week

  /** From one epoch straight to the one after the current. */
  lemma Jump(w: World, o: Owner, st: NameState, held: U16, start: Time, epoch: U16, now: Time)
    requires Setting(w, o) && Holds(o, st, held, 1, start) && held < epoch
    requires now >= Epoch.EPOCH_DATE && epoch == CurrentFor(w, NAME, now) + 1
    ensures KindOf(w, st, Grow(o, epoch, 1, now)) == Changed
    ensures Holds(o, Next(w, st, Grow(o, epoch, 1, now)), epoch, 1, now)
  {
    Epoch.CurrentBounded([], now);
    assert Blob(0) == [];
    GrowStores(w, o, st, epoch, 1, now, SyncOpts(NAME, epoch, 0, Zero), true);
  }

  /** The last second of the first epoch. */
  const LATE: Time := Epoch.EPOCH_DATE + WEEK - 1

  function ThreeSteps(o: Owner): seq<Step> {
    [Grow(o, 0, 1, LATE), Grow(o, 1, 1, LATE), Grow(o, 2, 1, LATE + 1)]
  }

  lemma LateEpochs(w: World, o: Owner)
    requires Setting(w, o)
    ensures CurrentFor(w, NAME, LATE) == 0 && CurrentFor(w, NAME, LATE + 1) == 1
  {
    Epoch.CurrentBounded([], LATE);
    Epoch.CurrentBounded([], LATE + 1);
  }

  lemma ThreeChange(w: World, o: Owner, st: NameState)
    requires Setting(w, o) && Clear(o, st) && NAME !in st.db.headers
    ensures var s1 := Next(w, st, Grow(o, 0, 1, LATE));
            var s2 := Next(w, s1, Grow(o, 1, 1, LATE));
            && KindOf(w, st, Grow(o, 0, 1, LATE)) == Changed
            && KindOf(w, s1, Grow(o, 1, 1, LATE)) == Changed
            && KindOf(w, s2, Grow(o, 2, 1, LATE + 1)) == Changed
  {
    LateEpochs(w, o);
    Rollover(w, o, st, 0, LATE);
    var s1 := Next(w, st, Grow(o, 0, 1, LATE));
    Jump(w, o, s1, 0, LATE, 1, LATE);
    Jump(w, o, Next(w, s1, Grow(o, 1, 1, LATE)), 1, LATE, 2, LATE + 1);
  }

  lemma KindsOfThree(w: World, st: NameState, a: Step, b: Step, c: Step)
    ensures var log := Log(w, NAME, st, [a, b, c]);
            && |log| == 3 && log[0].kind == KindOf(w, st, a) && log[1].kind == KindOf(w, Next(w, st, a), b)
            && log[2].kind == KindOf(w, Next(w, Next(w, st, a), b), c)
  {
    var steps := [a, b, c];
    assert steps[..0] == [] && steps[..1][..0] == [] && steps[..2][..1] == steps[..1];
    assert Run(w, st, steps[..1]) == Next(w, Run(w, st, steps[..1][..0]), a);
    assert Run(w, st, steps[..2]) == Next(w, Run(w, st, steps[..2][..1]), b);
  }

  lemma CountThree(log: seq<Entry>)
    requires |log| == 3 && log[0].kind.Changed? && log[1].kind.Changed? && log[2].kind.Changed?
    ensures NoAppend(log, 0, 3) && CountChanges(log, 0, 3) == 3
  {
    assert CountChanges(log, 2, 3) == 1 + CountChanges(log, 3, 3);
  }

  lemma ThreeRun(w: World, o: Owner)
    requires Setting(w, o)
    ensures Runs(w, NAME, ThreeSteps(o)) && TimeOf(ThreeSteps(o)[2]) < TimeOf(ThreeSteps(o)[0]) + WEEK
  {
  }

  /** The rate is exact: a run with no append enters three epochs within two seconds. */
  lemma ThreeInAWeek(w: World, o: Owner, st: NameState)
    requires Setting(w, o) && Clear(o, st) && NAME !in st.db.headers
    ensures var steps := ThreeSteps(o);
            && Runs(w, NAME, steps) && TimeOf(steps[2]) < TimeOf(steps[0]) + WEEK
            && NoAppend(Log(w, NAME, st, steps), 0, 3)
            && CountChanges(Log(w, NAME, st, steps), 0, 3) == 3
  {
    ThreeRun(w, o);
    ThreeChange(w, o, st);
    KindsOfThree(w, st, Grow(o, 0, 1, LATE), Grow(o, 1, 1, LATE), Grow(o, 2, 1, LATE + 1));
    CountThree(Log(w, NAME, st, ThreeSteps(o)));
  }

  // ---------------------------------------------------------------- a first header from the far future

  /**
   A name's first header may carry any epoch. One of epoch 65535 is stored on the first day,
   and no run from there ever leaves that epoch.
   */
  lemma FarFutureSticks(w: World, o: Owner, st: NameState, now: Time, steps: seq<Step>, i: nat)
    requires Setting(w, o) && Clear(o, st) && NAME !in st.db.headers && now >= Epoch.EPOCH_DATE
    requires Runs(w, NAME, steps) && i < |steps|
    ensures var first := Grow(o, 65535, 1, now);
            && First(EntryOf(w, NAME, st, first)) && !Timely(EntryOf(w, NAME, st, first))
            && !Log(w, NAME, Next(w, st, first), steps)[i].kind.Changed?
  {
    Epoch.CurrentBounded([], now);
    assert Blob(0) == [];
    GrowStores(w, o, st, 65535, 1, now, SyncOpts(NAME, 0, 0, Zero), true);
    var st' := Next(w, st, Grow(o, 65535, 1, now));
    LogLinked(w, NAME, st', steps);
    assert steps[..0] == [];
    LastEpochStays(Log(w, NAME, st', steps), i);
  }
}
