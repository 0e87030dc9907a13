/** Whole runs of updates and incoming equivocation proofs on one name, and the epoch log they leave. */
module EpochRules {
  import opened Basics
  import opened BlobTx
  import opened HeaderStore
  import opened Syncer
  import opened SectorServer
  import opened Updater
  import opened EpochLog
  import Epoch

  datatype NameState = NameState(db: Db, base: File)

  datatype Step = UpdateStep(item: Item, env: Env) | ProofStep(proof: Proof, at: Time)

  function TimeOf(step: Step): Time {
    match step
    case UpdateStep(_, env) => env.now
    case ProofStep(_, at) => at
  }

  function Next(w: World, st: NameState, step: Step): NameState {
    match step
    case UpdateStep(item, env) => var a := Update(w, st.db, st.base, item, env); NameState(a.db, a.base)
    case ProofStep(p, at) => st.(db := ReceiveProof(w, st.db, at, p))
  }

  function Run(w: World, st: NameState, steps: seq<Step>): NameState
    decreases |steps|
  {
    if steps == [] then st else Next(w, Run(w, st, steps[..|steps| - 1]), steps[|steps| - 1])
  }

  /** Updates of one name, with a clock that never goes back and database writes that succeed. */
  predicate Runs(w: World, name: string, steps: seq<Step>) {
    && (forall i, j :: 0 <= i <= j < |steps| ==> TimeOf(steps[i]) <= TimeOf(steps[j]))
    && (forall i :: 0 <= i < |steps| ==> OneName(w, name, steps[i]))
  }

  predicate OneName(w: World, name: string, step: Step) {
    && TimeOf(step) >= Epoch.StartDate(w.hashName(name))
    && (step.UpdateStep? ==> step.item.name == name && step.env.putFault == AllPut)
  }

  // ---------------------------------------------------------------- the log of a run

  function LookAt(st: NameState, name: string): Look {
    Look(match LookupHeader(st.db, name)
         case None => None
         case Some(h) => Some(Head(h.epoch, h.size, h.startAt)),
         LookupBan(st.db, name))
  }

  function KindOf(w: World, st: NameState, step: Step): Kind {
    if step.UpdateStep? && Update(w, st.db, st.base, step.item, step.env).out.Stored? then
      if PlanFor(w, st.db, step.item, step.env.now).reset then Changed else Appended
    else Idle
  }

  function EntryOf(w: World, name: string, st: NameState, step: Step): Entry {
    var (epoch, size) := if step.UpdateStep? then (step.item.epoch, step.item.size) else (0, 0);
    Entry(TimeOf(step), KindOf(w, st, step), epoch, size, CurrentFor(w, name, TimeOf(step)),
          LookAt(st, name), LookAt(Next(w, st, step), name))
  }

  /** Entry i is what step i does after the steps before it. */
  function Log(w: World, name: string, st: NameState, steps: seq<Step>): seq<Entry> {
    seq(|steps|, (i: nat) requires i < |steps| => EntryOf(w, name, Run(w, st, steps[..i]), steps[i]))
  }

  lemma FinishEffect(base: File, item: Item, reset: bool, env: Env, s: SyncState)
    requires env.putFault == AllPut
    ensures var a := Finish(base, item, reset, env, s);
            && a.db.bans == s.db.bans
            && (if a.out.Stored? then
                  && a.db.headers == s.db.headers[item.name := a.out.header]
                  && a.out.header.epoch == item.epoch && a.out.header.size == item.size
                  && a.out.header.startAt == (if reset then env.now else ZERO_TIME)
                else a.db.headers == s.db.headers)
  {
  }

  lemma {:induction false} SyncBans(w: World, opts: SyncOpts, base: File, now: Time, s0: SyncState, ds: seq<Delivery>)
    ensures var s := HandleAll(w, opts, base, now, s0, ds);
            && s.db.headers == s0.db.headers
            && (s.db.bans == s0.db.bans || s.db.bans == s0.db.bans[opts.name := now])
    decreases |ds|
  {
    if ds != [] {
      SyncBans(w, opts, base, now, s0, ds[..|ds| - 1]);
      assert s0.db.bans[opts.name := now][opts.name := now] == s0.db.bans[opts.name := now];
    }
  }

  lemma AttemptEffect(w: World, db: Db, base: File, item: Item, opts: SyncOpts, reset: bool, env: Env)
    requires env.putFault == AllPut && opts.name == item.name
    ensures var a := Attempt(w, db, base, item, opts, reset, env);
            && (a.db.bans == db.bans || a.db.bans == db.bans[item.name := env.now])
            && (if a.out.Stored? then
                  && a.db.headers == db.headers[item.name := a.out.header]
                  && a.out.header.epoch == item.epoch && a.out.header.size == item.size
                  && a.out.header.startAt == (if reset then env.now else ZERO_TIME)
                else a.db.headers == db.headers)
  {
    var s0 := Start(Prepared(opts, reset).tx, db);
    SyncBans(w, opts, base, env.now, s0, env.ds);
    FinishEffect(base, item, reset, env, HandleAll(w, opts, base, env.now, s0, env.ds));
  }

  lemma UpdateAllowed(w: World, name: string, st: NameState, step: Step)
    requires OneName(w, name, step) && step.UpdateStep?
    ensures Allowed(EntryOf(w, name, st, step))
  {
    var item, env := step.item, step.env;
    var plan := PlanFor(w, st.db, item, env.now);
    if plan.Proceed? {
      AttemptEffect(w, st.db, st.base, item, plan.opts, plan.reset, env);
      Epoch.CurrentBounded(w.hashName(name), env.now);
    }
  }

  lemma StepAllowed(w: World, name: string, st: NameState, step: Step)
    requires OneName(w, name, step)
    ensures Allowed(EntryOf(w, name, st, step))
  {
    if step.UpdateStep? {
      UpdateAllowed(w, name, st, step);
    }
  }

  lemma LogOrdered(w: World, name: string, st: NameState, steps: seq<Step>, i: nat, j: nat)
    requires Runs(w, name, steps) && i <= j < |steps|
    ensures Ordered(Log(w, name, st, steps), i, j)
  {
    assert OneName(w, name, steps[i]);
    Epoch.CurrentMonotone(w.hashName(name), TimeOf(steps[i]), TimeOf(steps[j]));
    if TimeOf(steps[j]) < TimeOf(steps[i]) + WEEK {
      Epoch.CurrentWithinWeek(w.hashName(name), TimeOf(steps[i]), TimeOf(steps[j]));
    }
  }

  lemma LogJoined(w: World, name: string, st: NameState, steps: seq<Step>, i: nat)
    requires Runs(w, name, steps) && i < |steps|
    ensures Joined(Log(w, name, st, steps), i)
  {
    assert OneName(w, name, steps[i]);
    StepAllowed(w, name, Run(w, st, steps[..i]), steps[i]);
    if i > 0 {
      assert steps[..i][..i - 1] == steps[..i - 1];
    }
  }

  /** Every run leaves a log that keeps the gate's rules. */
  lemma LogLinked(w: World, name: string, st: NameState, steps: seq<Step>)
    requires Runs(w, name, steps)
    ensures Linked(Log(w, name, st, steps))
  {
    var log := Log(w, name, st, steps);
    forall i, j | 0 <= i <= j < |log|
      ensures Ordered(log, i, j)
    {
      LogOrdered(w, name, st, steps, i, j);
    }
    forall i | 0 <= i < |log|
      ensures Joined(log, i)
    {
      LogJoined(w, name, st, steps, i);
    }
  }

  // ---------------------------------------------------------------- what follows for runs

  /** Header writes of a run are strictly ordered by epoch and then size, and their number is bounded. */
  lemma RunProgress(w: World, name: string, st: NameState, steps: seq<Step>, i: nat, j: nat)
    requires Runs(w, name, steps) && i < j < |steps|
    ensures var log := Log(w, name, st, steps);
            && CountWrites(log) <= 65536 * 65536
            && (!log[i].kind.Idle? && !log[j].kind.Idle? ==>
                  log[i].epoch < log[j].epoch || (log[i].epoch == log[j].epoch && log[i].size < log[j].size))
  {
    LogLinked(w, name, st, steps);
    var log := Log(w, name, st, steps);
    WritesBounded(log);
    if !log[i].kind.Idle? && !log[j].kind.Idle? {
      WritesProgress(log, i, j);
    }
  }

  /** A rollover at step m of a run in which the name was already banned at step b. */
  lemma RunBanPenalty(w: World, name: string, st: NameState, steps: seq<Step>, b: nat, m: nat, since: Time)
    requires Runs(w, name, steps) && b <= m < |steps|
    requires var log := Log(w, name, st, steps);
             && log[b].before.ban == since != ZERO_TIME && since <= TimeOf(steps[b])
             && log[m].kind.Changed? && log[m].before.head.Some?
    ensures var log := Log(w, name, st, steps);
            log[m].time >= since + WEEK && log[m].epoch >= log[m].before.head.value.epoch + 2
  {
    LogLinked(w, name, st, steps);
    BanPenalty(Log(w, name, st, steps), b, m, since);
  }

  /** In any window of a run shorter than a week and free of appends, at most three epoch changes are accepted. */
  lemma RolloverRate(w: World, name: string, st: NameState, steps: seq<Step>, lo: nat, hi: nat)
    requires Runs(w, name, steps) && lo < hi <= |steps|
    requires TimeOf(steps[hi - 1]) < TimeOf(steps[lo]) + WEEK
    requires NoAppend(Log(w, name, st, steps), lo, hi)
    ensures CountChanges(Log(w, name, st, steps), lo, hi) <= 3
  {
    LogLinked(w, name, st, steps);
    AtMostThreeChanges(Log(w, name, st, steps), lo, hi);
  }

  /**
   Less than a week after an epoch change, an update to an epoch no later than the current
   one is throttled exactly when no append was accepted since: an append clears the start time.
   */
  lemma ThrottledUnlessAppended(w: World, name: string, st: NameState, steps: seq<Step>, i: nat, m: nat)
    requires Runs(w, name, steps) && i < m < |steps| && steps[m].UpdateStep?
    requires TimeOf(steps[m]) < TimeOf(steps[i]) + WEEK
    requires var log := Log(w, name, st, steps);
             && log[i].kind.Changed? && (forall j :: i < j < m ==> !log[j].kind.Changed?)
             && log[m].before.ban == ZERO_TIME
             && (log[m].before.head.Some? ==> log[m].before.head.value.epoch < log[m].epoch <= log[m].cur)
    ensures PlanFor(w, Run(w, st, steps[..m]).db, steps[m].item, TimeOf(steps[m])) == Refuse(Throttled)
            <==> NoAppend(Log(w, name, st, steps), i + 1, m)
  {
    var log := Log(w, name, st, steps);
    LogLinked(w, name, st, steps);
    StartAfter(log, i, m);
    assert OneName(w, name, steps[m]);
    GateThrottles(w, name, Run(w, st, steps[..m]), steps[m]);
  }

  lemma GateThrottles(w: World, name: string, st: NameState, step: Step)
    requires OneName(w, name, step) && step.UpdateStep?
    requires LookAt(st, name).head.Some? && LookAt(st, name).ban == ZERO_TIME
    requires LookAt(st, name).head.value.epoch < step.item.epoch <= CurrentFor(w, name, TimeOf(step))
    ensures PlanFor(w, st.db, step.item, TimeOf(step)) == Refuse(Throttled)
            <==> TimeOf(step) < LookAt(st, name).head.value.startAt + WEEK
  {
  }

  /**
   Over every run from a state whose header, if any, is at most one epoch ahead of the clock:
   all epochs stored are at most one ahead of theirs if and only if the first header's is.
   */
  lemma RunTimely(w: World, name: string, st: NameState, steps: seq<Step>)
    requires Runs(w, name, steps) && steps != []
    requires LookAt(st, name).head.Some? ==> LookAt(st, name).head.value.epoch <= CurrentFor(w, name, TimeOf(steps[0])) + 1
    ensures var log := Log(w, name, st, steps);
            (forall i :: 0 <= i < |log| ==> Timely(log[i])) <==> (forall i :: 0 <= i < |log| && First(log[i]) ==> Timely(log[i]))
  {
    LogLinked(w, name, st, steps);
    assert steps[..0] == [];
    TimelyIffFirst(Log(w, name, st, steps));
  }
}
