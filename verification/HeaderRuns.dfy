/**
 What every run keeps, races and all, as long as the database writes: a header and its table
 describe one and the same list of sectors, and the list fits a blob. Only the blob itself
 may come to hold something else.
 */
module HeaderRuns {
  import opened Basics
  import opened HashChain
  import BlobTx
  import opened HeaderStore
  import opened Syncer
  import SectorServer
  import opened Updater
  import opened StoredContent
  import opened Publisher
  import opened StoreRuns
  import opened StoreIndex
  import opened StoreRaces

  /** The name's header and table are those of `ss`. */
  predicate Describes(db: Db, name: string, ss: seq<Sector>) {
    && name in db.headers && name in db.tables
    && db.headers[name].size == |ss| <= MAX_SECTORS
    && db.headers[name].tip == Fold(Zero, ss) && db.tables[name] == Table(ss)
  }

  ghost predicate Described(db: Db, name: string) {
    name in db.headers ==> exists ss :: Describes(db, name, ss)
  }

  ghost predicate AllDescribed(db: Db) {
    forall name :: Described(db, name)
  }

  /** One name gets a header and table that describe `ss`; the rest stay. */
  lemma EntryDescribed(db: Db, db': Db, name: string, ss: seq<Sector>)
    requires AllDescribed(db) && Describes(db', name, ss)
    requires db'.headers == db.headers[name := db'.headers[name]] && db'.tables == db.tables[name := db'.tables[name]]
    ensures AllDescribed(db')
  {
    forall other: string
      ensures Described(db', other)
    {
      assert Described(db, other);
      if other != name && other in db.headers {
        var ts :| Describes(db, other, ts);
        assert Describes(db', other, ts);
      }
    }
  }

  lemma SameDescribed(db: Db, db': Db)
    requires AllDescribed(db) && db'.headers == db.headers && db'.tables == db.tables
    ensures AllDescribed(db')
  {
    forall name: string
      ensures Described(db', name)
    {
      assert Described(db, name);
      if name in db.headers {
        var ss :| Describes(db, name, ss);
        assert Describes(db', name, ss);
      }
    }
  }

  lemma SyncDescribed(w: World, n: Host, item: Item, opts: SyncOpts, reset: bool, env: Env)
    requires AllDescribed(n.db) && BlobSized(n, item.name) && env.putFault == AllPut
    ensures AllDescribed(SyncInto(w, n, item, opts, reset, env).db)
  {
    var base := BlobOf(n, item.name);
    var a := Attempt(w, n.db, base, item, opts, reset, env);
    UpdateKeepsIndex(w, n.db, base, item, opts, reset, env);
    if a.out.Stored? {
      EntryDescribed(n.db, a.db, item.name, a.base.sectors[..a.out.header.size]);
    } else {
      SameDescribed(n.db, a.db);
    }
  }

  lemma PutDescribed(s: NodeState, call: nat, now: Time, busy: bool)
    requires Shape(s) && AllDescribed(s.host.db)
    ensures AllDescribed(PutCommit(s, call, now, busy).host.db)
  {
    if call in s.flights && !s.flights[call].stored {
      var f := s.flights[call];
      assert FlightSound(s, call);
      if !busy && !Locked(s, f.name) {
        PutEffect(s.host, f.a, f.req, f.hashes, now);
        EntryDescribed(s.host.db, PutCommit(s, call, now, busy).host.db, f.name, f.content);
      }
    }
  }

  /** The steps that write no header. */
  lemma OthersDescribed(w: World, s: NodeState, step: Step)
    requires Shape(s) && AllDescribed(s.host.db) && !step.Sync? && !step.PutOne?
    ensures AllDescribed(Next(w, s, step).host.db)
  {
    if step.CheckOne? && Known(s.host, step.req.txID) {
      CheckEffect(w, s.host, s.host.txStore[step.req.txID], step.req);
    }
    SameDescribed(s.host.db, Next(w, s, step).host.db);
  }

  lemma StepDescribed(w: World, s: NodeState, step: Step)
    requires Shape(s) && AllDescribed(s.host.db) && WritesSucceed(step)
    ensures AllDescribed(Next(w, s, step).host.db)
  {
    match step
    case Sync(item, opts, reset, env) =>
      assert BlobSized(s.host, item.name);
      SyncDescribed(w, s.host, item, opts, reset, env);
    case PutOne(call, now, busy) => PutDescribed(s, call, now, busy);
    case _ => OthersDescribed(w, s, step);
  }

  lemma {:induction false} RunDescribed(w: World, s: NodeState, steps: seq<Step>)
    requires Shape(s) && AllDescribed(s.host.db) && AllWritesSucceed(steps)
    ensures AllDescribed(Run(w, s, steps).host.db)
    decreases |steps|
  {
    if steps != [] {
      var front := steps[..|steps| - 1];
      RunDescribed(w, s, front);
      RunShape(w, s, front);
      StepDescribed(w, Run(w, s, front), steps[|steps| - 1]);
    }
  }

  /**
   After every run from an empty node, whatever races it went through: each header and its
   table describe exactly one list of sectors, of at most the blob size.
   */
  lemma EveryHeaderDescribes(w: World, steps: seq<Step>, name: string)
    requires AllWritesSucceed(steps) && name in Run(w, EMPTY, steps).host.db.headers
    ensures var db := Run(w, EMPTY, steps).host.db;
            && (exists ss :: Describes(db, name, ss))
            && (forall ss, ts :: Describes(db, name, ss) && Describes(db, name, ts) ==> ss == ts)
  {
    EmptySound();
    RunDescribed(w, EMPTY, steps);
    var db := Run(w, EMPTY, steps).host.db;
    assert Described(db, name);
    forall ss, ts | Describes(db, name, ss) && Describes(db, name, ts)
      ensures ss == ts
    {
      ChainInjective(ss, ts);
    }
  }

  // ---------------------------------------------------------------- names nobody can publish

  /** No signature of the name passes: it is invalid, listed as banned, without a key, or its key signs nothing. */
  ghost predicate Shut(w: World, db: Db, name: string) {
    || !w.validName(name) || name in db.bannedNames || name !in db.keys
    || (forall sig, seal: Seal :: seal.name == name ==> !w.verify(db.keys[name], sig, seal))
  }

  /** What the store holds about the name. */
  datatype Record = Record(header: Option<Header>, table: Option<seq<Hash>>, ban: Option<Time>, proof: Option<Proof>)

  function Find<T>(m: map<string, T>, name: string): Option<T> {
    if name in m then Some(m[name]) else None
  }

  function RecordOf(db: Db, name: string): Record {
    Record(Find(db.headers, name), Find(db.tables, name), Find(db.bans, name), Find(db.proofs, name))
  }

  /** A sync of a name that is shut records nothing and gets nothing to store. */
  lemma {:induction false} ShutSync(w: World, opts: SyncOpts, base: BlobTx.File, now: Time, s0: SyncState, ds: seq<Delivery>)
    requires Shut(w, s0.db, opts.name) && NothingProcessed(s0.events)
    ensures var s := HandleAll(w, opts, base, now, s0, ds); s.db == s0.db && NothingProcessed(s.events)
    decreases |ds|
  {
    if ds != [] {
      ShutSync(w, opts, base, now, s0, ds[..|ds| - 1]);
    }
  }

  lemma ShutUpdate(w: World, n: Host, item: Item, opts: SyncOpts, reset: bool, env: Env)
    requires Shut(w, n.db, item.name) && opts.name == item.name
    ensures SyncInto(w, n, item, opts, reset, env).db == n.db
  {
    var base, s0 := BlobOf(n, item.name), Start(Prepared(opts, reset).tx, n.db);
    ShutSync(w, opts, base, env.now, s0, env.ds);
    var s := HandleAll(w, opts, base, env.now, s0, env.ds);
    assert !Picked(s.events, env.pick).Synced?;
  }

  /** A sync leaves the bans and proofs of all other names alone. */
  lemma {:induction false} SyncRecordsOwn(w: World, opts: SyncOpts, base: BlobTx.File, now: Time, s0: SyncState, ds: seq<Delivery>, name: string)
    requires name != opts.name
    ensures var s := HandleAll(w, opts, base, now, s0, ds);
            Find(s.db.bans, name) == Find(s0.db.bans, name) && Find(s.db.proofs, name) == Find(s0.db.proofs, name)
    decreases |ds|
  {
    if ds != [] {
      SyncRecordsOwn(w, opts, base, now, s0, ds[..|ds| - 1], name);
    }
  }

  lemma OtherUpdate(w: World, n: Host, item: Item, opts: SyncOpts, reset: bool, env: Env, name: string)
    requires name != item.name == opts.name && BlobSized(n, item.name) && env.putFault == AllPut && n.db.count == |n.db.headers|
    ensures RecordOf(SyncInto(w, n, item, opts, reset, env).db, name) == RecordOf(n.db, name)
  {
    var base, s0 := BlobOf(n, item.name), Start(Prepared(opts, reset).tx, n.db);
    SyncEffect(w, n, item, opts, reset, env);
    assert SameEntry(n.db, SyncInto(w, n, item, opts, reset, env).db, name);
    SyncRecordsOwn(w, opts, base, env.now, s0, env.ds, name);
    FinishRecords(base, item, reset, env, HandleAll(w, opts, base, env.now, s0, env.ds));
  }

  /** A sync asks about the name it is for, and no local commit of the name is stored. */
  predicate Remote(s: NodeState, step: Step, name: string) {
    && (step.Sync? ==> step.opts.name == step.item.name)
    && (step.PutOne? && step.call in s.flights ==> s.flights[step.call].name != name)
  }

  lemma ShutSyncStep(w: World, s: NodeState, step: Step, name: string)
    requires Shape(s) && step.Sync? && WritesSucceed(step) && Remote(s, step, name) && Shut(w, s.host.db, name)
    ensures RecordOf(Next(w, s, step).host.db, name) == RecordOf(s.host.db, name)
  {
    var n, item := s.host, step.item;
    if !Locked(s, item.name) {
      assert BlobSized(n, item.name);
      if item.name == name {
        ShutUpdate(w, n, item, step.opts, step.reset, step.env);
      } else {
        OtherUpdate(w, n, item, step.opts, step.reset, step.env, name);
      }
    }
  }

  /** The other steps that look at the database. */
  lemma ShutOtherStep(w: World, s: NodeState, step: Step, name: string)
    requires Shape(s) && (step.PutOne? || step.ProofArrives? || step.CheckOne?) && Remote(s, step, name) && Shut(w, s.host.db, name)
    ensures RecordOf(Next(w, s, step).host.db, name) == RecordOf(s.host.db, name)
  {
    match step
    case PutOne(call, now, busy) =>
      if call in s.flights && !s.flights[call].stored {
        assert FlightSound(s, call);
        PutEffect(s.host, s.flights[call].a, s.flights[call].req, s.flights[call].hashes, now);
      }
    case ProofArrives(p, at) => SectorServer.ProofJudged(w, s.host.db, at, p);
    case CheckOne(req) =>
      if Known(s.host, req.txID) {
        CheckEffect(w, s.host, s.host.txStore[req.txID], req);
      }
  }

  lemma ShutStep(w: World, s: NodeState, step: Step, name: string)
    requires Shape(s) && WritesSucceed(step) && Remote(s, step, name) && Shut(w, s.host.db, name)
    ensures RecordOf(Next(w, s, step).host.db, name) == RecordOf(s.host.db, name)
  {
    match step
    case Sync(_, _, _, _) => ShutSyncStep(w, s, step, name);
    case PutOne(_, _, _) => ShutOtherStep(w, s, step, name);
    case ProofArrives(_, _) => ShutOtherStep(w, s, step, name);
    case CheckOne(_) => ShutOtherStep(w, s, step, name);
    case _ =>
  }

  ghost predicate AlwaysShut(w: World, s: NodeState, steps: seq<Step>, name: string) {
    steps == [] ||
    (var before := Run(w, s, steps[..|steps| - 1]);
     && AlwaysShut(w, s, steps[..|steps| - 1], name)
     && Shut(w, before.host.db, name) && Remote(before, steps[|steps| - 1], name))
  }

  /**
   Over every run, with any messages and any proofs: as long as no signature of the name
   passes, peers bring it no header, no table, no ban and no proof.
   */
  lemma {:induction false} ShutStaysEmpty(w: World, s: NodeState, steps: seq<Step>, name: string)
    requires Shape(s) && AllWritesSucceed(steps) && AlwaysShut(w, s, steps, name)
    ensures RecordOf(Run(w, s, steps).host.db, name) == RecordOf(s.host.db, name)
    decreases |steps|
  {
    if steps != [] {
      var front := steps[..|steps| - 1];
      ShutStaysEmpty(w, s, front, name);
      RunShape(w, s, front);
      ShutStep(w, Run(w, s, front), steps[|steps| - 1], name);
    }
  }
}
