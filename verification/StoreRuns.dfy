/**
 Whole runs of a node: updates from peers and local publishing, interleaved on any names
 and any number of open transactions. Commits check their transaction, store the header and
 publish the blob in separate steps, and any other handler may run in between.
 */
module StoreRuns {
  import opened Basics
  import opened HashChain
  import opened BlobTx
  import opened BlobHash
  import opened HeaderStore
  import opened Syncer
  import SectorServer
  import opened Updater
  import opened StoredContent
  import opened Publisher

  /**
   A commit of `name` under way on the transaction at address `a`: checked, and once `stored`
   holding the name lock with its header written. `content` is what it hashed.
   */
  datatype Flight = Flight(
    name: string, a: nat, req: CommitReq, hashes: seq<Hash>, content: seq<Sector>, stored: bool)

  datatype NodeState = NodeState(host: Host, flights: map<nat, Flight>, calls: nat)

  datatype Step =
    // the locked part of UpdateBlob, from a plan made at any earlier time
    | Sync(item: Item, opts: SyncOpts, reset: bool, env: Env)
    | ProofArrives(proof: Proof, at: Time)
    | CheckOut(name: string, startOver: bool, cur: U16)
    | WriteOne(id: nat, data: seq<Byte>, fault: WriteFault)
    // the three parts of a commit; the second fails when the name is locked, or busy with readers
    | CheckOne(req: CommitReq)
    | PutOne(call: nat, now: Time, busy: bool)
    | PublishOne(call: nat)
    // a look-up past its time rolls the transaction back
    | Expire(id: nat)
    // all users of a blob closed it and it was opened again: the file is cut to size
    | Reopen(name: string)
    | Import(keys: map<string, PubKey>, bannedNames: set<string>)

  function SyncInto(w: World, n: Host, item: Item, opts: SyncOpts, reset: bool, env: Env): Host {
    Replaced(n, item.name, Attempt(w, n.db, BlobOf(n, item.name), item, opts, reset, env))
  }

  /** The commit holds the lock of the name. */
  predicate Holds(s: NodeState, call: nat, name: string) {
    call in s.flights && s.flights[call].stored && s.flights[call].name == name
  }

  predicate Locked(s: NodeState, name: string) {
    exists call :: call in s.flights && Holds(s, call, name)
  }

  function Take(view: seq<Sector>, size: nat): seq<Sector> {
    if size <= |view| then view[..size] else view
  }

  function BeginCommit(w: World, s: NodeState, req: CommitReq): NodeState {
    var n := s.host;
    if !Known(n, req.txID) then s
    else
      var a := n.txStore[req.txID];
      var (n', hashes) := CheckAt(w, n, a, req);
      Begun(s.(host := n'), Flight(n.txs[a].name, a, req, hashes.GetOr([]), Take(ViewAt(n, a), req.size), false), hashes.Some?)
  }

  function Begun(s: NodeState, f: Flight, passed: bool): NodeState {
    if passed then NodeState(s.host, s.flights[s.calls := f], s.calls + 1) else s
  }

  function PutCommit(s: NodeState, call: nat, now: Time, busy: bool): NodeState {
    if call !in s.flights || s.flights[call].stored || s.flights[call].a >= |s.host.txs| then s
    else
      var f := s.flights[call];
      if busy || Locked(s, f.name) then s.(flights := s.flights - {call})
      else s.(host := PutAt(s.host, f.a, f.req, f.hashes, now, AllPut).0, flights := s.flights[call := f.(stored := true)])
  }

  function EndCommit(s: NodeState, call: nat): NodeState {
    if call !in s.flights || !s.flights[call].stored || s.flights[call].a >= |s.host.txs| then s
    else s.(host := PublishAt(s.host, s.flights[call].a, s.flights[call].req.txID).0, flights := s.flights - {call})
  }

  function CutToSize(n: Host, name: string): Host {
    if name !in n.blobs || |n.blobs[name].sectors| < MAX_SECTORS then n
    else n.(blobs := n.blobs[name := n.blobs[name].(sectors := n.blobs[name].sectors[..MAX_SECTORS])])
  }

  function Next(w: World, s: NodeState, step: Step): NodeState {
    var n := s.host;
    match step
    case Sync(item, opts, reset, env) =>
      if Locked(s, item.name) then s else s.(host := SyncInto(w, n, item, opts, reset, env))
    case ProofArrives(p, at) => s.(host := n.(db := SectorServer.ReceiveProof(w, n.db, at, p)))
    case CheckOut(name, startOver, cur) => s.(host := OnCheckout(n, name, startOver, cur).0)
    case WriteOne(id, data, fault) => s.(host := OnWriteSector(n, id, data, fault).0)
    case CheckOne(req) => BeginCommit(w, s, req)
    case PutOne(call, now, busy) => PutCommit(s, call, now, busy)
    case PublishOne(call) => EndCommit(s, call)
    case Expire(id) => s.(host := ExpireTx(n, id))
    case Reopen(name) => s.(host := CutToSize(n, name))
    case Import(keys, bannedNames) => s.(host := n.(db := n.db.(keys := keys, bannedNames := bannedNames)))
  }

  function Run(w: World, s: NodeState, steps: seq<Step>): NodeState
    decreases |steps|
  {
    if steps == [] then s else Next(w, Run(w, s, steps[..|steps| - 1]), steps[|steps| - 1])
  }

  /** Database writes succeed. Sector writes and reads may fail in any way. */
  predicate WritesSucceed(step: Step) {
    step.Sync? ==> step.env.putFault == AllPut
  }

  // ---------------------------------------------------------------- what every run keeps

  predicate BlobSized(n: Host, name: string) {
    Sized(BlobOf(n, name).sectors)
  }

  predicate NameIndexed(n: Host, name: string) {
    Indexes(n.db, name, BlobOf(n, name).sectors)
  }

  predicate TxSound(n: Host, a: nat) {
    a < |n.txs| ==> !n.txs[a].tx.removed && (n.txs[a].tx.initialized ==> Sized(n.txs[a].tx.f))
  }

  /** A commit's table and tip are those of what it hashed, and once stored so is the database's entry. */
  predicate FlightSound(s: NodeState, call: nat) {
    call in s.flights ==>
      var n, f := s.host, s.flights[call];
      && call < s.calls && f.a < |n.txs| && f.name == n.txs[f.a].name
      && |f.content| == f.req.size <= MAX_SECTORS
      && f.hashes == Table(f.content) && f.req.tip == Fold(Zero, f.content)
      && (f.req.size > 0 ==> n.txs[f.a].tx.initialized)
      && (f.stored ==> Entered(n.db, f))
  }

  predicate Entered(db: Db, f: Flight) {
    && f.name in db.headers && f.name in db.tables
    && db.headers[f.name].size == f.req.size && db.headers[f.name].tip == f.req.tip && db.tables[f.name] == f.hashes
  }

  /** No two commits hold one name. */
  predicate OneHolder(s: NodeState, a: nat, b: nat, name: string) {
    Holds(s, a, name) && Holds(s, b, name) ==> a == b
  }

  ghost predicate Shape(s: NodeState) {
    && (forall name :: BlobSized(s.host, name))
    && (forall a :: TxSound(s.host, a))
    && (forall call :: FlightSound(s, call))
    && (forall a, b, name :: OneHolder(s, a, b, name))
    && s.host.db.count == |s.host.db.headers|
  }

  /** Transactions stay where they are, keep their names and do not lose their clone. */
  predicate TxsKept(n: Host, n': Host) {
    |n.txs| <= |n'.txs| && forall a :: 0 <= a < |n.txs| ==> TxKept(n, n', a)
  }

  predicate TxKept(n: Host, n': Host, a: nat)
    requires a < |n.txs| <= |n'.txs|
  {
    n'.txs[a].name == n.txs[a].name && (n.txs[a].tx.initialized ==> n'.txs[a].tx.initialized)
  }

  predicate SameEntry(db: Db, db': Db, name: string) {
    && (name in db'.headers <==> name in db.headers) && (name in db'.tables <==> name in db.tables)
    && (name in db.headers ==> db'.headers[name] == db.headers[name])
    && (name in db.tables ==> db'.tables[name] == db.tables[name])
  }

  /** A step that leaves the entries of locked names alone keeps every commit sound. */
  lemma FlightsKept(s: NodeState, n': Host)
    requires Shape(s) && TxsKept(s.host, n')
    requires forall name :: Locked(s, name) ==> SameEntry(s.host.db, n'.db, name)
    ensures forall call :: FlightSound(s.(host := n'), call)
    ensures forall a, b, name :: OneHolder(s.(host := n'), a, b, name)
  {
    var s' := s.(host := n');
    forall call: nat
      ensures FlightSound(s', call)
    {
      assert FlightSound(s, call);
      if call in s.flights {
        var f := s.flights[call];
        assert TxKept(s.host, n', f.a);
        if f.stored {
          assert Holds(s, call, f.name);
          assert Locked(s, f.name) && SameEntry(s.host.db, n'.db, f.name);
        }
      }
    }
    forall a: nat, b: nat, name: string
      ensures OneHolder(s', a, b, name)
    {
      assert OneHolder(s, a, b, name);
    }
  }

  /** Put the outcome of an update in place. */
  function Replaced(n: Host, name: string, a: After): Host {
    n.(db := a.db, blobs := n.blobs[name := a.base])
  }

  lemma ReplacedEffect(n: Host, name: string, a: After)
    requires Sized(a.base.sectors) && n.db.count == |n.db.headers|
    requires if a.out.Stored? then Indexed(n.db, a, name) else SameIndex(n.db, BlobOf(n, name), a)
    ensures var n' := Replaced(n, name, a);
            && n'.txs == n.txs && BlobSized(n', name)
            && (forall other :: other != name ==> BlobOf(n', other) == BlobOf(n, other) && SameEntry(n.db, n'.db, other))
            && n'.db.count == |n'.db.headers|
            && (NameIndexed(n, name) ==> NameIndexed(n', name))
  {
  }

  /** A sync keeps its name's index, and does nothing to the rest of the node. */
  lemma SyncEffect(w: World, n: Host, item: Item, opts: SyncOpts, reset: bool, env: Env)
    requires BlobSized(n, item.name) && env.putFault == AllPut && n.db.count == |n.db.headers|
    ensures var n' := SyncInto(w, n, item, opts, reset, env);
            && n'.txs == n.txs && BlobSized(n', item.name)
            && (forall name :: name != item.name ==> BlobOf(n', name) == BlobOf(n, name) && SameEntry(n.db, n'.db, name))
            && n'.db.count == |n'.db.headers|
            && (NameIndexed(n, item.name) ==> NameIndexed(n', item.name))
  {
    UpdateKeepsIndex(w, n.db, BlobOf(n, item.name), item, opts, reset, env);
    ReplacedEffect(n, item.name, Attempt(w, n.db, BlobOf(n, item.name), item, opts, reset, env));
  }

  /** One name that nobody has locked gets another entry and another blob. */
  lemma EntryShape(s: NodeState, n': Host, name: string)
    requires Shape(s) && !Locked(s, name) && n'.txs == s.host.txs && BlobSized(n', name)
    requires forall other :: other != name ==> BlobOf(n', other) == BlobOf(s.host, other) && SameEntry(s.host.db, n'.db, other)
    requires n'.db.count == |n'.db.headers|
    ensures Shape(s.(host := n'))
  {
    FlightsKept(s, n');
    forall other: string
      ensures BlobSized(n', other)
    {
      assert BlobSized(s.host, other);
    }
    forall a: nat
      ensures TxSound(n', a)
    {
      assert TxSound(s.host, a);
    }
  }

  lemma SyncShape(w: World, s: NodeState, step: Step)
    requires Shape(s) && step.Sync? && WritesSucceed(step)
    ensures Shape(Next(w, s, step))
  {
    if !Locked(s, step.item.name) {
      assert BlobSized(s.host, step.item.name);
      SyncEffect(w, s.host, step.item, step.opts, step.reset, step.env);
      EntryShape(s, SyncInto(w, s.host, step.item, step.opts, step.reset, step.env), step.item.name);
    }
  }

  /** The host changes, but neither the database's index nor any blob below its size. */
  lemma QuietShape(s: NodeState, n': Host)
    requires Shape(s) && TxsKept(s.host, n')
    requires n'.db.headers == s.host.db.headers && n'.db.tables == s.host.db.tables && n'.db.count == s.host.db.count
    requires forall name :: BlobSized(n', name)
    requires forall a :: TxSound(n', a)
    ensures Shape(s.(host := n'))
  {
    FlightsKept(s, n');
  }

  lemma CheckOutShape(w: World, s: NodeState, step: Step)
    requires Shape(s) && step.CheckOut?
    ensures Shape(Next(w, s, step))
  {
    var n, n' := s.host, OnCheckout(s.host, step.name, step.startOver, step.cur).0;
    forall name: string
      ensures BlobSized(n', name)
    {
      assert BlobSized(n, name);
    }
    forall a: nat
      ensures TxSound(n', a)
    {
      assert TxSound(n, a);
    }
    QuietShape(s, n');
  }

  /** Changing one transaction in a way that keeps it sound. */
  lemma SetTxShape(s: NodeState, a: nat, tx: Tx, store: map<nat, nat>)
    requires Shape(s) && a < |s.host.txs|
    requires !tx.removed && (tx.initialized ==> Sized(tx.f)) && (s.host.txs[a].tx.initialized ==> tx.initialized)
    ensures Shape(s.(host := SetTx(s.host, a, tx).(txStore := store)))
  {
    var n, n' := s.host, SetTx(s.host, a, tx).(txStore := store);
    forall name: string
      ensures BlobSized(n', name)
    {
      assert BlobSized(n, name);
    }
    forall b: nat
      ensures TxSound(n', b)
    {
      assert TxSound(n, b);
    }
    QuietShape(s, n');
  }

  lemma WriteShape(w: World, s: NodeState, step: Step)
    requires Shape(s) && step.WriteOne?
    ensures Shape(Next(w, s, step))
  {
    var n := s.host;
    if Known(n, step.id) {
      var a := n.txStore[step.id];
      assert TxSound(n, a) && BlobSized(n, n.txs[a].name);
      var r := WriteOp(n.txs[a].tx, BlobOf(n, n.txs[a].name), ToSector(step.data), step.fault);
      SetTxShape(s, a, r.tx, n.txStore);
    }
  }

  lemma ExpireShape(w: World, s: NodeState, step: Step)
    requires Shape(s) && step.Expire?
    ensures Shape(Next(w, s, step))
  {
    var n := s.host;
    if Known(n, step.id) {
      var a := n.txStore[step.id];
      assert TxSound(n, a);
      SetTxShape(s, a, RollbackOp(n.txs[a].tx).tx, n.txStore - {step.id});
    }
  }

  /** A commit that passes its checks has hashed what its transaction showed. */
  lemma CheckSound(w: World, n: Host, a: nat, req: CommitReq)
    requires a < |n.txs| && CheckAt(w, n, a, req).1.Some?
    ensures var (n', hashes) := CheckAt(w, n, a, req);
            var content := Take(ViewAt(n, a), req.size);
            && |content| == req.size <= MAX_SECTORS && hashes.value == Table(content) && req.tip == Fold(Zero, content)
            && (req.size > 0 ==> n'.txs[a].tx.initialized)
  {
    HashOpOk(n.txs[a].tx, BlobOf(n, n.txs[a].name), req.size, NO_FAULTS);
  }

  /** The check may clone the transaction's blob, and changes nothing else. */
  lemma CheckEffect(w: World, n: Host, a: nat, req: CommitReq)
    requires a < |n.txs|
    ensures var n' := CheckAt(w, n, a, req).0;
            && |n'.txs| == |n.txs| && n' == SetTx(n, a, n'.txs[a].tx)
            && (n'.txs[a].tx == n.txs[a].tx || n'.txs[a].tx == Init(n.txs[a].tx, BlobOf(n, n.txs[a].name)))
  {
    assert n == SetTx(n, a, n.txs[a].tx);
  }

  lemma CheckShape(w: World, s: NodeState, req: CommitReq)
    requires Shape(s)
    ensures Shape(BeginCommit(w, s, req))
  {
    var n := s.host;
    if Known(n, req.txID) {
      var a := n.txStore[req.txID];
      CheckedShape(w, s, a, req);
      var r := CheckAt(w, n, a, req);
      if r.1.Some? {
        CheckSound(w, n, a, req);
      }
      BegunShape(s.(host := r.0), Flight(n.txs[a].name, a, req, r.1.GetOr([]), Take(ViewAt(n, a), req.size), false), r.1.Some?);
    }
  }

  lemma CheckedShape(w: World, s: NodeState, a: nat, req: CommitReq)
    requires Shape(s) && a < |s.host.txs|
    ensures Shape(s.(host := CheckAt(w, s.host, a, req).0))
    ensures |CheckAt(w, s.host, a, req).0.txs| == |s.host.txs|
    ensures CheckAt(w, s.host, a, req).0.txs[a].name == s.host.txs[a].name
  {
    assert TxSound(s.host, a) && BlobSized(s.host, s.host.txs[a].name);
    CheckEffect(w, s.host, a, req);
    SetTxShape(s, a, CheckAt(w, s.host, a, req).0.txs[a].tx, s.host.txStore);
  }

  lemma BegunShape(s: NodeState, f: Flight, passed: bool)
    requires Shape(s) && !f.stored && f.a < |s.host.txs| && f.name == s.host.txs[f.a].name
    requires passed ==>
               && |f.content| == f.req.size <= MAX_SECTORS && f.req.tip == Fold(Zero, f.content)
               && f.hashes == Table(f.content) && (f.req.size > 0 ==> s.host.txs[f.a].tx.initialized)
    ensures Shape(Begun(s, f, passed))
  {
    var s' := Begun(s, f, passed);
    forall call: nat
      ensures FlightSound(s', call)
    {
      assert FlightSound(s, call);
    }
    forall k: nat, l: nat, name: string
      ensures OneHolder(s', k, l, name)
    {
      assert OneHolder(s, k, l, name);
    }
  }

  lemma DropFlightShape(s: NodeState, call: nat)
    requires Shape(s)
    ensures Shape(s.(flights := s.flights - {call}))
  {
    var s' := s.(flights := s.flights - {call});
    forall k: nat
      ensures FlightSound(s', k)
    {
      assert FlightSound(s, k);
    }
    forall a: nat, b: nat, name: string
      ensures OneHolder(s', a, b, name)
    {
      assert OneHolder(s, a, b, name);
    }
  }

  lemma PutEffect(n: Host, a: nat, req: CommitReq, hashes: seq<Hash>, now: Time)
    requires a < |n.txs| && n.db.count == |n.db.headers|
    ensures var n', name := PutAt(n, a, req, hashes, now, AllPut).0, n.txs[a].name;
            && n'.txs == n.txs && n'.blobs == n.blobs && n'.txStore == n.txStore
            && n'.db.headers == n.db.headers[name := CommitHeader(name, req, now)]
            && n'.db.tables == n.db.tables[name := hashes]
            && n'.db.count == |n'.db.headers|
  {
    CountFollows(n.db, CommitHeader(n.txs[a].name, req, now), hashes);
  }

  lemma PutShape(s: NodeState, call: nat, now: Time, busy: bool)
    requires Shape(s)
    ensures Shape(PutCommit(s, call, now, busy))
  {
    var n := s.host;
    if call in s.flights && !s.flights[call].stored {
      var f := s.flights[call];
      assert FlightSound(s, call);
      if busy || Locked(s, f.name) {
        DropFlightShape(s, call);
      } else {
        PutEffect(n, f.a, f.req, f.hashes, now);
        var n' := PutAt(n, f.a, f.req, f.hashes, now, AllPut).0;
        assert BlobSized(n, f.name) && BlobOf(n', f.name) == BlobOf(n, f.name);
        EntryShape(s, n', f.name);
        LockShape(s.(host := n'), call);
      }
    }
  }

  /** A commit that has entered its header for a name nobody holds takes the name. */
  lemma LockShape(s: NodeState, call: nat)
    requires Shape(s) && call in s.flights && !Locked(s, s.flights[call].name) && Entered(s.host.db, s.flights[call])
    ensures Shape(s.(flights := s.flights[call := s.flights[call].(stored := true)]))
  {
    var s' := s.(flights := s.flights[call := s.flights[call].(stored := true)]);
    forall k: nat
      ensures FlightSound(s', k)
    {
      assert FlightSound(s, k);
    }
    forall a: nat, b: nat, name: string
      ensures OneHolder(s', a, b, name)
    {
      assert OneHolder(s, a, b, name);
      assert Holds(s, a, name) ==> Locked(s, name);
      assert Holds(s, b, name) ==> Locked(s, name);
    }
  }

  /** Publishing closes the transaction if it was open, and then the blob starts with what it showed. */
  lemma PublishEffect(n: Host, a: nat, txID: nat)
    requires a < |n.txs| && TxSound(n, a) && BlobSized(n, n.txs[a].name)
    ensures var n', tx, name := PublishAt(n, a, txID).0, n.txs[a].tx, n.txs[a].name;
            && n'.db == n.db && |n'.txs| == |n.txs| && n'.txs == n.txs[a := Session(name, tx.(closed := true))]
            && BlobSized(n', name)
            && (forall other :: other != name ==> BlobOf(n', other) == BlobOf(n, other))
            && (if tx.closed then BlobOf(n', name) == BlobOf(n, name)
                else BlobOf(n', name).sectors[..MAX_SECTORS] == ViewAt(n, a)[..MAX_SECTORS])
  {
    var tx, base := n.txs[a].tx, BlobOf(n, n.txs[a].name);
    if !tx.closed && tx.initialized {
      CommitPublishesView(tx, base);
    }
  }

  lemma PublishShape(s: NodeState, call: nat)
    requires Shape(s)
    ensures Shape(EndCommit(s, call))
  {
    var n := s.host;
    if call in s.flights && s.flights[call].stored {
      var f := s.flights[call];
      assert FlightSound(s, call) && TxSound(n, f.a) && BlobSized(n, f.name);
      PublishEffect(n, f.a, f.req.txID);
      var n' := PublishAt(n, f.a, f.req.txID).0;
      forall name: string
        ensures BlobSized(n', name)
      {
        assert BlobSized(n, name);
      }
      forall a: nat
        ensures TxSound(n', a)
      {
        assert TxSound(n, a);
      }
      QuietShape(s, n');
      DropFlightShape(s.(host := n'), call);
    }
  }

  /** Steps that leave header entries alone and every blob at its size. */
  lemma OthersShape(w: World, s: NodeState, step: Step)
    requires Shape(s) && (step.ProofArrives? || step.Reopen? || step.Import?)
    ensures Shape(Next(w, s, step))
  {
    var n, n' := s.host, Next(w, s, step).host;
    forall name: string
      ensures BlobSized(n', name)
    {
      assert BlobSized(n, name);
    }
    forall a: nat
      ensures TxSound(n', a)
    {
      assert TxSound(n, a);
    }
    QuietShape(s, n');
  }

  lemma StepShape(w: World, s: NodeState, step: Step)
    requires Shape(s) && WritesSucceed(step)
    ensures Shape(Next(w, s, step))
  {
    match step
    case Sync(_, _, _, _) => SyncShape(w, s, step);
    case CheckOut(_, _, _) => CheckOutShape(w, s, step);
    case WriteOne(_, _, _) => WriteShape(w, s, step);
    case CheckOne(req) => CheckShape(w, s, req);
    case PutOne(call, now, busy) => PutShape(s, call, now, busy);
    case PublishOne(call) => PublishShape(s, call);
    case Expire(_) => ExpireShape(w, s, step);
    case _ => OthersShape(w, s, step);
  }
}
