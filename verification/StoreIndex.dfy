/**
 When the stored index agrees with the blob over whole runs. Handlers of one transaction
 are not serialised, so a commit can be undercut between its check and its publication;
 the agreement holds exactly as long as none is.
 */
module StoreIndex {
  import opened Basics
  import opened HashChain
  import BlobTx
  import opened HeaderStore
  import opened Publisher
  import opened PutFaults
  import opened StoreRuns

  /** The name's table and header index its blob, unless a commit is just between the two. */
  predicate IndexedOrLocked(s: NodeState, name: string) {
    Locked(s, name) || NameIndexed(s.host, name)
  }

  ghost predicate Agreed(s: NodeState) {
    forall name :: IndexedOrLocked(s, name)
  }

  /** What the blob holds once the commit has published: nothing new if its transaction is closed. */
  function Left(n: Host, f: Flight): seq<Sector>
    requires f.a < |n.txs|
  {
    if n.txs[f.a].tx.closed then BlobOf(n, f.name).sectors else ViewAt(n, f.a)
  }

  /** Publishing now would leave the content that was checked. */
  predicate Stands(n: Host, f: Flight) {
    f.a < |n.txs| && f.content <= Left(n, f)
  }

  /** The step publishes a commit that no longer stands. */
  predicate Stale(s: NodeState, step: Step) {
    step.PublishOne? && step.call in s.flights && s.flights[step.call].stored && !Stands(s.host, s.flights[step.call])
  }

  // ---------------------------------------------------------------- one step

  lemma PublishedPrefixIs(n: Host, n': Host, f: Flight)
    requires f.a < |n.txs| && f.name == n.txs[f.a].name && |f.content| <= MAX_SECTORS
    requires BlobSized(n, f.name) && BlobSized(n', f.name) && BlobTx.Sized(ViewAt(n, f.a))
    requires if n.txs[f.a].tx.closed then BlobOf(n', f.name) == BlobOf(n, f.name)
             else BlobOf(n', f.name).sectors[..MAX_SECTORS] == ViewAt(n, f.a)[..MAX_SECTORS]
    ensures BlobOf(n', f.name).sectors[..|f.content|] == f.content <==> Stands(n, f)
  {
    var file, k := BlobOf(n', f.name).sectors, |f.content|;
    assert file[..k] == file[..MAX_SECTORS][..k];
    assert Left(n, f)[..k] == Left(n, f)[..MAX_SECTORS][..k];
  }

  /** Publishing leaves the name indexed exactly when the commit still stands. */
  lemma PublishExact(s: NodeState, call: nat)
    requires Shape(s) && call in s.flights && s.flights[call].stored
    ensures NameIndexed(EndCommit(s, call).host, s.flights[call].name) <==> Stands(s.host, s.flights[call])
  {
    var n, f := s.host, s.flights[call];
    assert FlightSound(s, call) && TxSound(n, f.a) && BlobSized(n, f.name);
    PublishEffect(n, f.a, f.req.txID);
    var n' := PublishAt(n, f.a, f.req.txID).0;
    PublishedPrefixIs(n, n', f);
    TableInjective(BlobOf(n', f.name).sectors[..f.req.size], f.content);
  }

  lemma PublishAgreed(s: NodeState, call: nat)
    requires Shape(s) && Agreed(s) && call in s.flights && s.flights[call].stored
    ensures Agreed(EndCommit(s, call)) <==> Stands(s.host, s.flights[call])
  {
    var n, f, s' := s.host, s.flights[call], EndCommit(s, call);
    assert FlightSound(s, call) && TxSound(n, f.a) && BlobSized(n, f.name);
    PublishExact(s, call);
    PublishEffect(n, f.a, f.req.txID);
    forall name: string
      ensures name != f.name ==> IndexedOrLocked(s', name)
    {
      assert IndexedOrLocked(s, name);
      if name != f.name && Locked(s, name) {
        var k :| k in s.flights && Holds(s, k, name);
        assert Holds(s', k, name);
      }
    }
    forall k | k in s'.flights
      ensures !Holds(s', k, f.name)
    {
      assert OneHolder(s, k, call, f.name);
    }
    assert IndexedOrLocked(s', f.name) <==> NameIndexed(s'.host, f.name);
  }

  /** Entries, blobs and locks are as they were, except that more may be locked. */
  lemma SameAgreed(s: NodeState, s': NodeState)
    requires Agreed(s)
    requires s'.host.db.headers == s.host.db.headers && s'.host.db.tables == s.host.db.tables
    requires forall name :: BlobOf(s'.host, name) == BlobOf(s.host, name)
    requires forall call, name :: Holds(s, call, name) ==> Holds(s', call, name)
    ensures Agreed(s')
  {
    forall name: string
      ensures IndexedOrLocked(s', name)
    {
      assert IndexedOrLocked(s, name);
      if Locked(s, name) {
        var k :| k in s.flights && Holds(s, k, name);
        assert Holds(s', k, name);
      } else {
        assert BlobOf(s'.host, name) == BlobOf(s.host, name);
      }
    }
  }

  lemma PutAgreed(s: NodeState, call: nat, now: Time, busy: bool)
    requires Shape(s) && Agreed(s)
    ensures Agreed(PutCommit(s, call, now, busy))
  {
    var s' := PutCommit(s, call, now, busy);
    if call in s.flights && !s.flights[call].stored {
      var f := s.flights[call];
      assert FlightSound(s, call);
      if busy || Locked(s, f.name) {
        SameAgreed(s, s');
      } else {
        PutEffect(s.host, f.a, f.req, f.hashes, now);
        assert Holds(s', call, f.name);
        forall name: string
          ensures IndexedOrLocked(s', name)
        {
          assert IndexedOrLocked(s, name);
          if name != f.name && Locked(s, name) {
            var k :| k in s.flights && Holds(s, k, name);
            assert Holds(s', k, name);
          }
        }
      }
    }
  }

  lemma SyncAgreed(w: World, s: NodeState, step: Step)
    requires Shape(s) && Agreed(s) && step.Sync? && WritesSucceed(step)
    ensures Agreed(Next(w, s, step))
  {
    var n, item := s.host, step.item;
    if !Locked(s, item.name) {
      assert BlobSized(n, item.name) && IndexedOrLocked(s, item.name);
      SyncEffect(w, n, item, step.opts, step.reset, step.env);
      var n' := SyncInto(w, n, item, step.opts, step.reset, step.env);
      ReplacedAgreed(s, n', item.name);
    }
  }

  lemma ReplacedAgreed(s: NodeState, n': Host, name: string)
    requires Agreed(s) && NameIndexed(n', name)
    requires forall other :: other != name ==> BlobOf(n', other) == BlobOf(s.host, other) && SameEntry(s.host.db, n'.db, other)
    ensures Agreed(s.(host := n'))
  {
    var s' := s.(host := n');
    forall other: string
      ensures IndexedOrLocked(s', other)
    {
      assert IndexedOrLocked(s, other);
      if Locked(s, other) {
        var k :| k in s.flights && Holds(s, k, other);
        assert Holds(s', k, other);
      }
    }
  }

  lemma ReopenAgreed(s: NodeState, name: string)
    requires Agreed(s)
    ensures Agreed(s.(host := CutToSize(s.host, name)))
  {
    var s' := s.(host := CutToSize(s.host, name));
    forall other: string
      ensures IndexedOrLocked(s', other)
    {
      assert IndexedOrLocked(s, other);
      if Locked(s, other) {
        var k :| k in s.flights && Holds(s, k, other);
        assert Holds(s', k, other);
      } else if other == name && name in s.host.blobs && name in s.host.db.headers {
        var file, size := s.host.blobs[name].sectors, s.host.db.headers[name].size;
        assert file[..MAX_SECTORS][..size] == file[..size];
      }
    }
  }

  lemma CheckAgreed(w: World, s: NodeState, req: CommitReq)
    requires Shape(s) && Agreed(s)
    ensures Agreed(BeginCommit(w, s, req))
  {
    var s' := BeginCommit(w, s, req);
    if Known(s.host, req.txID) {
      CheckEffect(w, s.host, s.host.txStore[req.txID], req);
    }
    forall call: nat, name: string | Holds(s, call, name)
      ensures Holds(s', call, name)
    {
      assert FlightSound(s, call);
    }
    SameAgreed(s, s');
  }

  /** Steps that touch transactions, keys, bans or proofs only. */
  lemma OthersAgreed(w: World, s: NodeState, step: Step)
    requires Agreed(s)
    requires step.ProofArrives? || step.CheckOut? || step.WriteOne? || step.Expire? || step.Import?
    ensures Agreed(Next(w, s, step))
  {
    SameAgreed(s, Next(w, s, step));
  }

  /** One step keeps the agreement exactly when it is not a stale publication. */
  lemma StepAgreed(w: World, s: NodeState, step: Step)
    requires Shape(s) && Agreed(s) && WritesSucceed(step)
    ensures Agreed(Next(w, s, step)) <==> !Stale(s, step)
  {
    match step
    case Sync(_, _, _, _) => SyncAgreed(w, s, step);
    case PutOne(call, now, busy) => PutAgreed(s, call, now, busy);
    case PublishOne(call) =>
      if call in s.flights && s.flights[call].stored {
        PublishAgreed(s, call);
      }
    case CheckOne(req) => CheckAgreed(w, s, req);
    case Reopen(name) => ReopenAgreed(s, name);
    case _ => OthersAgreed(w, s, step);
  }

  // ---------------------------------------------------------------- whole runs

  predicate AllWritesSucceed(steps: seq<Step>) {
    forall i :: 0 <= i < |steps| ==> WritesSucceed(steps[i])
  }

  lemma {:induction false} RunShape(w: World, s: NodeState, steps: seq<Step>)
    requires Shape(s) && AllWritesSucceed(steps)
    ensures Shape(Run(w, s, steps))
    decreases |steps|
  {
    if steps != [] {
      RunShape(w, s, steps[..|steps| - 1]);
      StepShape(w, Run(w, s, steps[..|steps| - 1]), steps[|steps| - 1]);
    }
  }

  /** Every state the run goes through agrees. */
  ghost predicate AlwaysAgreed(w: World, s: NodeState, steps: seq<Step>) {
    Agreed(Run(w, s, steps)) && (steps == [] || AlwaysAgreed(w, s, steps[..|steps| - 1]))
  }

  predicate NeverStale(w: World, s: NodeState, steps: seq<Step>) {
    steps == [] ||
    (NeverStale(w, s, steps[..|steps| - 1]) && !Stale(Run(w, s, steps[..|steps| - 1]), steps[|steps| - 1]))
  }

  /**
   Store consistency over every interleaving of every handler: headers and tables index
   their blobs all through a run if and only if no commit is published that no longer stands.
   */
  lemma {:induction false} StoreConsistent(w: World, s: NodeState, steps: seq<Step>)
    requires Shape(s) && Agreed(s) && AllWritesSucceed(steps)
    ensures AlwaysAgreed(w, s, steps) <==> NeverStale(w, s, steps)
    decreases |steps|
  {
    if steps != [] {
      var front := steps[..|steps| - 1];
      StoreConsistent(w, s, front);
      if AlwaysAgreed(w, s, front) {
        RunShape(w, s, front);
        StepAgreed(w, Run(w, s, front), steps[|steps| - 1]);
      }
    }
  }

  // ---------------------------------------------------------------- database faults

  /**
   A local commit that still stands meets a database fault: the index survives in exactly the
   same cases. When the header is not stored nothing is rolled back, and the client may try again.
   */
  lemma CommitFaultsBreakIndex(n: Host, f: Flight, now: Time, fault: PutFault)
    requires f.a < |n.txs| && f.name == n.txs[f.a].name && NameIndexed(n, f.name)
    requires BlobTx.Open(n.txs[f.a].tx) && BlobTx.Sized(ViewAt(n, f.a)) && Stands(n, f)
    requires |f.content| == f.req.size <= MAX_SECTORS && f.req.tip == Fold(Zero, f.content)
    ensures var (n', ok) := StoreAt(n, f.a, f.req, Table(f.content), now, fault);
            && (NameIndexed(n', f.name)
                <==> Survives(n.db, f.name, fault, BlobOf(n, f.name).sectors, f.content, ViewAt(n, f.a)))
            && (!ok ==> n'.txs == n.txs && n'.txStore == n.txStore && n'.blobs == n.blobs)
  {
    var was, clone := BlobOf(n, f.name).sectors, ViewAt(n, f.a);
    SurvivesExactly(n.db, CommitHeader(f.name, f.req, now), was, f.content, clone, fault);
    assert clone == was ==> BlobTx.Overwrite(was, clone) == was;
  }

  // ---------------------------------------------------------------- how a commit comes to stand no longer

  /** The sector a write leaves at the cursor. */
  function SectorLeft(data: seq<Byte>, fault: BlobTx.WriteFault): Sector {
    if fault.TornWrite? then fault.left else ToSector(data)
  }

  /**
   A write to the commit's transaction below its size, with something else than was checked;
   or its transaction closed without it, or being closed, over a blob that starts differently.
   */
  predicate Disturbs(w: World, s: NodeState, step: Step, f: Flight)
    requires f.a < |s.host.txs|
  {
    var n, tx := s.host, s.host.txs[f.a].tx;
    match step
    case WriteOne(id, data, fault) =>
      && Known(n, id) && n.txStore[id] == f.a && !tx.closed
      && tx.cursor < |f.content| && SectorLeft(data, fault) != f.content[tx.cursor]
    case Expire(id) => Known(n, id) && n.txStore[id] == f.a && !tx.closed && !(f.content <= BlobOf(n, f.name).sectors)
    case Sync(item, opts, reset, env) =>
      && tx.closed && item.name == f.name && !Locked(s, f.name)
      && !(f.content <= BlobOf(SyncInto(w, n, item, opts, reset, env), f.name).sectors)
    case PublishOne(call) =>
      && tx.closed && Holds(s, call, f.name)
      && var g := s.flights[call]; g.a < |n.txs| && !n.txs[g.a].tx.closed && !(f.content <= ViewAt(n, g.a))
    case _ => false
  }

  lemma WriteLeaves(tx: BlobTx.Tx, base: BlobTx.File, data: seq<Byte>, fault: BlobTx.WriteFault, content: seq<Sector>)
    requires BlobTx.Open(tx) && content <= BlobTx.View(tx, base) && (content != [] ==> tx.initialized)
    ensures content <= BlobTx.View(BlobTx.WriteOp(tx, base, ToSector(data), fault).tx, base)
       <==> |content| <= tx.cursor || SectorLeft(data, fault) == content[tx.cursor]
  {
    var v := BlobTx.View(BlobTx.WriteOp(tx, base, ToSector(data), fault).tx, base);
    if content != [] {
      assert forall j :: 0 <= j < |content| && j != tx.cursor ==> v[j] == content[j];
      assert tx.cursor < |content| ==> v[tx.cursor] == SectorLeft(data, fault);
    }
  }

  lemma SamePrefix(content: seq<Sector>, a: seq<Sector>, b: seq<Sector>, n: nat)
    requires |content| <= n <= |a| && n <= |b| && a[..n] == b[..n]
    ensures content <= a <==> content <= b
  {
    assert a[..|content|] == a[..n][..|content|] && b[..|content|] == b[..n][..|content|];
  }

  lemma PublishStands(s: NodeState, call: nat, k: nat)
    requires Shape(s) && call in s.flights && Stands(s.host, s.flights[call])
    requires k in s.flights && s.flights[k].stored
    ensures var f, g, n := s.flights[call], s.flights[k], s.host;
            && f.a < |n.txs| && g.a < |n.txs|
            && (Stands(EndCommit(s, k).host, f)
                <==> !(n.txs[f.a].tx.closed && g.name == f.name && !n.txs[g.a].tx.closed && !(f.content <= ViewAt(n, g.a))))
  {
    var f, g, n := s.flights[call], s.flights[k], s.host;
    assert FlightSound(s, call) && TxSound(n, f.a) && BlobSized(n, f.name);
    assert FlightSound(s, k) && TxSound(n, g.a) && BlobSized(n, g.name);
    PublishEffect(n, g.a, g.req.txID);
    var n' := PublishAt(n, g.a, g.req.txID).0;
    if g.name == f.name && !n.txs[g.a].tx.closed {
      SamePrefix(f.content, BlobOf(n', f.name).sectors, ViewAt(n, g.a), MAX_SECTORS);
    }
  }

  lemma WriteStands(n: Host, f: Flight, id: nat, data: seq<Byte>, fault: BlobTx.WriteFault)
    requires Stands(n, f) && f.name == n.txs[f.a].name && TxSound(n, f.a) && (f.content != [] ==> n.txs[f.a].tx.initialized)
    ensures Stands(OnWriteSector(n, id, data, fault).0, f)
       <==> !(&& Known(n, id) && n.txStore[id] == f.a && !n.txs[f.a].tx.closed
              && n.txs[f.a].tx.cursor < |f.content| && SectorLeft(data, fault) != f.content[n.txs[f.a].tx.cursor])
  {
    if Known(n, id) && n.txStore[id] == f.a && !n.txs[f.a].tx.closed {
      WriteLeaves(n.txs[f.a].tx, BlobOf(n, f.name), data, fault, f.content);
    }
  }

  lemma ExpireStands(n: Host, f: Flight, id: nat)
    requires Stands(n, f) && f.name == n.txs[f.a].name
    ensures Stands(ExpireTx(n, id), f)
       <==> !(Known(n, id) && n.txStore[id] == f.a && !n.txs[f.a].tx.closed && !(f.content <= BlobOf(n, f.name).sectors))
  {
  }

  lemma CheckStands(w: World, s: NodeState, f: Flight, req: CommitReq)
    requires Stands(s.host, f) && f.name == s.host.txs[f.a].name
    ensures Stands(BeginCommit(w, s, req).host, f)
  {
    if Known(s.host, req.txID) {
      CheckEffect(w, s.host, s.host.txStore[req.txID], req);
    }
  }

  lemma ReopenStands(n: Host, f: Flight, name: string)
    requires Stands(n, f) && f.name == n.txs[f.a].name && |f.content| <= MAX_SECTORS
    requires BlobSized(n, f.name) && (f.content != [] ==> n.txs[f.a].tx.initialized)
    ensures Stands(CutToSize(n, name), f)
  {
    var file := BlobOf(n, f.name).sectors;
    SamePrefix(f.content, file, file[..MAX_SECTORS], MAX_SECTORS);
  }

  /** Another blob under a name: only closed commits of that name notice. */
  lemma ReplacedStands(n: Host, n': Host, f: Flight, name: string)
    requires Stands(n, f) && f.name == n.txs[f.a].name && (f.content != [] ==> n.txs[f.a].tx.initialized)
    requires n'.txs == n.txs && forall other :: other != name ==> BlobOf(n', other) == BlobOf(n, other)
    ensures Stands(n', f) <==> !(n.txs[f.a].tx.closed && name == f.name && !(f.content <= BlobOf(n', f.name).sectors))
  {
    assert f.name != name ==> BlobOf(n', f.name) == BlobOf(n, f.name);
  }

  lemma CheckOutStands(n: Host, f: Flight, name: string, startOver: bool, cur: U16)
    requires Stands(n, f) && f.name == n.txs[f.a].name
    ensures Stands(OnCheckout(n, name, startOver, cur).0, f)
  {
  }

  lemma SyncStands(w: World, s: NodeState, f: Flight, step: Step)
    requires Shape(s) && step.Sync? && WritesSucceed(step) && Stands(s.host, f) && f.name == s.host.txs[f.a].name
    requires f.content != [] ==> s.host.txs[f.a].tx.initialized
    ensures Stands(Next(w, s, step).host, f) <==> !Disturbs(w, s, step, f)
  {
    if !Locked(s, step.item.name) {
      assert BlobSized(s.host, step.item.name);
      SyncEffect(w, s.host, step.item, step.opts, step.reset, step.env);
      ReplacedStands(s.host, SyncInto(w, s.host, step.item, step.opts, step.reset, step.env), f, step.item.name);
    }
  }

  /** A commit under way stops standing at exactly those steps. */
  lemma StandsUnlessDisturbed(w: World, s: NodeState, step: Step, call: nat)
    requires Shape(s) && WritesSucceed(step) && call in s.flights && Stands(s.host, s.flights[call])
    requires call in Next(w, s, step).flights
    ensures Stands(Next(w, s, step).host, s.flights[call]) <==> !Disturbs(w, s, step, s.flights[call])
  {
    var n, f := s.host, s.flights[call];
    assert FlightSound(s, call) && TxSound(n, f.a) && BlobSized(n, f.name);
    match step
    case Sync(_, _, _, _) => SyncStands(w, s, f, step);
    case CheckOut(name, startOver, cur) => CheckOutStands(n, f, name, startOver, cur);
    case WriteOne(id, data, fault) => WriteStands(n, f, id, data, fault);
    case CheckOne(req) => CheckStands(w, s, f, req);
    case Expire(id) => ExpireStands(n, f, id);
    case PublishOne(k) =>
      if k in s.flights && s.flights[k].stored {
        PublishStands(s, call, k);
      }
    case Reopen(name) => ReopenStands(n, f, name);
    case _ =>
  }

  // ---------------------------------------------------------------- careful clients

  /** Clients commit no more than they have written, and stop before the 16-bit cursor wraps. */
  predicate Careful(n: Host, step: Step) {
    match step
    case CheckOne(req) => Known(n, req.txID) ==> req.size <= SessionOf(n, req.txID).tx.cursor
    case WriteOne(id, _, _) => Known(n, id) ==> SessionOf(n, id).tx.cursor < 65535
    case _ => true
  }

  /** The commit lies below its transaction's cursor, out of reach of further writes. */
  predicate Covered(s: NodeState, call: nat) {
    call in s.flights ==>
      var n, f := s.host, s.flights[call];
      && f.a < |n.txs| && |f.content| <= n.txs[f.a].tx.cursor
      && (!n.txs[f.a].tx.closed ==> f.content <= ViewAt(n, f.a))
  }

  ghost predicate AllCovered(s: NodeState) {
    forall call :: Covered(s, call)
  }

  /** Transactions keep or advance their cursors and are not reopened. */
  predicate Onward(n: Host, n': Host, a: nat)
    requires a < |n.txs| <= |n'.txs|
  {
    n.txs[a].tx.cursor <= n'.txs[a].tx.cursor && (n.txs[a].tx.closed ==> n'.txs[a].tx.closed)
  }

  lemma StepOnward(w: World, s: NodeState, step: Step, a: nat)
    requires a < |s.host.txs| && Careful(s.host, step)
    ensures |s.host.txs| <= |Next(w, s, step).host.txs| && Onward(s.host, Next(w, s, step).host, a)
  {
    if step.CheckOne? && Known(s.host, step.req.txID) {
      CheckEffect(w, s.host, s.host.txStore[step.req.txID], step.req);
    }
  }

  lemma OpenCommitStands(s: NodeState, call: nat)
    requires Covered(s, call) && call in s.flights && !s.host.txs[s.flights[call].a].tx.closed
    ensures Stands(s.host, s.flights[call])
  {
  }

  /** An open transaction loses nothing below its cursor, whatever else happens. */
  lemma CoveredKept(w: World, s: NodeState, step: Step, call: nat)
    requires Shape(s) && WritesSucceed(step) && Careful(s.host, step) && Covered(s, call) && call in s.flights
    requires call in Next(w, s, step).flights && Next(w, s, step).flights[call].content == s.flights[call].content
    requires Next(w, s, step).flights[call].a == s.flights[call].a
    ensures Covered(Next(w, s, step), call)
  {
    var n, n', f := s.host, Next(w, s, step).host, s.flights[call];
    StepOnward(w, s, step, f.a);
    if !n'.txs[f.a].tx.closed {
      OpenCommitStands(s, call);
      StandsUnlessDisturbed(w, s, step, call);
      assert !Disturbs(w, s, step, f);
    }
  }

  lemma NewCovered(w: World, s: NodeState, req: CommitReq)
    requires Shape(s) && Careful(s.host, CheckOne(req))
    ensures Covered(BeginCommit(w, s, req), s.calls)
  {
    var n := s.host;
    if Known(n, req.txID) && CheckAt(w, n, n.txStore[req.txID], req).1.Some? {
      CheckEffect(w, n, n.txStore[req.txID], req);
      CheckSound(w, n, n.txStore[req.txID], req);
    } else {
      assert FlightSound(s, s.calls);
    }
  }

  /** Which commits are under way changes only by adding the one just checked or dropping one. */
  lemma FlightsAfter(w: World, s: NodeState, step: Step, call: nat)
    requires Shape(s) && call in Next(w, s, step).flights
    ensures call !in s.flights ==> step.CheckOne? && call == s.calls
    ensures call in s.flights ==>
              && Next(w, s, step).flights[call].a == s.flights[call].a
              && Next(w, s, step).flights[call].content == s.flights[call].content
  {
    assert FlightSound(s, s.calls);
  }

  lemma StepCovered(w: World, s: NodeState, step: Step)
    requires Shape(s) && AllCovered(s) && WritesSucceed(step) && Careful(s.host, step)
    ensures AllCovered(Next(w, s, step))
  {
    forall call: nat
      ensures Covered(Next(w, s, step), call)
    {
      if call in Next(w, s, step).flights {
        FlightsAfter(w, s, step, call);
        assert FlightSound(s, s.calls);
        if call in s.flights {
          assert Covered(s, call);
          CoveredKept(w, s, step, call);
        } else {
          NewCovered(w, s, step.req);
        }
      }
    }
  }

  /** The step publishes a commit whose transaction has been closed, over a blob that starts differently. */
  predicate Late(s: NodeState, step: Step) {
    && step.PublishOne? && step.call in s.flights && s.flights[step.call].stored
    && var f := s.flights[step.call];
       f.a < |s.host.txs| && s.host.txs[f.a].tx.closed && !(f.content <= BlobOf(s.host, f.name).sectors)
  }

  predicate AllCareful(w: World, s: NodeState, steps: seq<Step>) {
    steps == [] ||
    (AllCareful(w, s, steps[..|steps| - 1]) && Careful(Run(w, s, steps[..|steps| - 1]).host, steps[|steps| - 1]))
  }

  predicate NeverLate(w: World, s: NodeState, steps: seq<Step>) {
    steps == [] ||
    (NeverLate(w, s, steps[..|steps| - 1]) && !Late(Run(w, s, steps[..|steps| - 1]), steps[|steps| - 1]))
  }

  lemma {:induction false} RunCovered(w: World, s: NodeState, steps: seq<Step>)
    requires Shape(s) && AllCovered(s) && AllWritesSucceed(steps) && AllCareful(w, s, steps)
    ensures AllCovered(Run(w, s, steps)) && (NeverStale(w, s, steps) <==> NeverLate(w, s, steps))
    decreases |steps|
  {
    if steps != [] {
      var front, step := steps[..|steps| - 1], steps[|steps| - 1];
      RunCovered(w, s, front);
      RunShape(w, s, front);
      var s1 := Run(w, s, front);
      StepCovered(w, s1, step);
      if step.PublishOne? {
        assert Covered(s1, step.call) && FlightSound(s1, step.call);
      }
    }
  }

  /**
   Clients that commit no more than they have written may race with their own commits,
   commit twice and interleave with everything else: the index agrees all through the run
   if and only if no commit is published after its transaction expired over another blob.
   */
  lemma CarefulRunsConsistent(w: World, s: NodeState, steps: seq<Step>)
    requires Shape(s) && Agreed(s) && AllCovered(s) && AllWritesSucceed(steps) && AllCareful(w, s, steps)
    ensures AlwaysAgreed(w, s, steps) <==> NeverLate(w, s, steps)
  {
    StoreConsistent(w, s, steps);
    RunCovered(w, s, steps);
  }
}
