/**
 Runs from an empty node that cost an honest client its commit: another session publishes
 first, another commit holds the name, or the client writes more sectors than it can count.
 */
module SessionRaces {
  import opened Basics
  import opened HashChain
  import BlobTx
  import opened HeaderStore
  import opened Publisher
  import opened StoreRuns
  import opened StoreIndex
  import opened StoreRaces
  import opened SessionRuns

  /** One session holding `x` at its start, among no commits under way. */
  ghost predicate HasFirst(s: NodeState, o: Owner, id: nat, x: Sector) {
    && Shape(s) && s.flights == map[] && Known(s.host, id)
    && var session := SessionOf(s.host, id);
       && session.name == NAME && NAME in s.host.db.keys && s.host.db.keys[NAME] == o.key && BlobTx.Open(session.tx)
       && session.tx.initialized && [x] <= session.tx.f
  }

  /** The three steps of committing that one sector. */
  function CommitSteps(o: Owner, id: nat, epoch: U16, x: Sector, call: nat, now: Time): seq<Step> {
    [CheckOne(OneSector(o, id, epoch, x)), PutOne(call, now, false)] + [PublishOne(call)]
  }

  lemma OneChecked(w: World, o: Owner, s: NodeState, id: nat, epoch: U16, x: Sector)
    requires Signs(w, o) && HasFirst(s, o, id, x)
    ensures var req, a := OneSector(o, id, epoch, x), s.host.txStore[id];
            Next(w, s, CheckOne(req))
            == NodeState(s.host, map[s.calls := Flight(NAME, a, req, Table([x]), [x], false)], s.calls + 1)
  {
    var req, a := OneSector(o, id, epoch, x), s.host.txStore[id];
    assert TxSound(s.host, a);
    var view := ViewAt(s.host, a);
    assert view[..1] == [x];
    TipOfTable([x]);
    assert [x][..0] == [] && Fold(Zero, [x]) == Node(Zero, x);
    assert SetTx(s.host, a, s.host.txs[a].tx) == s.host;
    assert CheckAt(w, s.host, a, req) == (s.host, Some(Table([x])));
  }

  /** The commit has stored its header and holds the name; nothing else has moved. */
  predicate OneEntered(o: Owner, s: NodeState, s': NodeState, id: nat, epoch: U16, x: Sector, now: Time) {
    && Known(s.host, id)
    && s'.flights == map[s.calls := Flight(NAME, s.host.txStore[id], OneSector(o, id, epoch, x), Table([x]), [x], true)]
    && s'.calls == s.calls + 1 && s'.host == s.host.(db := s'.host.db) && s'.host.db.keys == s.host.db.keys
    && s'.host.db.headers == s.host.db.headers[NAME := CommitHeader(NAME, OneSector(o, id, epoch, x), now)]
  }

  lemma PutAlone(w: World, s: NodeState, call: nat, f: Flight, now: Time)
    requires Shape(s) && s.flights == map[call := f] && !f.stored
    ensures var s' := Next(w, s, PutOne(call, now, false));
            && Shape(s') && s'.flights == map[call := f.(stored := true)] && s'.calls == s.calls
            && s'.host == s.host.(db := s'.host.db) && s'.host.db.keys == s.host.db.keys
            && s'.host.db.headers == s.host.db.headers[f.name := CommitHeader(f.name, f.req, now)]
  {
    assert FlightSound(s, call);
    assert forall k, name :: !Holds(s, k, name);
    StepShape(w, s, PutOne(call, now, false));
    PutEffect(s.host, f.a, f.req, f.hashes, now);
  }

  lemma OnePut(w: World, o: Owner, s: NodeState, id: nat, epoch: U16, x: Sector, now: Time)
    requires Signs(w, o) && HasFirst(s, o, id, x)
    ensures var req := OneSector(o, id, epoch, x);
            var s' := Next(w, Next(w, s, CheckOne(req)), PutOne(s.calls, now, false));
            Shape(s') && OneEntered(o, s, s', id, epoch, x, now)
  {
    var req := OneSector(o, id, epoch, x);
    OneChecked(w, o, s, id, epoch, x);
    StepShape(w, s, CheckOne(req));
    PutAlone(w, Next(w, s, CheckOne(req)), s.calls, Flight(NAME, s.host.txStore[id], req, Table([x]), [x], false), now);
  }

  /** The commit is over: its sector is published under its header and its transaction closed. */
  ghost predicate OneDone(o: Owner, s: NodeState, s': NodeState, id: nat, epoch: U16, x: Sector, now: Time) {
    && Known(s.host, id) && Shape(s') && s'.flights == map[] && s'.calls == s.calls + 1
    && s'.host.db.keys == s.host.db.keys && s'.host.lastTxID == s.host.lastTxID
    && s'.host.txStore == s.host.txStore - {id}
    && s'.host.txs == s.host.txs[s.host.txStore[id] := Session(NAME, SessionOf(s.host, id).tx.(closed := true))]
    && NAME in s'.host.db.headers
    && s'.host.db.headers[NAME] == CommitHeader(NAME, OneSector(o, id, epoch, x), now)
    && [x] <= BlobOf(s'.host, NAME).sectors
  }

  lemma OnePublished(w: World, o: Owner, s: NodeState, s2: NodeState, id: nat, epoch: U16, x: Sector, now: Time)
    requires HasFirst(s, o, id, x) && Shape(s2) && OneEntered(o, s, s2, id, epoch, x, now)
    ensures OneDone(o, s, Next(w, s2, PublishOne(s.calls)), id, epoch, x, now)
  {
    var n, a := s2.host, s.host.txStore[id];
    assert TxSound(n, a) && BlobSized(n, NAME);
    StepShape(w, s2, PublishOne(s.calls));
    PublishEffect(n, a, id);
    var file := BlobOf(PublishAt(n, a, id).0, NAME).sectors;
    StoreIndex.SamePrefix([x], file, n.txs[a].tx.f, MAX_SECTORS);
  }

  lemma OneCommitted(w: World, o: Owner, s: NodeState, id: nat, epoch: U16, x: Sector, now: Time)
    requires Signs(w, o) && HasFirst(s, o, id, x)
    ensures OneDone(o, s, Run(w, s, CommitSteps(o, id, epoch, x, s.calls, now)), id, epoch, x, now)
  {
    var check, put := CheckOne(OneSector(o, id, epoch, x)), PutOne(s.calls, now, false);
    RunAppend(w, s, [check, put], [PublishOne(s.calls)]);
    RunTwo(w, s, check, put);
    assert [PublishOne(s.calls)][..0] == [];
    OnePut(w, o, s, id, epoch, x, now);
    OnePublished(w, o, s, Run(w, s, [check, put]), id, epoch, x, now);
  }

  /** After the first commit: the blob starts with the ones, under a header of epoch zero. */
  ghost predicate OnesPublished(s: NodeState, o: Owner) {
    && Shape(s) && s.flights == map[] && s.calls == 1 && s.host.lastTxID == 1
    && |s.host.txs| == 1 && s.host.txStore == map[]
    && NAME in s.host.db.keys && s.host.db.keys[NAME] == o.key && NAME in s.host.db.headers
    && [ToSector(Ones())] <= BlobOf(s.host, NAME).sectors
    && var h := s.host.db.headers[NAME];
       h.epoch == 0 && h.size == 1 && h.tip == Node(Zero, ToSector(Ones()))
  }

  /** A session that writes the ones and commits them. */
  function FirstCommit(o: Owner, now: Time): seq<Step> {
    Prelude(o.key) + ([WriteOne(1, Ones(), BlobTx.NoFault)] + CommitSteps(o, 1, 0, ToSector(Ones()), 0, now))
  }

  /** Then one session goes on from them, and another starts the blob over. */
  function Sessions(): seq<Step> {
    [CheckOut(NAME, false, 0), CheckOut(NAME, true, 0)]
  }

  lemma OnesReached(w: World, o: Owner, now: Time)
    requires Signs(w, o)
    ensures OnesPublished(Run(w, EMPTY, FirstCommit(o, now)), o)
  {
    var write := WriteOne(1, Ones(), BlobTx.NoFault);
    var commit := CommitSteps(o, 1, 0, ToSector(Ones()), 0, now);
    PreludeReaches(w, o.key);
    RunAppend(w, EMPTY, Prelude(o.key), [write] + commit);
    RunAppend(w, Opened(o.key), [write], commit);
    assert [write][..0] == [];
    var s := Next(w, Opened(o.key), write);
    StepShape(w, Opened(o.key), write);
    assert HasFirst(s, o, 1, ToSector(Ones()));
    OneCommitted(w, o, s, 1, 0, ToSector(Ones()), now);
  }

  /** The client that checked the ones out, and has written nothing since. */
  function OnesClient(): Writer {
    Writer(2, 0, 1, Node(Zero, ToSector(Ones())), true, false)
  }

  /** A session goes on from the ones, in step with the server. */
  lemma GoesOn(w: World, o: Owner, s: NodeState)
    requires OnesPublished(s, o)
    ensures OnCheckout(s.host, NAME, false, 0).1 == Some(CheckoutRes(2, 0, 1, Node(Zero, ToSector(Ones()))))
    ensures var s' := Next(w, s, CheckOut(NAME, false, 0));
            && BlobOf(s'.host, NAME) == BlobOf(s.host, NAME)
            && s' == s.(host := s.host.(
                          blobs := s'.host.blobs, lastTxID := 2, txStore := map[2 := 1],
                          txs := s.host.txs + [Session(NAME, BlobTx.FRESH.(cursor := 1))]))
            && Shape(s') && Lockstep(OnesClient(), s'.host, [ToSector(Ones())])
  {
    StepShape(w, s, CheckOut(NAME, false, 0));
    assert BlobSized(s.host, NAME);
    assert [ToSector(Ones())][..0] == [];
  }

  /** Another one starts the blob over. */
  lemma StartsOver(w: World, s: NodeState)
    requires Shape(s) && s.host.lastTxID == 2 && NAME in s.host.db.headers && s.host.db.headers[NAME].epoch == 0
    ensures var s' := Next(w, s, CheckOut(NAME, true, 0));
            && BlobOf(s'.host, NAME) == BlobOf(s.host, NAME)
            && s' == s.(host := s.host.(
                          blobs := s'.host.blobs, lastTxID := 3, txStore := s.host.txStore[3 := |s.host.txs|],
                          txs := s.host.txs + [Session(NAME, BlobTx.Tx(Zeros(MAX_SECTORS), 0, true, false, false))]))
            && Shape(s')
  {
    StepShape(w, s, CheckOut(NAME, true, 0));
  }

  /** The client's session has no copy yet, and the third has just started over. */
  ghost predicate TwoOpen(s: NodeState, o: Owner) {
    && Shape(s) && s.flights == map[] && NAME in s.host.db.keys && s.host.db.keys[NAME] == o.key
    && s.host.txStore == map[2 := 1, 3 := 2] && |s.host.txs| == 3
    && [ToSector(Ones())] <= BlobOf(s.host, NAME).sectors
    && s.host.txs[1] == Session(NAME, BlobTx.FRESH.(cursor := 1))
    && s.host.txs[2] == Session(NAME, BlobTx.Tx(Zeros(MAX_SECTORS), 0, true, false, false))
  }

  lemma TwoSessions(w: World, o: Owner, s: NodeState)
    requires OnesPublished(s, o)
    ensures var s' := Run(w, s, Sessions()); TwoOpen(s', o) && s'.calls == 1
  {
    RunTwo(w, s, CheckOut(NAME, false, 0), CheckOut(NAME, true, 0));
    GoesOn(w, o, s);
    StartsOver(w, Next(w, s, CheckOut(NAME, false, 0)));
  }

  lemma ZeroWritten(w: World, o: Owner, s: NodeState)
    requires TwoOpen(s, o)
    ensures var s' := Next(w, s, WriteOne(3, [], BlobTx.NoFault));
            && HasFirst(s', o, 3, ZeroSector()) && s'.host.txStore == s.host.txStore && s'.calls == s.calls
            && |s'.host.txs| == 3 && s'.host.txs[1] == s.host.txs[1] && s'.host.blobs == s.host.blobs
  {
    StepShape(w, s, WriteOne(3, [], BlobTx.NoFault));
    assert ToSector([]) == ZeroSector();
  }

  lemma CopyAstray(n: Host)
    requires 2 in n.txStore && n.txStore[2] == 1 && |n.txs| == 3 && n.txs[1] == Session(NAME, BlobTx.FRESH.(cursor := 1))
    requires BlobSized(n, NAME) && [ZeroSector()] <= BlobOf(n, NAME).sectors
    ensures Astray(OnesClient(), n, [ToSector(Ones())], 1)
  {
    assert ToSector(Ones())[0] == 1 && ZeroSector()[0] == 0 && [ToSector(Ones())][..0] == [];
    assert ViewOf(n, 2)[..1][0] == ZeroSector();
  }

  /** Starting over publishes a zero sector; the client's copy, made now, would start with that. */
  lemma ClientAstray(w: World, o: Owner, s: NodeState, now: Time)
    requires Signs(w, o) && TwoOpen(s, o)
    ensures var s' := Run(w, s, [WriteOne(3, [], BlobTx.NoFault)] + CommitSteps(o, 3, 1, ZeroSector(), s.calls, now));
            Astray(OnesClient(), s'.host, [ToSector(Ones())], 1)
  {
    var write := WriteOne(3, [], BlobTx.NoFault);
    RunAppend(w, s, [write], CommitSteps(o, 3, 1, ZeroSector(), s.calls, now));
    assert [write][..0] == [];
    var s1 := Next(w, s, write);
    ZeroWritten(w, o, s);
    OneCommitted(w, o, s1, 3, 1, ZeroSector(), now);
    var n := Run(w, s1, CommitSteps(o, 3, 1, ZeroSector(), s.calls, now)).host;
    assert BlobSized(n, NAME);
    CopyAstray(n);
  }

  /**
   A run from the empty node in which an honest client is refused: it checks the blob out,
   another session publishes a new start before the client's first write, and whatever the
   client signs and writes from then on, its commit does not pass.
   */
  lemma HonestCommitRefused(w: World, o: Owner, now: Time, data: seq<Byte>, sig': Signature)
    requires Signs(w, o)
    ensures var second := [WriteOne(3, [], BlobTx.NoFault)] + CommitSteps(o, 3, 1, ZeroSector(), 1, now);
            var s := Run(w, EMPTY, FirstCommit(o, now) + (Sessions() + second));
            var (c, n, ok) := ClientWrite(OnesClient(), s.host, data, BlobTx.NoFault);
            && Lockstep(OnesClient(), Next(w, Run(w, EMPTY, FirstCommit(o, now)), CheckOut(NAME, false, 0)).host, [ToSector(Ones())])
            && ok && !OnCommit(w, n, HonestReq(c, sig'), now, AllPut, false).1
            && !OnCommit(w, s.host, HonestReq(OnesClient(), sig'), now, AllPut, false).1
  {
    var second := [WriteOne(3, [], BlobTx.NoFault)] + CommitSteps(o, 3, 1, ZeroSector(), 1, now);
    OnesReached(w, o, now);
    RunAppend(w, EMPTY, FirstCommit(o, now), Sessions() + second);
    var s1 := Run(w, EMPTY, FirstCommit(o, now));
    RunAppend(w, s1, Sessions(), second);
    GoesOn(w, o, s1);
    TwoSessions(w, o, s1);
    ClientAstray(w, o, Run(w, s1, Sessions()), now);
    var n := Run(w, EMPTY, FirstCommit(o, now) + (Sessions() + second)).host;
    AstrayRefused(w, OnesClient(), n, [ToSector(Ones())], 1, sig', now, false);
    WriteStaysAstray(OnesClient(), n, [ToSector(Ones())], 1, data, BlobTx.NoFault);
    var (c, n', ok) := ClientWrite(OnesClient(), n, data, BlobTx.NoFault);
    AstrayRefused(w, c, n', [ToSector(Ones())] + [ToSector(data)], 1, sig', now, false);
  }

  // ---------------------------------------------------------------- a busy name

  /** The other session's commit has stored its header and not yet published its blob. */
  function HalfCommit(o: Owner, now: Time): seq<Step> {
    [WriteOne(3, [], BlobTx.NoFault)] + [CheckOne(OneSector(o, 3, 1, ZeroSector())), PutOne(1, now, false)]
  }

  lemma HalfCommitted(w: World, o: Owner, s: NodeState, now: Time)
    requires Signs(w, o) && TwoOpen(s, o) && s.calls == 1
    ensures var s' := Run(w, s, HalfCommit(o, now));
            && Shape(s') && Locked(s', NAME) && NAME in s'.host.db.keys && s'.host.db.keys[NAME] == o.key
            && s'.host.txStore == s.host.txStore && |s'.host.txs| == 3 && s'.host.txs[1] == s.host.txs[1]
            && BlobOf(s'.host, NAME) == BlobOf(s.host, NAME)
  {
    var write := WriteOne(3, [], BlobTx.NoFault);
    var check, put := CheckOne(OneSector(o, 3, 1, ZeroSector())), PutOne(1, now, false);
    RunAppend(w, s, [write], [check, put]);
    assert [write][..0] == [];
    var s1 := Next(w, s, write);
    ZeroWritten(w, o, s);
    RunTwo(w, s1, check, put);
    OnePut(w, o, s1, 3, 1, ZeroSector(), now);
    assert Holds(Run(w, s, HalfCommit(o, now)), 1, NAME);
  }

  /**
   A run from the empty node that leaves a client in step with the server and its commit
   refused all the same: another commit holds the name. On a free name it would pass.
   */
  lemma BusyNameRefused(w: World, o: Owner, now: Time)
    requires Signs(w, o)
    ensures var s := Run(w, EMPTY, FirstCommit(o, now) + (Sessions() + HalfCommit(o, now)));
            var req := HonestReq(OnesClient(), o.sign(Seal(NAME, 0, 1, OnesClient().tip, Zero)));
            && Lockstep(OnesClient(), s.host, [ToSector(Ones())]) && Busy(s, NAME, false)
            && !OnCommit(w, s.host, req, now, AllPut, Busy(s, NAME, false)).1
            && OnCommit(w, s.host, req, now, AllPut, false).1
  {
    OnesReached(w, o, now);
    var s1 := Run(w, EMPTY, FirstCommit(o, now));
    RunAppend(w, EMPTY, FirstCommit(o, now), Sessions() + HalfCommit(o, now));
    RunAppend(w, s1, Sessions(), HalfCommit(o, now));
    TwoSessions(w, o, s1);
    HalfCommitted(w, o, Run(w, s1, Sessions()), now);
    var s := Run(w, EMPTY, FirstCommit(o, now) + (Sessions() + HalfCommit(o, now)));
    assert BlobSized(s.host, NAME) && [ToSector(Ones())][..0] == [];
    var sig := o.sign(Seal(NAME, 0, 1, OnesClient().tip, Zero));
    HonestCommit(w, OnesClient(), s.host, [ToSector(Ones())], sig, now, true);
    HonestCommit(w, OnesClient(), s.host, [ToSector(Ones())], sig, now, false);
  }

  // ---------------------------------------------------------------- more sectors than 16 bits count

  /** The client of the first session, before it writes. */
  const FIRST: Writer := Writer(1, 0, 0, Zero, true, false)

  function Writes(data: seq<Byte>, k: nat): seq<Event> {
    seq(k, _ => Mine(data, BlobTx.NoFault))
  }

  /** All of `k` writes have been done. */
  predicate Along(e: Scene, k: nat) {
    Placed(e.c, e.s.host, 1, NAME, [], e.sent, true) && |e.sent| == k && e.c.size == ToU16(k)
  }

  function OneMore(e: Scene, data: seq<Byte>): Scene {
    var r := ClientWrite(e.c, e.s.host, data, BlobTx.NoFault);
    Scene(r.0, e.s.(host := r.1), e.sent + if r.2 then [ToSector(data)] else [])
  }

  /** A write that meets no fault is done, and counted. */
  lemma WriteDone(c: Writer, n: Host, data: seq<Byte>)
    requires Known(n, c.txID) && BlobTx.Open(SessionOf(n, c.txID).tx)
    ensures var r := ClientWrite(c, n, data, BlobTx.NoFault); r.2 && r.0.size == AddU16(c.size, 1)
  {
  }

  lemma GoodWrite(e: Scene, data: seq<Byte>, k: nat)
    requires Along(e, k)
    ensures Along(OneMore(e, data), k + 1)
  {
    MinePlaced(e.c, e.s.host, 1, NAME, [], e.sent, true, data, BlobTx.NoFault);
    WriteDone(e.c, e.s.host, data);
  }

  lemma FirstPlaced(key: PubKey)
    ensures Lockstep(FIRST, Opened(key).host, []) && Along(Scene(FIRST, Opened(key), []), 0)
  {
    var none: seq<Sector> := [];
    assert none + [] == [];
  }

  lemma PlayWrite(w: World, s: NodeState, data: seq<Byte>, k: nat)
    ensures Play(w, FIRST, s, Writes(data, k + 1)) == OneMore(Play(w, FIRST, s, Writes(data, k)), data)
  {
    assert Writes(data, k + 1)[..k] == Writes(data, k);
  }

  lemma {:induction false} AllSent(w: World, s: NodeState, data: seq<Byte>, k: nat)
    requires Along(Scene(FIRST, s, []), 0)
    ensures Along(Play(w, FIRST, s, Writes(data, k)), k)
  {
    if k == 0 {
      assert Play(w, FIRST, s, Writes(data, k)) == Scene(FIRST, s, []);
    } else {
      AllSent(w, s, data, k - 1);
      GoodWrite(Play(w, FIRST, s, Writes(data, k - 1)), data, k - 1);
      PlayWrite(w, s, data, k - 1);
    }
  }

  /**
   A client that writes 65536 sectors, each reported as done, is back at size zero with the
   tip of them all. It and the server are out of step, and no commit of it passes.
   */
  lemma CountersWrap(w: World, key: PubKey, data: seq<Byte>, sig: Signature, now: Time, busy: bool)
    ensures var e := Play(w, FIRST, Opened(key), Writes(data, 65536));
            && Lockstep(FIRST, Opened(key).host, []) && |e.sent| == 65536
            && e.c.size == 0 && e.c.tip == Fold(Zero, e.sent) && !Lockstep(e.c, e.s.host, e.sent)
            && !OnCommit(w, e.s.host, HonestReq(e.c, sig), now, AllPut, busy).1
  {
    FirstPlaced(key);
    AllSent(w, Opened(key), data, 65536);
    var e := Play(w, FIRST, Opened(key), Writes(data, 65536));
    assert [] + e.sent == e.sent;
    OverrunRefused(w, e.c, e.s.host, e.sent, sig, now, busy);
  }
}
