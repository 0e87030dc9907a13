/** Runs from an empty node: what careful ones leave, and two that break the index. */
module StoreRaces {
  import opened Basics
  import opened HashChain
  import BlobTx
  import opened HeaderStore
  import opened Publisher
  import opened StoreRuns
  import opened StoreIndex

  const EMPTY: NodeState := NodeState(Host(EMPTY_DB, map[], [], map[], 0), map[], 0)

  lemma EmptySound()
    ensures Shape(EMPTY) && Agreed(EMPTY) && AllCovered(EMPTY)
  {
  }

  /** What the index of an unlocked name says, entry by entry. */
  predicate IndexedOutright(n: Host, name: string) {
    name in n.db.headers ==>
      && name in n.db.tables && |n.db.tables[name]| == MAX_SECTORS
      && var h, table, file := n.db.headers[name], n.db.tables[name], BlobOf(n, name).sectors;
         && h.size <= MAX_SECTORS <= |file|
         && h.tip == Fold(Zero, file[..h.size])
         && (forall i :: 0 <= i < h.size ==> table[i] == Fold(Zero, file[..i + 1]))
         && (forall i :: h.size <= i < MAX_SECTORS ==> table[i] == Zero)
  }

  lemma TableRead(file: seq<Sector>, size: nat)
    requires size <= MAX_SECTORS <= |file|
    ensures var table := Table(file[..size]);
            && (forall i :: 0 <= i < size ==> table[i] == Fold(Zero, file[..i + 1]))
            && (forall i :: size <= i < MAX_SECTORS ==> table[i] == Zero)
  {
    forall i | 0 <= i < size
      ensures Table(file[..size])[i] == Fold(Zero, file[..i + 1])
    {
      assert file[..size][..i + 1] == file[..i + 1];
    }
  }

  /**
   From an empty node, with careful clients and no commit that outlives its transaction:
   after every run each header fits a blob, its tip is the chain hash of exactly that many
   sectors of the blob, and its table holds every prefix hash below and zeros above.
   */
  lemma EveryRunIndexed(w: World, steps: seq<Step>, name: string)
    requires AllWritesSucceed(steps) && AllCareful(w, EMPTY, steps) && NeverLate(w, EMPTY, steps)
    ensures var s := Run(w, EMPTY, steps);
            && s.host.db.count == |s.host.db.headers|
            && (Locked(s, name) || IndexedOutright(s.host, name))
  {
    EmptySound();
    CarefulRunsConsistent(w, EMPTY, steps);
    RunShape(w, EMPTY, steps);
    var n := Run(w, EMPTY, steps).host;
    assert Agreed(Run(w, EMPTY, steps)) && IndexedOrLocked(Run(w, EMPTY, steps), name);
    if NameIndexed(n, name) && name in n.db.headers {
      TableRead(BlobOf(n, name).sectors, n.db.headers[name].size);
    }
  }

  // ---------------------------------------------------------------- two races

  const NAME: string := "a"

  function Ones(): seq<Byte> {
    seq(SECTOR_BYTES, _ => 1)
  }

  /** A node that knows the name's key, with one session on the name that has written nothing. */
  function Opened(key: PubKey): NodeState {
    var db := EMPTY_DB.(keys := map[NAME := key]);
    var file := BlobTx.File(Zeros(MAX_SECTORS), true);
    NodeState(Host(db, map[NAME := file], [Session(NAME, BlobTx.FRESH)], map[1 := 0], 1), map[], 0)
  }

  lemma OpenedReached(w: World, key: PubKey)
    ensures Next(w, Next(w, EMPTY, Import(map[NAME := key], {})), CheckOut(NAME, false, 0)) == Opened(key)
  {
  }

  /** The rest of a commit that passed its check: afterwards nobody holds the name. */
  lemma FinishCommit(w: World, s: NodeState, now: Time)
    requires Shape(s) && 0 in s.flights && !s.flights[0].stored && s.flights.Keys == {0}
    ensures var s1 := Next(w, s, PutOne(0, now, false));
            && Shape(s1) && 0 in s1.flights && s1.flights[0] == s.flights[0].(stored := true)
            && s1.host.txs == s.host.txs && s1.host.blobs == s.host.blobs
            && s.flights[0].name in Next(w, s1, PublishOne(0)).host.db.headers
            && !Locked(Next(w, s1, PublishOne(0)), s.flights[0].name)
            && (NameIndexed(Next(w, s1, PublishOne(0)).host, s.flights[0].name) <==> Stands(s1.host, s1.flights[0]))
  {
    assert FlightSound(s, 0);
    forall name: string
      ensures !Locked(s, name)
    {
      assert forall call :: call in s.flights ==> call == 0;
    }
    PutEffect(s.host, s.flights[0].a, s.flights[0].req, s.flights[0].hashes, now);
    StepShape(w, s, PutOne(0, now, false));
    PublishExact(Next(w, s, PutOne(0, now, false)), 0);
  }

  function Prelude(key: PubKey): seq<Step> {
    [Import(map[NAME := key], {}), CheckOut(NAME, false, 0)]
  }

  lemma {:induction false} RunAppend(w: World, s: NodeState, steps: seq<Step>, more: seq<Step>)
    ensures Run(w, s, steps + more) == Run(w, Run(w, s, steps), more)
    decreases |more|
  {
    if more == [] {
      assert steps + more == steps;
    } else {
      assert (steps + more)[..|steps + more| - 1] == steps + more[..|more| - 1];
      RunAppend(w, s, steps, more[..|more| - 1]);
    }
  }

  lemma RunTwo(w: World, s: NodeState, a: Step, b: Step)
    ensures Run(w, s, [a, b]) == Next(w, Next(w, s, a), b)
  {
    assert [a, b][..1] == [a] && [a][..0] == [];
    assert Run(w, s, [a]) == Next(w, Run(w, s, [a][..0]), a);
  }

  lemma RunFour(w: World, s: NodeState, a: Step, b: Step, c: Step, d: Step)
    ensures Run(w, s, [a, b] + [c, d]) == Next(w, Next(w, Next(w, Next(w, s, a), b), c), d)
  {
    RunAppend(w, s, [a, b], [c, d]);
    RunTwo(w, s, a, b);
    RunTwo(w, Run(w, s, [a, b]), c, d);
  }

  lemma PreludeReaches(w: World, key: PubKey)
    ensures Run(w, EMPTY, Prelude(key)) == Opened(key) && Shape(Opened(key))
  {
    RunTwo(w, EMPTY, Import(map[NAME := key], {}), CheckOut(NAME, false, 0));
    OpenedReached(w, key);
    EmptySound();
    RunShape(w, EMPTY, Prelude(key));
  }

  /** The owner's request to commit one sector. */
  function OneSector(o: Owner, id: nat, epoch: U16, x: Sector): CommitReq {
    CommitReq(id, epoch, 1, Node(Zero, x), o.sign(Seal(NAME, epoch, 1, Node(Zero, x), Zero)))
  }

  /** The node with one commit of one sector under way on its first transaction. */
  predicate Committing(s: NodeState, sector: Sector, tx: BlobTx.Tx) {
    && s.flights.Keys == {0} && !s.flights[0].stored && s.flights[0].content == [sector]
    && s.flights[0].name == NAME && s.flights[0].a == 0
    && |s.host.txs| == 1 && s.host.txs[0] == Session(NAME, tx) && s.host.txStore == map[1 := 0]
    && s.host.blobs == map[NAME := BlobTx.File(Zeros(MAX_SECTORS), true)]
  }

  lemma CheckFirst(w: World, o: Owner)
    requires Signs(w, o)
    ensures Committing(Next(w, Opened(o.key), CheckOne(OneSector(o, 1, 0, ZeroSector()))), ZeroSector(),
                       BlobTx.FRESH.(f := Zeros(MAX_SECTORS), initialized := true))
  {
    var s, req := Opened(o.key), OneSector(o, 1, 0, ZeroSector());
    var view := Zeros(MAX_SECTORS);
    assert ViewAt(s.host, 0) == view && view[..1] == [ZeroSector()];
    TipOfTable(view[..1]);
    assert view[..1][..0] == [] && Fold(Zero, view[..1]) == Node(Zero, ZeroSector());
    assert CheckAt(w, s.host, 0, req).1 == Some(Table(view[..1]));
  }

  /**
   The client commits the zero sector a new blob starts with, and writes another in its
   place before the header is stored: header and table then index a sector the blob does
   not hold.
   */
  lemma WriteUnderCommit(w: World, o: Owner, now: Time)
    requires Signs(w, o)
    ensures var race := [CheckOne(OneSector(o, 1, 0, ZeroSector())), WriteOne(1, Ones(), BlobTx.NoFault)] + [PutOne(0, now, false), PublishOne(0)];
            var s := Run(w, EMPTY, Prelude(o.key) + race);
            NAME in s.host.db.headers && !Locked(s, NAME) && !NameIndexed(s.host, NAME)
  {
    var check, write := CheckOne(OneSector(o, 1, 0, ZeroSector())), WriteOne(1, Ones(), BlobTx.NoFault);
    PreludeReaches(w, o.key);
    RunAppend(w, EMPTY, Prelude(o.key), [check, write] + [PutOne(0, now, false), PublishOne(0)]);
    RunFour(w, Opened(o.key), check, write, PutOne(0, now, false), PublishOne(0));
    CheckFirst(w, o);
    var s1 := Next(w, Opened(o.key), check);
    var s2 := Next(w, s1, write);
    StepShape(w, Opened(o.key), check);
    StepShape(w, s1, write);
    assert ToSector(Ones())[0] == 1 && ZeroSector()[0] == 0;
    assert s2.host.txs[0].tx.f[0] == ToSector(Ones());
    FinishCommit(w, s2, now);
  }

  /** A commit whose transaction expires before the rest of it is done. */
  lemma ExpiresThenFinishes(w: World, s: NodeState, tx: BlobTx.Tx, now: Time)
    requires Shape(s) && Committing(s, ToSector(Ones()), tx) && BlobTx.Open(tx)
    ensures var s' := Next(w, Next(w, Next(w, s, Expire(1)), PutOne(0, now, false)), PublishOne(0));
            NAME in s'.host.db.headers && !Locked(s', NAME) && !NameIndexed(s'.host, NAME)
  {
    var s1 := Next(w, s, Expire(1));
    StepShape(w, s, Expire(1));
    assert ToSector(Ones())[0] == 1 && ZeroSector()[0] == 0;
    assert BlobOf(s1.host, NAME).sectors[0] == ZeroSector();
    assert [ToSector(Ones())][0] == ToSector(Ones());
    FinishCommit(w, s1, now);
  }

  /**
   The client commits what it wrote, and its transaction expires before the header is
   stored: the header stays, the sector is never published.
   */
  lemma ExpiryUnderCommit(w: World, o: Owner, now: Time)
    requires Signs(w, o)
    ensures var commit := [WriteOne(1, Ones(), BlobTx.NoFault), CheckOne(OneSector(o, 1, 0, ToSector(Ones())))];
            var s := Run(w, EMPTY, Prelude(o.key) + (commit + ([Expire(1), PutOne(0, now, false)] + [PublishOne(0)])));
            NAME in s.host.db.headers && !Locked(s, NAME) && !NameIndexed(s.host, NAME)
  {
    var write, check := WriteOne(1, Ones(), BlobTx.NoFault), CheckOne(OneSector(o, 1, 0, ToSector(Ones())));
    var rest := [Expire(1), PutOne(0, now, false)] + [PublishOne(0)];
    PreludeReaches(w, o.key);
    RunAppend(w, EMPTY, Prelude(o.key), [write, check] + rest);
    RunAppend(w, Opened(o.key), [write, check], rest);
    RunTwo(w, Opened(o.key), write, check);
    var s := Run(w, Opened(o.key), [write, check]);
    RunShape(w, Opened(o.key), [write, check]);
    CheckWritten(w, o);
    RunAppend(w, s, [Expire(1), PutOne(0, now, false)], [PublishOne(0)]);
    RunTwo(w, s, Expire(1), PutOne(0, now, false));
    assert [PublishOne(0)][..0] == [];
    ExpiresThenFinishes(w, s, s.host.txs[0].tx, now);
  }

  lemma CheckWritten(w: World, o: Owner)
    requires Signs(w, o)
    ensures var s := Next(w, Opened(o.key), WriteOne(1, Ones(), BlobTx.NoFault));
            var tx := BlobTx.Tx(Zeros(MAX_SECTORS)[0 := ToSector(Ones())], 1, true, false, false);
            Committing(Next(w, s, CheckOne(OneSector(o, 1, 0, ToSector(Ones())))), ToSector(Ones()), tx)
  {
    var s := Next(w, Opened(o.key), WriteOne(1, Ones(), BlobTx.NoFault));
    var req := OneSector(o, 1, 0, ToSector(Ones()));
    var view := Zeros(MAX_SECTORS)[0 := ToSector(Ones())];
    assert s.host.txs[0].tx == BlobTx.Tx(view, 1, true, false, false);
    assert ViewAt(s.host, 0) == view && view[..1] == [ToSector(Ones())];
    TipOfTable(view[..1]);
    assert view[..1][..0] == [] && Fold(Zero, view[..1]) == Node(Zero, ToSector(Ones()));
    assert CheckAt(w, s.host, 0, req).1 == Some(Table(view[..1]));
  }
}
