/**
 Name imports over any number of calls with any failures, lost commits among them: exactly
 which imports leave a name behind the stored height for good.
 */
module NameGaps {
  import opened Basics
  import opened NameImporter

  /** The import of one block, whatever call it belongs to. */
  datatype Attempt = Attempt(h: nat, last: bool, fault: Fault)

  function Try(p: Params, db: NameDb, a: Attempt): NameDb {
    Import(p.nameOf, db, Extract(p.chain(a.h)), a.h, a.last, a.fault).db
  }

  function Tries(p: Params, db: NameDb, ts: seq<Attempt>): NameDb
    decreases |ts|
  {
    if ts == [] then db else Try(p, Tries(p, db, ts[..|ts| - 1]), ts[|ts| - 1])
  }

  /** Blocks are only imported above the stored height. */
  predicate Ahead(p: Params, db: NameDb, ts: seq<Attempt>) {
    ts == [] || (Ahead(p, db, ts[..|ts| - 1]) && ts[|ts| - 1].h > Tries(p, db, ts[..|ts| - 1]).height)
  }

  /** The name has its value at block `m`, or at a later one. */
  ghost predicate UpTo(p: Params, names: map<string, Info>, n: string, m: nat) {
    exists b: nat :: b >= m && Lookup(names, n) == Lookup(Replay(p.chain, p.nameOf, b), n)
  }

  /** No name is behind the stored height. */
  ghost predicate UpToDate(p: Params, db: NameDb) {
    forall n :: UpTo(p, db.names, n, db.height)
  }

  /** The block says nothing of the name. */
  predicate Silent(p: Params, h: nat, n: string) {
    Given(p.nameOf, Raw(p.chain(h)), n).None?
  }

  predicate Raises(p: Params, a: Attempt) {
    ExtentOf(|Extract(p.chain(a.h))|, a.last, a.fault).raised
  }

  /** The import moves the height past a value that the store never got, and does not bring a newer one. */
  ghost predicate Skips(p: Params, db: NameDb, a: Attempt) {
    Raises(p, a) && a.h > 0 && exists n :: Silent(p, a.h, n) && !UpTo(p, db.names, n, a.h - 1)
  }

  /** What one import does to one name: it gets the block's value, or keeps its own. */
  lemma TryLookup(p: Params, db: NameDb, a: Attempt, n: string)
    requires Injective(p.nameOf) && a.h > 0
    ensures var now := Lookup(Try(p, db, a).names, n);
            && (now == Lookup(Replay(p.chain, p.nameOf, a.h), n) || now == Lookup(db.names, n))
            && (Raises(p, a) && !Silent(p, a.h, n) ==> now == Lookup(Replay(p.chain, p.nameOf, a.h), n))
            && (Silent(p, a.h, n) ==> now == Lookup(db.names, n))
  {
    var block, rs := p.chain(a.h), Extract(p.chain(a.h));
    var part := rs[..ExtentOf(|rs|, a.last, a.fault).puts];
    PrefixGives(p.nameOf, block, part, n);
    PutLookup(p.nameOf, db.names, part, a.h, n);
    PutLookup(p.nameOf, Replay(p.chain, p.nameOf, a.h - 1), Raw(block), a.h, n);
    if Raises(p, a) {
      assert part == rs;
      ExtractGives(p.nameOf, block, n);
    }
  }

  lemma SilentUpTo(p: Params, names: map<string, Info>, n: string, h: nat)
    requires h > 0 && Silent(p, h, n)
    ensures UpTo(p, names, n, h) <==> UpTo(p, names, n, h - 1)
  {
    PutLookup(p.nameOf, Replay(p.chain, p.nameOf, h - 1), Raw(p.chain(h)), h, n);
    if UpTo(p, names, n, h - 1) {
      var b: nat :| b >= h - 1 && Lookup(names, n) == Lookup(Replay(p.chain, p.nameOf, b), n);
      var c := if b == h - 1 then h else b;
      assert Lookup(names, n) == Lookup(Replay(p.chain, p.nameOf, c), n);
    }
  }

  /** An import that leaves the height alone leaves no name behind it. */
  lemma StayingTry(p: Params, db: NameDb, a: Attempt)
    requires Injective(p.nameOf) && UpToDate(p, db) && a.h > db.height && !Raises(p, a)
    ensures UpToDate(p, Try(p, db, a))
  {
    forall n: string
      ensures UpTo(p, Try(p, db, a).names, n, db.height)
    {
      assert UpTo(p, db.names, n, db.height);
      TryLookup(p, db, a, n);
    }
  }

  /** For one name, after an import that moves the height. */
  lemma RaisingTry(p: Params, db: NameDb, a: Attempt, n: string)
    requires Injective(p.nameOf) && a.h > db.height && Raises(p, a)
    ensures UpTo(p, Try(p, db, a).names, n, a.h) <==> !Silent(p, a.h, n) || UpTo(p, db.names, n, a.h - 1)
  {
    TryLookup(p, db, a, n);
    if Silent(p, a.h, n) {
      SilentUpTo(p, db.names, n, a.h);
    }
  }

  /** One import leaves no name behind exactly when it skips none. */
  lemma TryExact(p: Params, db: NameDb, a: Attempt)
    requires Injective(p.nameOf) && UpToDate(p, db) && a.h > db.height
    ensures UpToDate(p, Try(p, db, a)) <==> !Skips(p, db, a)
  {
    var db' := Try(p, db, a);
    if !Raises(p, a) {
      StayingTry(p, db, a);
    } else {
      forall n: string
        ensures UpTo(p, db'.names, n, db'.height) <==> !Silent(p, a.h, n) || UpTo(p, db.names, n, a.h - 1)
      {
        RaisingTry(p, db, a, n);
      }
      if UpToDate(p, db') {
        forall n: string
          ensures !Silent(p, a.h, n) || UpTo(p, db.names, n, a.h - 1)
        {
          assert UpTo(p, db'.names, n, db'.height);
        }
      }
    }
  }

  /** The block right above the stored height skips nothing; only lost commits let others be tried. */
  lemma NextSkipsNone(p: Params, db: NameDb, a: Attempt)
    requires UpToDate(p, db) && a.h == db.height + 1
    ensures !Skips(p, db, a)
  {
    var below: nat := a.h - 1;
    forall n: string
      ensures UpTo(p, db.names, n, below)
    {
      assert UpTo(p, db.names, n, db.height);
    }
  }

  // ---------------------------------------------------------------- runs of imports

  ghost predicate AlwaysUpToDate(p: Params, db: NameDb, ts: seq<Attempt>) {
    UpToDate(p, Tries(p, db, ts)) && (ts == [] || AlwaysUpToDate(p, db, ts[..|ts| - 1]))
  }

  ghost predicate NeverSkips(p: Params, db: NameDb, ts: seq<Attempt>) {
    ts == [] || (NeverSkips(p, db, ts[..|ts| - 1]) && !Skips(p, Tries(p, db, ts[..|ts| - 1]), ts[|ts| - 1]))
  }

  lemma {:induction false} UpToDateIffNoSkip(p: Params, db: NameDb, ts: seq<Attempt>)
    requires Injective(p.nameOf) && UpToDate(p, db) && Ahead(p, db, ts)
    ensures AlwaysUpToDate(p, db, ts) <==> NeverSkips(p, db, ts)
    decreases |ts|
  {
    if ts != [] {
      var front := ts[..|ts| - 1];
      UpToDateIffNoSkip(p, db, front);
      if AlwaysUpToDate(p, db, front) {
        TryExact(p, Tries(p, db, front), ts[|ts| - 1]);
      }
    }
  }

  lemma {:induction false} TriesAppend(p: Params, db: NameDb, ts: seq<Attempt>, more: seq<Attempt>)
    requires Ahead(p, db, ts) && Ahead(p, Tries(p, db, ts), more)
    ensures Tries(p, db, ts + more) == Tries(p, Tries(p, db, ts), more) && Ahead(p, db, ts + more)
    decreases |more|
  {
    if more == [] {
      assert ts + more == ts;
    } else {
      var m := |more| - 1;
      assert (ts + more)[..|ts + more| - 1] == ts + more[..m];
      TriesAppend(p, db, ts, more[..m]);
    }
  }

  /** All imports fail the way the call says. */
  predicate Of(call: Call, ts: seq<Attempt>) {
    forall i :: 0 <= i < |ts| ==> ts[i].fault == call.fault(ts[i].h)
  }

  lemma {:induction false} ImportFromTries(p: Params, call: Call, confirmed: nat, db: NameDb, h: nat, end: nat)
    returns (ts: seq<Attempt>)
    requires db.height < h
    ensures ImportFrom(ImportingOf(p, call, confirmed), db, h, end).db == Tries(p, db, ts)
    ensures Ahead(p, db, ts) && Of(call, ts)
    decreases end - h
  {
    ts := [];
    if h < end {
      var a := Attempt(h, h == confirmed - 1, call.fault(h));
      var r := ImportingOf(p, call, confirmed)(db, h);
      assert [a][..0] == [] && Tries(p, db, [a]) == r.db;
      ts := [a];
      if r.ok {
        var rest := ImportFromTries(p, call, confirmed, r.db, h + 1, end);
        TriesAppend(p, db, [a], rest);
        ts := [a] + rest;
      }
    }
  }

  lemma SyncTries(p: Params, call: Call, db: NameDb) returns (ts: seq<Attempt>)
    requires p.workers >= 1
    ensures Sync(p, call, db) == Tries(p, db, ts) && Ahead(p, db, ts) && Of(call, ts)
  {
    ts := [];
    if Due(p, call, db) {
      var confirmed := call.tip.value - p.depth;
      var imp := ImportingOf(p, call, confirmed);
      var stop := BatchesAreSequential(imp, call.fetchFails, p.workers, confirmed, db, db.height + 1);
      ts := ImportFromTries(p, call, confirmed, db, db.height + 1, stop);
    }
  }

  lemma {:induction false} RunTries(p: Params, calls: seq<Call>) returns (ts: seq<Attempt>)
    requires p.workers >= 1
    ensures Run(p, calls) == Tries(p, START, ts) && Ahead(p, START, ts)
    decreases |calls|
  {
    ts := [];
    if calls != [] {
      ts := RunTries(p, calls[..|calls| - 1]);
      var more := SyncTries(p, calls[|calls| - 1], Run(p, calls[..|calls| - 1]));
      TriesAppend(p, START, ts, more);
      ts := ts + more;
    }
  }

  /**
   Any number of calls, with any failure anywhere: the store goes through the imports `ts`,
   and no name ever falls behind the stored height if and only if no import skips one.
   */
  lemma GapsOverRuns(p: Params, calls: seq<Call>) returns (ts: seq<Attempt>)
    requires p.workers >= 1 && Injective(p.nameOf)
    ensures Run(p, calls) == Tries(p, START, ts) && Ahead(p, START, ts)
    ensures AlwaysUpToDate(p, START, ts) <==> NeverSkips(p, START, ts)
  {
    ts := RunTries(p, calls);
    forall n: string
      ensures UpTo(p, START.names, n, START.height)
    {
      assert Lookup(START.names, n) == Lookup(Replay(p.chain, p.nameOf, 0), n);
    }
    UpToDateIffNoSkip(p, START, ts);
  }

  // ---------------------------------------------------------------- a gap that stays

  /** A chain whose first block gives one name a key, and that is otherwise empty. */
  function OneRecord(r: Record): nat -> Block {
    (h: nat) => if h == 1 then [[r]] else []
  }

  /** Two blocks are imported; the first one's commit is lost. */
  function LosesFirst(depth: nat): Call {
    Call(Some(depth + 3), h => if h == 1 then LostCommit else NoFault, h => false)
  }

  lemma EmptyBlock(block: Block)
    requires block == []
    ensures Raw(block) == [] && Extract(block) == []
  {
  }

  lemma {:induction false} NothingComes(p: Params, db: NameDb, ts: seq<Attempt>)
    requires Ahead(p, db, ts) && db.height >= 1 && (forall h :: h > 1 ==> p.chain(h) == [])
    ensures Tries(p, db, ts).names == db.names && Tries(p, db, ts).height >= 1
    decreases |ts|
  {
    if ts != [] {
      NothingComes(p, db, ts[..|ts| - 1]);
      EmptyBlock(p.chain(ts[|ts| - 1].h));
    }
  }

  function After(p: Params, db: NameDb, calls: seq<Call>): NameDb
    requires p.workers >= 1
    decreases |calls|
  {
    if calls == [] then db else Sync(p, calls[|calls| - 1], After(p, db, calls[..|calls| - 1]))
  }

  lemma {:induction false} GapStays(p: Params, db: NameDb, calls: seq<Call>)
    requires p.workers >= 1 && db.height >= 1 && (forall h :: h > 1 ==> p.chain(h) == [])
    ensures After(p, db, calls).names == db.names && After(p, db, calls).height >= 1
    decreases |calls|
  {
    if calls != [] {
      var front := calls[..|calls| - 1];
      GapStays(p, db, front);
      var ts := SyncTries(p, calls[|calls| - 1], After(p, db, front));
      NothingComes(p, After(p, db, front), ts);
    }
  }

  lemma ReplayOne(p: Params, r: Record)
    requires p.chain(1) == [[r]] && p.chain(2) == []
    ensures Lookup(Replay(p.chain, p.nameOf, 2), p.nameOf(r.hash)) == Some(Info(r.key, 1))
  {
    EmptyBlock(p.chain(2));
    var block := p.chain(1);
    assert block[..0] == [] && Raw(block) == Raw(block[..0]) + [r];
    assert Raw(block) == [r];
    PutLookup(p.nameOf, Replay(p.chain, p.nameOf, 0), Raw(block), 1, p.nameOf(r.hash));
    assert Replay(p.chain, p.nameOf, 1) == Put(p.nameOf, Replay(p.chain, p.nameOf, 0), Raw(block), 1);
    assert Replay(p.chain, p.nameOf, 2) == Put(p.nameOf, Replay(p.chain, p.nameOf, 1), [], 2);
  }

  lemma FirstLost(p: Params, call: Call)
    requires p.workers >= 1 && p.depth >= 0 && p.chain(2) == [] && call == LosesFirst(p.depth)
    ensures Sync(p, call, START) == NameDb(map[], 2, true)
  {
    var imp := ImportingOf(p, call, 3);
    var stop := BatchesAreSequential(imp, call.fetchFails, p.workers, 3, START, 1);
    EmptyBlock(p.chain(2));
    ImportLost(p.nameOf, START, Extract(p.chain(1)), 1, false);
    ImportWhole(p.nameOf, START, [], 2, true);
    assert imp(START, 1) == Imported(START, true);
    var two := NameDb(map[], 2, true);
    assert imp(START, 2) == Imported(two, true);
    assert ImportFrom(imp, two, 3, 3) == Imported(two, true);
    assert ImportFrom(imp, START, 2, 3) == Imported(two, true);
    assert ImportFrom(imp, START, 1, 3) == Imported(two, true);
  }

  /**
   The first block's commit is lost and the second block's is not: the height is two, the
   record of block one is missing, and no later call, whatever happens in it, brings it back.
   */
  lemma LostForGood(nameOf: string -> string, depth: nat, workers: nat, r: Record, calls: seq<Call>)
    requires workers >= 1
    ensures var p := Params(OneRecord(r), nameOf, depth, workers);
            var db := Sync(p, LosesFirst(depth), START);
            && db == NameDb(map[], 2, true)
            && Lookup(Replay(p.chain, nameOf, 2), nameOf(r.hash)) == Some(Info(r.key, 1))
            && Lookup(After(p, db, calls).names, nameOf(r.hash)) == None
  {
    var p := Params(OneRecord(r), nameOf, depth, workers);
    FirstLost(p, LosesFirst(depth));
    ReplayOne(p, r);
    GapStays(p, Sync(p, LosesFirst(depth), START), calls);
  }
}
