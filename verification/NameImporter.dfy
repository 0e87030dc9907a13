/** Importing name keys from the chain, block by block, with every store write able to fail. */
module NameImporter {
  import opened Basics
  import opened HeaderStore

  /** A key record found in a transaction; `hash` is the name's hash, in hex. */
  datatype Record = Record(hash: string, key: PubKey)

  /** The records of a block, transaction by transaction. */
  type Block = seq<seq<Record>>

  datatype Info = Info(key: PubKey, height: nat)

  datatype NameDb = NameDb(names: map<string, Info>, height: nat, complete: bool)

  function Lookup(names: map<string, Info>, n: string): Option<Info> {
    if n in names then Some(names[n]) else None
  }

  // ---------------------------------------------------------------- one record per name

  function Raw(block: Block): seq<Record> {
    if block == [] then [] else Raw(block[..|block| - 1]) + block[|block| - 1]
  }

  /** The latest record of each hash, and the hashes in order of first appearance. */
  datatype Notes = Notes(uniq: map<string, Record>, order: seq<string>)

  function Note(notes: Notes, r: Record): Notes {
    Notes(notes.uniq[r.hash := r], if r.hash in notes.uniq then notes.order else notes.order + [r.hash])
  }

  function Noted(rs: seq<Record>): Notes {
    if rs == [] then Notes(map[], []) else Note(Noted(rs[..|rs| - 1]), rs[|rs| - 1])
  }

  /** The order lists the noted hashes, each once, and a record is noted under its own hash. */
  ghost predicate Orderly(notes: Notes) {
    && (forall h :: h in notes.order <==> h in notes.uniq)
    && NoDups(notes.order)
    && (forall h :: h in notes.uniq ==> notes.uniq[h].hash == h)
  }

  lemma {:induction false} NotedOrderly(rs: seq<Record>)
    ensures Orderly(Noted(rs))
    decreases |rs|
  {
    if rs != [] {
      NotedOrderly(rs[..|rs| - 1]);
    }
  }

  /** `ExtractTXTRecordsBlock` */
  function Extract(block: Block): seq<Record> {
    var notes := Noted(Raw(block));
    Listed(notes.uniq, notes.order)
  }

  function Listed(uniq: map<string, Record>, order: seq<string>): seq<Record> {
    if order == [] then []
    else
      var last := order[|order| - 1];
      Listed(uniq, order[..|order| - 1]) + if last in uniq then [uniq[last]] else []
  }

  lemma {:induction false} ListedAt(uniq: map<string, Record>, order: seq<string>)
    requires forall h :: h in order ==> h in uniq
    ensures |Listed(uniq, order)| == |order|
    ensures forall i :: 0 <= i < |order| ==> Listed(uniq, order)[i] == uniq[order[i]]
    decreases |order|
  {
    if order != [] {
      ListedAt(uniq, order[..|order| - 1]);
    }
  }

  /** Entry by entry: the extracted list holds the latest record of each hash, in order. */
  lemma ExtractedAt(block: Block)
    ensures var notes := Noted(Raw(block));
            && Orderly(notes) && |Extract(block)| == |notes.order|
            && (forall i :: 0 <= i < |notes.order| ==>
                  notes.order[i] in notes.uniq && Extract(block)[i] == notes.uniq[notes.order[i]])
  {
    NotedOrderly(Raw(block));
    ListedAt(Noted(Raw(block)).uniq, Noted(Raw(block)).order);
  }

  /** The first loop: the records are noted transaction by transaction. */
  method NoteRecords(block: Block) returns (uniq: map<string, Record>, order: seq<string>)
    ensures Notes(uniq, order) == Noted(Raw(block))
  {
    uniq, order := map[], [];
    for t := 0 to |block|
      invariant Notes(uniq, order) == Noted(Raw(block[..t]))
    {
      ghost var before := Raw(block[..t]);
      var tx := block[t];
      assert before + tx[..0] == before;
      for i := 0 to |tx|
        invariant Notes(uniq, order) == Noted(before + tx[..i])
      {
        ghost var more := before + tx[..i + 1];
        assert more[..|more| - 1] == before + tx[..i];
        if tx[i].hash !in uniq {
          order := order + [tx[i].hash];
        }
        uniq := uniq[tx[i].hash := tx[i]];
      }
      assert block[..t + 1][..t] == block[..t] && tx[..|tx|] == tx;
    }
    assert block[..|block|] == block;
  }

  method ExtractRecords(block: Block) returns (out: seq<Record>)
    ensures out == Extract(block)
  {
    var uniq, order := NoteRecords(block);
    ExtractedAt(block);
    out := [];
    for i := 0 to |order|
      invariant |out| == i && forall j :: 0 <= j < i ==> out[j] == uniq[order[j]]
    {
      out := out + [uniq[order[i]]];
    }
  }

  // ---------------------------------------------------------------- writing records

  function Put(nameOf: string -> string, names: map<string, Info>, rs: seq<Record>, h: nat): map<string, Info> {
    if rs == [] then names
    else
      var last := rs[|rs| - 1];
      Put(nameOf, names, rs[..|rs| - 1], h)[nameOf(last.hash) := Info(last.key, h)]
  }

  /** The key the last of `rs` gives to the name, if any does. */
  function Given(nameOf: string -> string, rs: seq<Record>, n: string): Option<PubKey> {
    if rs == [] then None
    else if nameOf(rs[|rs| - 1].hash) == n then Some(rs[|rs| - 1].key)
    else Given(nameOf, rs[..|rs| - 1], n)
  }

  /** A name holds what the last record for it says, or what it held before. */
  lemma {:induction false} PutLookup(nameOf: string -> string, names: map<string, Info>, rs: seq<Record>, h: nat, n: string)
    ensures Lookup(Put(nameOf, names, rs, h), n)
         == match Given(nameOf, rs, n) case Some(key) => Some(Info(key, h)) case None => Lookup(names, n)
    decreases |rs|
  {
    if rs != [] {
      PutLookup(nameOf, names, rs[..|rs| - 1], h, n);
    }
  }

  lemma {:induction false} GivenBy(nameOf: string -> string, rs: seq<Record>, n: string) returns (i: nat)
    requires Given(nameOf, rs, n).Some?
    ensures i < |rs| && nameOf(rs[i].hash) == n && Given(nameOf, rs, n) == Some(rs[i].key)
    decreases |rs|
  {
    i := |rs| - 1;
    if nameOf(rs[i].hash) != n {
      i := GivenBy(nameOf, rs[..i], n);
    }
  }

  lemma {:induction false} GivenTo(nameOf: string -> string, rs: seq<Record>, i: nat)
    requires i < |rs|
    ensures Given(nameOf, rs, nameOf(rs[i].hash)).Some?
    decreases |rs|
  {
    if nameOf(rs[|rs| - 1].hash) != nameOf(rs[i].hash) {
      GivenTo(nameOf, rs[..|rs| - 1], i);
    }
  }

  // ---------------------------------------------------------------- dropping superseded records

  ghost predicate Injective(nameOf: string -> string) {
    forall g, h :: nameOf(g) == nameOf(h) ==> g == h
  }

  /** What the notes keep of a hash is what all the records give to its name. */
  lemma {:induction false} NotedGives(nameOf: string -> string, rs: seq<Record>, hash: string)
    requires Injective(nameOf)
    ensures Given(nameOf, rs, nameOf(hash))
         == if hash in Noted(rs).uniq then Some(Noted(rs).uniq[hash].key) else None
    decreases |rs|
  {
    if rs != [] {
      NotedGives(nameOf, rs[..|rs| - 1], hash);
    }
  }

  lemma ExtractGives(nameOf: string -> string, block: Block, n: string)
    requires Injective(nameOf)
    ensures Given(nameOf, Extract(block), n) == Given(nameOf, Raw(block), n)
  {
    var out, raw := Extract(block), Raw(block);
    var notes := Noted(raw);
    ExtractedAt(block);
    if Given(nameOf, out, n).Some? {
      var i := GivenBy(nameOf, out, n);
      assert out[i] == notes.uniq[notes.order[i]] && notes.order[i] in notes.order;
      NotedGives(nameOf, raw, out[i].hash);
    } else if Given(nameOf, raw, n).Some? {
      var i := GivenBy(nameOf, raw, n);
      var hash := raw[i].hash;
      NotedGives(nameOf, raw, hash);
      assert hash in notes.order;
      var j :| 0 <= j < |notes.order| && notes.order[j] == hash;
      assert out[j].hash == hash;
      GivenTo(nameOf, out, j);
    }
  }

  /** Writing only the extracted records leaves every name as writing all of them would. */
  lemma ExtractSuffices(nameOf: string -> string, names: map<string, Info>, block: Block, h: nat)
    requires Injective(nameOf)
    ensures Put(nameOf, names, Extract(block), h) == Put(nameOf, names, Raw(block), h)
  {
    forall n: string
      ensures Lookup(Put(nameOf, names, Extract(block), h), n) == Lookup(Put(nameOf, names, Raw(block), h), n)
    {
      PutLookup(nameOf, names, Extract(block), h, n);
      PutLookup(nameOf, names, Raw(block), h, n);
      ExtractGives(nameOf, block, n);
    }
    SameLookups(Put(nameOf, names, Extract(block), h), Put(nameOf, names, Raw(block), h));
  }

  lemma SameLookups(a: map<string, Info>, b: map<string, Info>)
    requires forall n :: Lookup(a, n) == Lookup(b, n)
    ensures a == b
  {
    forall n: string
      ensures n in a <==> n in b
      ensures n in a && n in b ==> a[n] == b[n]
    {
      assert Lookup(a, n) == Lookup(b, n);
    }
  }

  ghost predicate Suffices(nameOf: string -> string, block: Block) {
    forall names, h: nat :: Put(nameOf, names, Extract(block), h) == Put(nameOf, names, Raw(block), h)
  }

  lemma NotedAppend(rs: seq<Record>, r: Record)
    ensures Noted(rs + [r]) == Note(Noted(rs), r)
  {
  }

  lemma NotedAgain(rs: seq<Record>, a: Record, b: Record)
    requires rs == [] && a.hash != b.hash
    ensures Noted(rs + [a] + [b] + [a]) == Notes(map[a.hash := a, b.hash := b], [a.hash, b.hash])
  {
    NotedAppend(rs, a);
    NotedAppend(rs + [a], b);
    NotedAppend(rs + [a] + [b], a);
  }

  lemma ExtractedAgain(block: Block, rs: seq<Record>, a: Record, b: Record)
    requires rs == [] && a.hash != b.hash && block == [rs + [a] + [b] + [a]]
    ensures Raw(block) == block[0] && Extract(block) == [a, b]
  {
    assert block[..0] == [];
    assert Raw(block) == Raw(block[..0]) + block[0];
    NotedAgain(rs, a, b);
    ExtractedAt(block);
  }

  /** Two hashes of one name, the first one updated again: the extracted list ends with the stale key. */
  lemma SharedNameBreaks(nameOf: string -> string, a: Record, b: Record)
    requires a.hash != b.hash && a.key != b.key && nameOf(a.hash) == nameOf(b.hash)
    ensures !Suffices(nameOf, [[] + [a] + [b] + [a]])
  {
    var n, rs, none: map<string, Info> := nameOf(a.hash), [], map[];
    var all := rs + [a] + [b] + [a];
    var out := Extract([all]);
    ExtractedAgain([all], rs, a, b);
    PutLookup(nameOf, none, out, 0, n);
    PutLookup(nameOf, none, all, 0, n);
    assert Given(nameOf, all, n) == Some(a.key) && Given(nameOf, out, n) == Some(b.key);
    assert Put(nameOf, none, out, 0) != Put(nameOf, none, all, 0);
  }

  /** Dropping superseded records is right on every block if and only if no two hashes name the same name. */
  lemma ExtractExact(nameOf: string -> string)
    ensures (forall block :: Suffices(nameOf, block)) <==> Injective(nameOf)
  {
    if Injective(nameOf) {
      forall block, names, h: nat
        ensures Put(nameOf, names, Extract(block), h) == Put(nameOf, names, Raw(block), h)
      {
        ExtractSuffices(nameOf, names, block, h);
      }
    } else {
      var g, h :| nameOf(g) == nameOf(h) && g != h;
      SharedNameBreaks(nameOf, Record(g, PubKey(1)), Record(h, PubKey(2)));
    }
  }

  // ---------------------------------------------------------------- one block

  /** Where a block's import can stop; a transaction that reports an error is still committed. */
  datatype Fault =
    | NoFault
    | Unresolved       // a name lookup fails before anything is written
    | NotOpened        // no transaction
    | PutFails(j: nat) // the j-th name is not written
    | HeightFails
    | FlagFails
    | LostCommit       // the commit fails and its error is dropped

  /** The store after an attempt, and whether the importer goes on. */
  datatype Imported = Imported(db: NameDb, ok: bool)

  /** How much of a block's transaction is committed, and whether the importer goes on. */
  datatype Extent = Extent(puts: nat, raised: bool, flagged: bool, ok: bool)

  function ExtentOf(count: nat, last: bool, fault: Fault): (e: Extent)
    ensures e.puts <= count
    ensures e.raised ==> e.puts == count
    ensures e.flagged ==> last && e.raised
    ensures e.ok && !fault.LostCommit? ==> e.raised && (last ==> e.flagged)
  {
    match fault
    case NoFault => Extent(count, true, last, true)
    case Unresolved => if count == 0 then Extent(0, true, last, true) else Extent(0, false, false, false)
    case NotOpened => Extent(0, false, false, false)
    case PutFails(j) => if j < count then Extent(j, false, false, false) else Extent(count, true, last, true)
    case HeightFails => Extent(count, false, false, false)
    case FlagFails => Extent(count, true, false, !last)
    case LostCommit => Extent(0, false, false, true)
  }

  function Import(nameOf: string -> string, db: NameDb, rs: seq<Record>, h: nat, last: bool, fault: Fault): Imported {
    var e := ExtentOf(|rs|, last, fault);
    Imported(NameDb(Put(nameOf, db.names, rs[..e.puts], h), if e.raised then h else db.height, db.complete || e.flagged), e.ok)
  }

  /**
   A failing write takes nothing back: the records before it stay committed under the old
   height, and the importer stops. A failing height write leaves all of them.
   */
  lemma FailureKeepsWrites(nameOf: string -> string, db: NameDb, rs: seq<Record>, h: nat, last: bool, j: nat, n: string)
    requires j <= |rs|
    ensures var r := Import(nameOf, db, rs, h, last, if j < |rs| then PutFails(j) else HeightFails);
            && !r.ok && r.db.height == db.height && r.db.complete == db.complete
            && Lookup(r.db.names, n)
               == match Given(nameOf, rs[..j], n) case Some(key) => Some(Info(key, h)) case None => Lookup(db.names, n)
  {
    PutLookup(nameOf, db.names, rs[..j], h, n);
  }

  /** A failing name look-up stops the importer before it writes anything, unless there is no name to look up. */
  lemma UnresolvedStops(nameOf: string -> string, db: NameDb, rs: seq<Record>, h: nat, last: bool)
    ensures Import(nameOf, db, rs, h, last, Unresolved)
         == if rs == [] then Imported(NameDb(db.names, h, db.complete || last), true) else Imported(db, false)
    ensures Import(nameOf, db, rs, h, last, NotOpened) == Imported(db, false)
  {
  }

  /** The names after blocks 1 to `h`, each applied record by record. */
  function Replay(chain: nat -> Block, nameOf: string -> string, h: nat): map<string, Info> {
    if h == 0 then map[] else Put(nameOf, Replay(chain, nameOf, h - 1), Raw(chain(h)), h)
  }

  /** A name has its value at the stored height, or already its value at the next block. */
  predicate NameFollows(chain: nat -> Block, nameOf: string -> string, db: NameDb, n: string) {
    || Lookup(db.names, n) == Lookup(Replay(chain, nameOf, db.height), n)
    || Lookup(db.names, n) == Lookup(Replay(chain, nameOf, db.height + 1), n)
  }

  ghost predicate Follows(chain: nat -> Block, nameOf: string -> string, db: NameDb) {
    forall n :: NameFollows(chain, nameOf, db, n)
  }

  /** A first part of the extracted list says of a name nothing, or what the whole block says. */
  lemma PrefixGives(nameOf: string -> string, block: Block, part: seq<Record>, n: string)
    requires Injective(nameOf) && part <= Extract(block)
    ensures Given(nameOf, part, n).None? || Given(nameOf, part, n) == Given(nameOf, Raw(block), n)
  {
    if Given(nameOf, part, n).Some? {
      var out, order := Extract(block), Noted(Raw(block)).order;
      var i := GivenBy(nameOf, part, n);
      GivenTo(nameOf, out, i);
      var k := GivenBy(nameOf, out, n);
      ExtractedAt(block);
      assert order[i] in order && order[k] in order;
      assert out[i].hash == order[i] && out[k].hash == order[k];
      ExtractGives(nameOf, block, n);
    }
  }

  /** Writing part of a list that agrees with the whole takes a name, at most, to where the whole takes it. */
  lemma PartPut(nameOf: string -> string, names: map<string, Info>, was: map<string, Info>,
                part: seq<Record>, all: seq<Record>, h: nat, n: string)
    requires Given(nameOf, part, n).None? || Given(nameOf, part, n) == Given(nameOf, all, n)
    requires Lookup(names, n) == Lookup(was, n) || Lookup(names, n) == Lookup(Put(nameOf, was, all, h), n)
    ensures var now := Put(nameOf, names, part, h);
            Lookup(now, n) == Lookup(was, n) || Lookup(now, n) == Lookup(Put(nameOf, was, all, h), n)
  {
    PutLookup(nameOf, names, part, h, n);
    PutLookup(nameOf, was, all, h, n);
  }

  /** Writing such a part of the next block moves no name anywhere but to its next value. */
  lemma PartialFollows(chain: nat -> Block, nameOf: string -> string, db: NameDb, part: seq<Record>, n: string)
    requires NameFollows(chain, nameOf, db, n)
    requires Given(nameOf, part, n).None? || Given(nameOf, part, n) == Given(nameOf, Raw(chain(db.height + 1)), n)
    ensures NameFollows(chain, nameOf, db.(names := Put(nameOf, db.names, part, db.height + 1)), n)
  {
    PartPut(nameOf, db.names, Replay(chain, nameOf, db.height), part, Raw(chain(db.height + 1)), db.height + 1, n);
  }

  /** Writing all of them completes the block, whatever part of it was there already. */
  lemma WholeFollows(chain: nat -> Block, nameOf: string -> string, db: NameDb)
    requires Injective(nameOf) && Follows(chain, nameOf, db)
    ensures Put(nameOf, db.names, Extract(chain(db.height + 1)), db.height + 1) == Replay(chain, nameOf, db.height + 1)
  {
    var h, block := db.height + 1, chain(db.height + 1);
    var now, due := Put(nameOf, db.names, Extract(block), h), Replay(chain, nameOf, h);
    forall n: string
      ensures Lookup(now, n) == Lookup(due, n)
    {
      assert NameFollows(chain, nameOf, db, n);
      PutLookup(nameOf, db.names, Extract(block), h, n);
      PutLookup(nameOf, Replay(chain, nameOf, db.height), Raw(block), h, n);
      ExtractGives(nameOf, block, n);
    }
    SameLookups(now, due);
  }

  /** Importing the next block, with any failure but a lost commit, keeps the names in step with the height. */
  lemma ImportFollows(chain: nat -> Block, nameOf: string -> string, db: NameDb, last: bool, fault: Fault)
    requires Injective(nameOf) && Follows(chain, nameOf, db) && !fault.LostCommit?
    ensures var r := Import(nameOf, db, Extract(chain(db.height + 1)), db.height + 1, last, fault);
            && Follows(chain, nameOf, r.db)
            && db.height <= r.db.height <= db.height + 1
            && (r.ok ==> r.db.height == db.height + 1 && r.db.names == Replay(chain, nameOf, db.height + 1))
  {
    var rs := Extract(chain(db.height + 1));
    var e := ExtentOf(|rs|, last, fault);
    var db' := Import(nameOf, db, rs, db.height + 1, last, fault).db;
    if e.raised {
      assert rs[..e.puts] == rs;
      WholeFollows(chain, nameOf, db);
    } else {
      forall n: string
        ensures NameFollows(chain, nameOf, db', n)
      {
        assert NameFollows(chain, nameOf, db, n);
        PrefixGives(nameOf, chain(db.height + 1), rs[..e.puts], n);
        PartialFollows(chain, nameOf, db, rs[..e.puts], n);
      }
    }
  }

  // ---------------------------------------------------------------- one synchronisation

  /** What stays fixed between calls: the confirmed chain, the name lookup and the settings. */
  datatype Params = Params(chain: nat -> Block, nameOf: string -> string, depth: int, workers: nat)

  /** One call of `doSync`: the chain height reported, if any, and what fails on the way. */
  datatype Call = Call(tip: Option<int>, fault: nat -> Fault, fetchFails: nat -> bool)

  /** Importing one block, as a function of the store and the block's height. */
  type Importing = (NameDb, nat) -> Imported

  function ImportingOf(p: Params, call: Call, confirmed: nat): Importing {
    (db: NameDb, h: nat) => Import(p.nameOf, db, Extract(p.chain(h)), h, h == confirmed - 1, call.fault(h))
  }

  /** Blocks `h` to `end - 1`, one after the other, until one fails. */
  function ImportFrom(imp: Importing, db: NameDb, h: nat, end: nat): Imported
    decreases end - h
  {
    if h >= end then Imported(db, true)
    else
      var r := imp(db, h);
      if r.ok then ImportFrom(imp, r.db, h + 1, end) else r
  }

  function Delta(workers: nat, confirmed: nat, h: nat): nat
    requires h <= confirmed
  {
    if confirmed - h > workers then workers else confirmed - h
  }

  /** The outer loop: blocks are fetched a batch at a time, and a batch with a failed fetch is not imported at all. */
  function Batches(imp: Importing, fetchFails: nat -> bool, workers: nat, confirmed: nat, db: NameDb, h: nat): Imported
    requires workers >= 1
    decreases confirmed - h
  {
    if h >= confirmed then Imported(db, true)
    else if fetchFails(h) then Imported(db, false)
    else
      var next := h + Delta(workers, confirmed, h);
      var r := ImportFrom(imp, db, h, next);
      if r.ok then Batches(imp, fetchFails, workers, confirmed, r.db, next) else r
  }

  /** The call finds a chain with confirmed blocks beyond the stored height. */
  predicate Due(p: Params, call: Call, db: NameDb) {
    call.tip.Some? && 0 <= call.tip.value && p.depth <= call.tip.value && db.height < call.tip.value - p.depth
  }

  /** `doSync`; the block at the confirmed height itself is left for a later call. */
  function Sync(p: Params, call: Call, db: NameDb): NameDb
    requires p.workers >= 1
  {
    if !Due(p, call, db) then db
    else
      var confirmed := call.tip.value - p.depth;
      Batches(ImportingOf(p, call, confirmed), call.fetchFails, p.workers, confirmed, db, db.height + 1).db
  }

  lemma {:induction false} ImportFromConcat(imp: Importing, db: NameDb, h: nat, mid: nat, end: nat)
    requires h <= mid <= end
    ensures var r := ImportFrom(imp, db, h, mid);
            ImportFrom(imp, db, h, end) == if r.ok then ImportFrom(imp, r.db, mid, end) else r
    decreases mid - h
  {
    if h < mid {
      var r := imp(db, h);
      if r.ok {
        ImportFromConcat(imp, r.db, h + 1, mid, end);
      }
    }
  }

  /**
   Importing in batches does what importing one block at a time does, up to some block; it
   goes all the way, whatever the batch size, when no fetch fails.
   */
  lemma {:induction false} BatchesAreSequential(imp: Importing, fetchFails: nat -> bool, workers: nat, confirmed: nat,
                                                db: NameDb, h: nat) returns (stop: nat)
    requires workers >= 1 && h <= confirmed
    ensures h <= stop <= confirmed
    ensures Batches(imp, fetchFails, workers, confirmed, db, h).db == ImportFrom(imp, db, h, stop).db
    ensures (forall k :: !fetchFails(k)) ==>
              stop == confirmed && Batches(imp, fetchFails, workers, confirmed, db, h) == ImportFrom(imp, db, h, stop)
    decreases confirmed - h
  {
    stop := h;
    if h < confirmed && !fetchFails(h) {
      var next := h + Delta(workers, confirmed, h);
      var r := ImportFrom(imp, db, h, next);
      if r.ok {
        stop := BatchesAreSequential(imp, fetchFails, workers, confirmed, r.db, next);
      } else {
        stop := confirmed;
      }
      ImportFromConcat(imp, db, h, next, stop);
    }
  }

  ghost predicate NoLostCommit(call: Call) {
    forall h :: !call.fault(h).LostCommit?
  }

  /** What importing from `db` towards block `end` promises of its result. */
  ghost predicate Advances(p: Params, db: NameDb, r: Imported, end: nat) {
    && Follows(p.chain, p.nameOf, r.db)
    && db.height <= r.db.height && (r.db.height == db.height || r.db.height < end)
    && (r.ok && db.height + 1 < end ==>
          r.db.height == end - 1 && r.db.names == Replay(p.chain, p.nameOf, end - 1))
  }

  ghost predicate SteadyAt(p: Params, imp: Importing, db: NameDb) {
    Follows(p.chain, p.nameOf, db) ==> Advances(p, db, imp(db, db.height + 1), db.height + 2)
  }

  /** Every import of the next block advances. */
  ghost predicate Steady(p: Params, imp: Importing) {
    forall db: NameDb :: SteadyAt(p, imp, db)
  }

  lemma ImportSteadyAt(p: Params, call: Call, confirmed: nat, db: NameDb)
    requires Injective(p.nameOf) && !call.fault(db.height + 1).LostCommit?
    ensures SteadyAt(p, ImportingOf(p, call, confirmed), db)
  {
    var h := db.height + 1;
    if Follows(p.chain, p.nameOf, db) {
      var r := Import(p.nameOf, db, Extract(p.chain(h)), h, h == confirmed - 1, call.fault(h));
      ImportFollows(p.chain, p.nameOf, db, h == confirmed - 1, call.fault(h));
      assert ImportingOf(p, call, confirmed)(db, h) == r;
      assert Advances(p, db, r, h + 1);
    }
  }

  lemma ImportSteady(p: Params, call: Call, confirmed: nat)
    requires Injective(p.nameOf) && NoLostCommit(call)
    ensures Steady(p, ImportingOf(p, call, confirmed))
  {
    forall db: NameDb
      ensures SteadyAt(p, ImportingOf(p, call, confirmed), db)
    {
      ImportSteadyAt(p, call, confirmed, db);
    }
  }

  lemma {:induction false} ImportFromAdvances(p: Params, imp: Importing, db: NameDb, end: nat)
    requires Steady(p, imp) && Follows(p.chain, p.nameOf, db)
    ensures Advances(p, db, ImportFrom(imp, db, db.height + 1, end), end)
    decreases end - db.height
  {
    var h := db.height + 1;
    if h < end {
      var r := imp(db, h);
      assert SteadyAt(p, imp, db);
      if r.ok {
        ImportFromAdvances(p, imp, r.db, end);
      }
    }
  }

  lemma BatchesFollow(p: Params, imp: Importing, fetchFails: nat -> bool, confirmed: nat, db: NameDb)
    requires p.workers >= 1 && Steady(p, imp) && Follows(p.chain, p.nameOf, db) && db.height < confirmed
    ensures var db' := Batches(imp, fetchFails, p.workers, confirmed, db, db.height + 1).db;
            Follows(p.chain, p.nameOf, db') && db.height <= db'.height
  {
    var stop := BatchesAreSequential(imp, fetchFails, p.workers, confirmed, db, db.height + 1);
    ImportFromAdvances(p, imp, db, stop);
  }

  lemma SyncFollows(p: Params, call: Call, db: NameDb)
    requires p.workers >= 1 && Injective(p.nameOf) && NoLostCommit(call) && Follows(p.chain, p.nameOf, db)
    ensures Follows(p.chain, p.nameOf, Sync(p, call, db)) && db.height <= Sync(p, call, db).height
  {
    if Due(p, call, db) {
      var confirmed: nat := call.tip.value - p.depth;
      var imp := ImportingOf(p, call, confirmed);
      ImportSteady(p, call, confirmed);
      BatchesFollow(p, imp, call.fetchFails, confirmed, db);
      assert Sync(p, call, db) == Batches(imp, call.fetchFails, p.workers, confirmed, db, db.height + 1).db;
    }
  }

  predicate ReliableAt(imp: Importing, confirmed: nat, db: NameDb, h: nat) {
    imp(db, h).ok && (h == confirmed - 1 ==> imp(db, h).db.complete)
  }

  /** No import fails, and the last one completes the initial import. */
  ghost predicate Reliable(imp: Importing, confirmed: nat) {
    forall db, h :: ReliableAt(imp, confirmed, db, h)
  }

  lemma {:induction false} AllImported(imp: Importing, confirmed: nat, db: NameDb, h: nat)
    requires h < confirmed && Reliable(imp, confirmed)
    ensures var r := ImportFrom(imp, db, h, confirmed); r.ok && r.db.complete
    decreases confirmed - h
  {
    var r := imp(db, h);
    assert ReliableAt(imp, confirmed, db, h);
    if h + 1 < confirmed {
      AllImported(imp, confirmed, r.db, h + 1);
    }
  }

  lemma BatchesCatchUp(p: Params, imp: Importing, fetchFails: nat -> bool, confirmed: nat, db: NameDb)
    requires p.workers >= 1 && Steady(p, imp) && Reliable(imp, confirmed) && Follows(p.chain, p.nameOf, db)
    requires (forall h :: !fetchFails(h)) && db.height + 1 < confirmed
    ensures Batches(imp, fetchFails, p.workers, confirmed, db, db.height + 1).db
         == NameDb(Replay(p.chain, p.nameOf, confirmed - 1), confirmed - 1, true)
  {
    var stop := BatchesAreSequential(imp, fetchFails, p.workers, confirmed, db, db.height + 1);
    ImportFromAdvances(p, imp, db, confirmed);
    AllImported(imp, confirmed, db, db.height + 1);
  }

  /** A call in which nothing fails brings the names exactly to the last block before the confirmed height. */
  lemma CleanSyncCatchesUp(p: Params, call: Call, db: NameDb)
    requires p.workers >= 1 && Injective(p.nameOf) && Follows(p.chain, p.nameOf, db)
    requires (forall h :: call.fault(h) == NoFault) && (forall h :: !call.fetchFails(h))
    requires Due(p, call, db) && db.height + 1 < call.tip.value - p.depth
    ensures var last := call.tip.value - p.depth - 1;
            Sync(p, call, db) == NameDb(Replay(p.chain, p.nameOf, last), last, true)
  {
    var confirmed := call.tip.value - p.depth;
    ImportSteady(p, call, confirmed);
    BatchesCatchUp(p, ImportingOf(p, call, confirmed), call.fetchFails, confirmed, db);
  }

  lemma {:induction false} CompleteAtLast(p: Params, call: Call, confirmed: nat, db: NameDb, h: nat, end: nat)
    requires !db.complete && db.height < h <= end <= confirmed && db.height + 1 < confirmed
    ensures var db' := ImportFrom(ImportingOf(p, call, confirmed), db, h, end).db;
            && db'.height < end
            && (db'.complete <==> db'.height == confirmed - 1 && call.fault(confirmed - 1) != FlagFails)
    decreases end - h
  {
    if h < end {
      var r := Import(p.nameOf, db, Extract(p.chain(h)), h, h == confirmed - 1, call.fault(h));
      assert ImportingOf(p, call, confirmed)(db, h) == r;
      if r.ok && h + 1 < confirmed {
        CompleteAtLast(p, call, confirmed, r.db, h + 1, end);
      }
    }
  }

  /**
   The initial import counts as complete exactly from the call on that imports the last
   block before its confirmed height, unless setting the flag itself fails there.
   */
  lemma CompleteExactly(p: Params, call: Call, db: NameDb)
    requires p.workers >= 1 && !db.complete && Due(p, call, db) && db.height + 1 < call.tip.value - p.depth
    ensures var last := call.tip.value - p.depth - 1;
            Sync(p, call, db).complete <==> Sync(p, call, db).height == last && call.fault(last) != FlagFails
  {
    var confirmed: nat := call.tip.value - p.depth;
    var imp := ImportingOf(p, call, confirmed);
    var stop := BatchesAreSequential(imp, call.fetchFails, p.workers, confirmed, db, db.height + 1);
    CompleteAtLast(p, call, confirmed, db, db.height + 1, stop);
    assert Sync(p, call, db) == Batches(imp, call.fetchFails, p.workers, confirmed, db, db.height + 1).db;
  }

  const START: NameDb := NameDb(map[], 0, false)

  function Run(p: Params, calls: seq<Call>): NameDb
    requires p.workers >= 1
  {
    if calls == [] then START else Sync(p, calls[|calls| - 1], Run(p, calls[..|calls| - 1]))
  }

  /**
   After any number of calls, each stopped anywhere by any failure but a lost commit, every
   name has its value at the stored height or already the one the next block gives it.
   */
  lemma {:induction false} NamesFollowChain(p: Params, calls: seq<Call>)
    requires p.workers >= 1 && Injective(p.nameOf)
    requires forall i :: 0 <= i < |calls| ==> NoLostCommit(calls[i])
    ensures Follows(p.chain, p.nameOf, Run(p, calls))
    decreases |calls|
  {
    if calls == [] {
      forall n: string
        ensures NameFollows(p.chain, p.nameOf, START, n)
      {
      }
    } else {
      NamesFollowChain(p, calls[..|calls| - 1]);
      SyncFollows(p, calls[|calls| - 1], Run(p, calls[..|calls| - 1]));
    }
  }

  // ---------------------------------------------------------------- lost commits

  lemma ImportLost(nameOf: string -> string, db: NameDb, rs: seq<Record>, h: nat, last: bool)
    ensures Import(nameOf, db, rs, h, last, LostCommit) == Imported(db, true)
  {
  }

  lemma ImportWhole(nameOf: string -> string, db: NameDb, rs: seq<Record>, h: nat, last: bool)
    ensures Import(nameOf, db, rs, h, last, NoFault)
         == Imported(NameDb(Put(nameOf, db.names, rs, h), h, db.complete || last), true)
  {
    assert rs[..|rs|] == rs;
  }

  /** The name's entries when the blocks up to `h` are imported from `names` on, those in `lost` without effect. */
  function Kept(chain: nat -> Block, nameOf: string -> string, names: map<string, Info>, lost: nat -> bool, from: nat, h: nat): map<string, Info> {
    if h <= from then names
    else if lost(h) then Kept(chain, nameOf, names, lost, from, h - 1)
    else Put(nameOf, Kept(chain, nameOf, names, lost, from, h - 1), Raw(chain(h)), h)
  }

  /** The last of the blocks that gives the name anything is a lost one. */
  predicate LostLast(chain: nat -> Block, nameOf: string -> string, lost: nat -> bool, from: nat, h: nat, n: string) {
    h > from && (if Given(nameOf, Raw(chain(h)), n).Some? then lost(h) else LostLast(chain, nameOf, lost, from, h - 1, n))
  }

  /** For every name, the last block that gives it anything was not lost. */
  ghost predicate NoneLostLast(chain: nat -> Block, nameOf: string -> string, lost: nat -> bool, from: nat, h: nat) {
    forall n :: !LostLast(chain, nameOf, lost, from, h, n)
  }

  lemma {:induction false} KeptHeights(chain: nat -> Block, nameOf: string -> string, names: map<string, Info>, lost: nat -> bool, from: nat, h: nat, n: string)
    requires from <= h && (Lookup(names, n).Some? ==> Lookup(names, n).value.height <= from)
    ensures var now := Kept(chain, nameOf, names, lost, from, h); Lookup(now, n).Some? ==> Lookup(now, n).value.height <= h
  {
    if h > from {
      KeptHeights(chain, nameOf, names, lost, from, h - 1, n);
      PutLookup(nameOf, Kept(chain, nameOf, names, lost, from, h - 1), Raw(chain(h)), h, n);
    }
  }

  lemma {:induction false} ReplayHeights(chain: nat -> Block, nameOf: string -> string, h: nat, n: string)
    ensures Lookup(Replay(chain, nameOf, h), n).Some? ==> Lookup(Replay(chain, nameOf, h), n).value.height <= h
  {
    if h > 0 {
      PutLookup(nameOf, Replay(chain, nameOf, h - 1), Raw(chain(h)), h, n);
      ReplayHeights(chain, nameOf, h - 1, n);
    }
  }

  /** One more block, lost or not, on top of entries that are older than it. */
  lemma OneMore(nameOf: string -> string, before: map<string, Info>, due: map<string, Info>, rs: seq<Record>, h: nat, lost: bool, n: string)
    requires Lookup(before, n).Some? ==> Lookup(before, n).value.height < h
    ensures Lookup(if lost then before else Put(nameOf, before, rs, h), n) == Lookup(Put(nameOf, due, rs, h), n)
       <==> if Given(nameOf, rs, n).Some? then !lost else Lookup(before, n) == Lookup(due, n)
  {
    PutLookup(nameOf, before, rs, h, n);
    PutLookup(nameOf, due, rs, h, n);
  }

  /** One name is right exactly when the last block that gives it was not lost. */
  lemma {:induction false} KeptExactly(chain: nat -> Block, nameOf: string -> string, lost: nat -> bool, from: nat, h: nat, n: string)
    requires from <= h
    ensures Lookup(Kept(chain, nameOf, Replay(chain, nameOf, from), lost, from, h), n) == Lookup(Replay(chain, nameOf, h), n)
       <==> !LostLast(chain, nameOf, lost, from, h, n)
  {
    if h > from {
      var start := Replay(chain, nameOf, from);
      KeptExactly(chain, nameOf, lost, from, h - 1, n);
      ReplayHeights(chain, nameOf, from, n);
      KeptHeights(chain, nameOf, start, lost, from, h - 1, n);
      OneMore(nameOf, Kept(chain, nameOf, start, lost, from, h - 1), Replay(chain, nameOf, h - 1), Raw(chain(h)), h, lost(h), n);
    }
  }

  predicate LosingAt(p: Params, imp: Importing, lost: nat -> bool, db: NameDb, h: nat) {
    && imp(db, h).ok
    && imp(db, h).db.names == if lost(h) then db.names else Put(p.nameOf, db.names, Extract(p.chain(h)), h)
  }

  /** Every import reports success, and those in `lost` have no effect on the names. */
  ghost predicate Losing(p: Params, imp: Importing, lost: nat -> bool) {
    forall db, h :: LosingAt(p, imp, lost, db, h)
  }

  /** The importer goes on past lost commits, and keeps what the others bring. */
  lemma {:induction false} ImportKeeps(p: Params, imp: Importing, lost: nat -> bool, db: NameDb, from: nat, h: nat)
    requires Injective(p.nameOf) && from <= h && Losing(p, imp, lost)
    ensures var r := ImportFrom(imp, db, from + 1, h + 1);
            r.ok && r.db.names == Kept(p.chain, p.nameOf, db.names, lost, from, h)
  {
    if h > from {
      ImportKeeps(p, imp, lost, db, from, h - 1);
      ImportFromConcat(imp, db, from + 1, h, h + 1);
      var before := ImportFrom(imp, db, from + 1, h).db;
      assert LosingAt(p, imp, lost, before, h);
      ExtractSuffices(p.nameOf, before.names, p.chain(h), h);
      assert ImportFrom(imp, imp(before, h).db, h + 1, h + 1) == Imported(imp(before, h).db, true);
    }
  }

  /** Whether the call's commit of a block is lost. */
  function Losses(call: Call): nat -> bool {
    (h: nat) => call.fault(h).LostCommit?
  }

  lemma CallLoses(p: Params, call: Call, confirmed: nat)
    requires forall k :: call.fault(k).NoFault? || call.fault(k).LostCommit?
    ensures Losing(p, ImportingOf(p, call, confirmed), Losses(call))
  {
    forall db: NameDb, h: nat
      ensures LosingAt(p, ImportingOf(p, call, confirmed), Losses(call), db, h)
    {
      ImportLost(p.nameOf, db, Extract(p.chain(h)), h, h == confirmed - 1);
      ImportWhole(p.nameOf, db, Extract(p.chain(h)), h, h == confirmed - 1);
    }
  }

  lemma GapsExactly(p: Params, imp: Importing, lost: nat -> bool, db: NameDb, h: nat)
    requires Injective(p.nameOf) && Losing(p, imp, lost)
    requires db.height <= h && db.names == Replay(p.chain, p.nameOf, db.height)
    ensures var r := ImportFrom(imp, db, db.height + 1, h + 1);
            && r.ok
            && (r.db.names == Replay(p.chain, p.nameOf, h) <==> NoneLostLast(p.chain, p.nameOf, lost, db.height, h))
  {
    ImportKeeps(p, imp, lost, db, db.height, h);
    var names, due := ImportFrom(imp, db, db.height + 1, h + 1).db.names, Replay(p.chain, p.nameOf, h);
    forall n: string
      ensures Lookup(names, n) == Lookup(due, n) <==> !LostLast(p.chain, p.nameOf, lost, db.height, h, n)
    {
      KeptExactly(p.chain, p.nameOf, lost, db.height, h, n);
    }
    if names == due {
      forall n: string
        ensures !LostLast(p.chain, p.nameOf, lost, db.height, h, n)
      {
        assert Lookup(names, n) == Lookup(due, n);
      }
    } else if NoneLostLast(p.chain, p.nameOf, lost, db.height, h) {
      SameLookups(names, due);
    }
  }

  /**
   A commit lost without an error is not retried: the loop goes on, and later commits move
   the height past the missing block. However many are lost on the way, the names are right
   in the end if and only if for every name the last block that gives it anything was not lost.
   */
  lemma LostCommitsLeaveGaps(p: Params, call: Call, confirmed: nat, db: NameDb, h: nat)
    requires Injective(p.nameOf) && db.height <= h && db.names == Replay(p.chain, p.nameOf, db.height)
    requires forall k :: call.fault(k).NoFault? || call.fault(k).LostCommit?
    ensures var r := ImportFrom(ImportingOf(p, call, confirmed), db, db.height + 1, h + 1);
            && r.ok
            && (r.db.names == Replay(p.chain, p.nameOf, h)
                <==> NoneLostLast(p.chain, p.nameOf, Losses(call), db.height, h))
  {
    CallLoses(p, call, confirmed);
    GapsExactly(p, ImportingOf(p, call, confirmed), Losses(call), db, h);
  }

  /** An iteration of the loop moves on exactly when there is a worker; without one it would never end. */
  lemma WorkersMoveOn(workers: nat, confirmed: nat, h: nat)
    requires h < confirmed
    ensures h + Delta(workers, confirmed, h) > h <==> workers >= 1
  {
  }

  // ---------------------------------------------------------------- the object

  class Importer {
    const params: Params
    var names: map<string, Info>
    var height: nat
    var complete: bool

    ghost function State(): NameDb
      reads this
    {
      NameDb(names, height, complete)
    }

    constructor (params: Params)
      ensures this.params == params && State() == START
    {
      this.params := params;
      names, height, complete := map[], 0, false;
    }

    method ImportBlock(rs: seq<Record>, h: nat, last: bool, fault: Fault) returns (ok: bool)
      modifies this
      ensures Imported(State(), ok) == Import(params.nameOf, old(State()), rs, h, last, fault)
    {
      if (fault.Unresolved? && rs != []) || fault.NotOpened? {
        return false;
      }
      // The transaction's view; it is committed on every path unless the commit is lost.
      var txNames, txHeight, txComplete := names, height, complete;
      ok := true;
      var i := 0;
      while i < |rs| && ok
        invariant 0 <= i <= |rs| && unchanged(this)
        invariant txNames == Put(params.nameOf, names, rs[..i], h)
        invariant ok && fault.PutFails? ==> i <= fault.j
        invariant !ok ==> fault.PutFails? && i == fault.j && i < |rs|
        decreases |rs| - i, ok
      {
        if fault == PutFails(i) {
          ok := false;
        } else {
          assert rs[..i + 1][..i] == rs[..i];
          txNames := txNames[params.nameOf(rs[i].hash) := Info(rs[i].key, h)];
          i := i + 1;
        }
      }
      if ok && fault.HeightFails? {
        ok := false;
      } else if ok {
        txHeight := h;
        if last {
          ok := !fault.FlagFails?;
          txComplete := txComplete || ok;
        }
      }
      if !fault.LostCommit? {
        names, height, complete := txNames, txHeight, txComplete;
      }
    }

    /** `doSync`: batches of at most `workers` blocks, up to the block before the confirmed height. */
    method DoSync(call: Call)
      requires params.workers >= 1
      modifies this
      ensures State() == Sync(params, call, old(State()))
    {
      if call.tip.None? || call.tip.value < 0 || call.tip.value < params.depth {
        return;
      }
      var confirmed := call.tip.value - params.depth;
      if confirmed <= height {
        return;
      }
      ghost var imp := ImportingOf(params, call, confirmed);
      var h := height + 1;
      while h < confirmed
        invariant h <= confirmed
        invariant Batches(imp, call.fetchFails, params.workers, confirmed, old(State()), old(height) + 1)
               == Batches(imp, call.fetchFails, params.workers, confirmed, State(), h)
      {
        if call.fetchFails(h) {
          return;
        }
        var delta := confirmed - h;
        if delta > params.workers {
          delta := params.workers;
        }
        var ok := ImportBatch(call, confirmed, h, delta);
        if !ok {
          return;
        }
        h := h + delta;
      }
    }

    /** The inner loop over the blocks of one batch. */
    method ImportBatch(call: Call, confirmed: nat, h: nat, delta: nat) returns (ok: bool)
      modifies this
      ensures Imported(State(), ok) == ImportFrom(ImportingOf(params, call, confirmed), old(State()), h, h + delta)
    {
      ghost var imp := ImportingOf(params, call, confirmed);
      var i := 0;
      while i < delta
        invariant 0 <= i <= delta
        invariant ImportFrom(imp, old(State()), h, h + delta) == ImportFrom(imp, State(), h + i, h + delta)
      {
        ghost var before := State();
        var rs := ExtractRecords(params.chain(h + i));
        ok := ImportBlock(rs, h + i, h + i == confirmed - 1, call.fault(h + i));
        assert Imported(State(), ok) == imp(before, h + i);
        if !ok {
          return;
        }
        i := i + 1;
      }
      ok := true;
    }
  }
}
