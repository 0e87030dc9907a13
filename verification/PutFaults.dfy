/** What is left of a name's index when storing a header and publishing its blob meets a database fault. */
module PutFaults {
  import opened Basics
  import opened HashChain
  import opened BlobTx
  import opened HeaderStore

  /** The file after a store that reported success, or failure. */
  function FileAfter(was: seq<Sector>, clone: seq<Sector>, ok: bool): seq<Sector> {
    if ok then Overwrite(was, clone) else was
  }

  /** The first write and publication of `content`, whose clone is `clone`, over the file `was`. */
  ghost predicate Storing(db: Db, h: Header, was: seq<Sector>, content: seq<Sector>, clone: seq<Sector>) {
    && Indexes(db, h.name, was)
    && |content| == h.size <= MAX_SECTORS && h.tip == Fold(Zero, content)
    && Sized(clone) && content <= clone
  }

  /** When the index survives a database fault that strikes while `content` is being stored over `was`. */
  predicate Survives(db: Db, name: string, fault: PutFault, was: seq<Sector>, content: seq<Sector>, clone: seq<Sector>)
    requires name in db.headers ==> db.headers[name].size <= |was| && db.headers[name].size <= |clone|
  {
    match fault
    case AllPut => true
    case FailTable => true
    case FailHeader => name in db.headers ==> content == was[..db.headers[name].size]
    case FailCount => name in db.headers || content <= was
    case LoseCommit => name in db.headers ==> clone[..db.headers[name].size] == was[..db.headers[name].size]
  }

  lemma OverwritePrefix(was: seq<Sector>, clone: seq<Sector>, n: nat)
    requires Sized(clone) && n <= MAX_SECTORS
    ensures Sized(Overwrite(was, clone)) && Overwrite(was, clone)[..n] == clone[..n]
  {
  }

  /** Header, table and blob all arrive. */
  lemma AllArrive(db: Db, h: Header, was: seq<Sector>, content: seq<Sector>, clone: seq<Sector>, fault: PutFault)
    requires Storing(db, h, was, content, clone) && (fault.AllPut? || (fault.FailCount? && h.name in db.headers))
    ensures var r := PutHeader(db, h, Table(content), fault); Indexes(r.0, h.name, FileAfter(was, clone, r.1))
  {
    OverwritePrefix(was, clone, h.size);
    assert clone[..h.size] == content;
  }

  /** Only the table is replaced. */
  lemma TableOnly(db: Db, h: Header, was: seq<Sector>, content: seq<Sector>, clone: seq<Sector>)
    requires Storing(db, h, was, content, clone)
    ensures var r := PutHeader(db, h, Table(content), FailHeader);
            Indexes(r.0, h.name, FileAfter(was, clone, r.1))
            <==> (h.name in db.headers ==> content == was[..db.headers[h.name].size])
  {
    if h.name in db.headers {
      TableInjective(content, was[..db.headers[h.name].size]);
    }
  }

  /** Header and table arrive for a new name, and the blob does not. */
  lemma Uncounted(db: Db, h: Header, was: seq<Sector>, content: seq<Sector>, clone: seq<Sector>)
    requires Storing(db, h, was, content, clone) && h.name !in db.headers
    ensures var r := PutHeader(db, h, Table(content), FailCount);
            Indexes(r.0, h.name, FileAfter(was, clone, r.1)) <==> content <= was
  {
    TableInjective(content, was[..h.size]);
  }

  /** The blob arrives, and header and table do not. */
  lemma BlobOnly(db: Db, h: Header, was: seq<Sector>, content: seq<Sector>, clone: seq<Sector>)
    requires Storing(db, h, was, content, clone)
    ensures var r := PutHeader(db, h, Table(content), LoseCommit);
            Indexes(r.0, h.name, FileAfter(was, clone, r.1))
            <==> (h.name in db.headers ==> clone[..db.headers[h.name].size] == was[..db.headers[h.name].size])
  {
    if h.name in db.headers {
      var n := db.headers[h.name].size;
      OverwritePrefix(was, clone, n);
      TableInjective(clone[..n], was[..n]);
    } else {
      OverwritePrefix(was, clone, 0);
    }
  }

  /**
   A failed transaction keeps its first writes, and a failed commit goes unnoticed. The index
   survives in exactly the cases of `Survives`.
   */
  lemma SurvivesExactly(db: Db, h: Header, was: seq<Sector>, content: seq<Sector>, clone: seq<Sector>, fault: PutFault)
    requires Storing(db, h, was, content, clone)
    ensures var r := PutHeader(db, h, Table(content), fault);
            Indexes(r.0, h.name, FileAfter(was, clone, r.1)) <==> Survives(db, h.name, fault, was, content, clone)
  {
    match fault
    case AllPut => AllArrive(db, h, was, content, clone, fault);
    case FailTable =>
    case FailHeader => TableOnly(db, h, was, content, clone);
    case FailCount =>
      if h.name in db.headers {
        AllArrive(db, h, was, content, clone, fault);
      } else {
        Uncounted(db, h, was, content, clone);
      }
    case LoseCommit => BlobOnly(db, h, was, content, clone);
  }

  // ---------------------------------------------------------------- each of them strikes

  const NAME: string := "a"

  function OnesSector(): Sector {
    seq(SECTOR_BYTES, _ => 1)
  }

  function OneHeader(x: Sector, sig: Signature): Header {
    Header(NAME, 0, 1, Node(Zero, x), sig, Zero, ZERO_TIME)
  }

  /** The name has a blob of one zero sector. */
  function ZeroStored(sig: Signature): Db {
    EMPTY_DB.(headers := map[NAME := OneHeader(ZeroSector(), sig)], tables := map[NAME := Table([ZeroSector()])], count := 1)
  }

  /**
   Every fault but a failed first write can cost the index: storing a sector of ones over the
   zero sector, or for the first time when it is the count that fails.
   */
  lemma FaultsStrike(fault: PutFault, sig: Signature)
    requires fault.FailHeader? || fault.FailCount? || fault.LoseCommit?
    ensures var db := if fault.FailCount? then EMPTY_DB else ZeroStored(sig);
            var was := Zeros(MAX_SECTORS);
            var clone, h := was[0 := OnesSector()], OneHeader(OnesSector(), sig);
            var r := PutHeader(db, h, Table([OnesSector()]), fault);
            && Storing(db, h, was, [OnesSector()], clone)
            && !Indexes(r.0, NAME, FileAfter(was, clone, r.1))
  {
    var db := if fault.FailCount? then EMPTY_DB else ZeroStored(sig);
    var was := Zeros(MAX_SECTORS);
    var clone, h := was[0 := OnesSector()], OneHeader(OnesSector(), sig);
    assert was[..1] == [ZeroSector()] && clone[..1] == [OnesSector()];
    assert [ZeroSector()][..0] == [] && [OnesSector()][..0] == [];
    assert ZeroSector()[0] == 0 && OnesSector()[0] == 1;
    assert [ZeroSector()] != [OnesSector()];
    SurvivesExactly(db, h, was, [OnesSector()], clone, fault);
  }
}
