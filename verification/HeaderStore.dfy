/** The node database: headers, their sector-hash tables, bans, equivocation proofs and known keys. */
module HeaderStore {
  import opened Basics
  import opened HashChain

  datatype PubKey = PubKey(id: nat)
  datatype Signature = Signature(id: nat)

  /** What `SealHash` commits to; a free term, so distinct updates have distinct seals. */
  datatype Seal = Seal(name: string, epoch: U16, size: U16, tip: Hash, root: Hash)

  /** Library code the node calls: signature checks, name validation and name hashing. */
  datatype World = World(
    verify: (PubKey, Signature, Seal) -> bool,
    validName: string -> bool,
    hashName: string -> seq<Byte>)

  /** The holder of a key, who can sign any seal with it. */
  datatype Owner = Owner(key: PubKey, sign: Seal -> Signature)

  ghost predicate Signs(w: World, o: Owner) {
    forall seal :: w.verify(o.key, o.sign(seal), seal)
  }

  datatype Header = Header(name: string, epoch: U16, size: U16, tip: Hash, sig: Signature, root: Hash, startAt: Time)

  datatype Proof = Proof(
    name: string,
    remoteEpoch: U16, remotePosition: U16, remotePrevHash: Hash, remoteRoot: Hash,
    remotePayload: seq<Sector>, remoteSig: Signature,
    localEpoch: U16, localSize: U16, localTip: Hash, localRoot: Hash, localSig: Signature)

  datatype Db = Db(
    headers: map<string, Header>,
    tables: map<string, seq<Hash>>,
    count: int,
    bans: map<string, Time>,
    proofs: map<string, Proof>,
    keys: map<string, PubKey>,
    bannedNames: set<string>)

  const EMPTY_DB: Db := Db(map[], map[], 0, map[], map[], map[], {})

  function LookupHeader(db: Db, name: string): Option<Header> {
    if name in db.headers then Some(db.headers[name]) else None
  }

  /** The zero time stands for "never banned". */
  function LookupBan(db: Db, name: string): Time {
    if name in db.bans then db.bans[name] else ZERO_TIME
  }

  /** `SetHeaderBan` with the zero time, which is the only way it is called. */
  function Ban(db: Db, name: string, now: Time): Db {
    db.(bans := db.bans[name := now])
  }

  function SealOf(h: Header): Seal {
    Seal(h.name, h.epoch, h.size, h.tip, h.root)
  }

  /** `validateBlobUpdate`: a valid, unbanned, known name whose key made the signature. */
  predicate ValidUpdate(w: World, db: Db, seal: Seal, sig: Signature) {
    && w.validName(seal.name)
    && seal.name !in db.bannedNames
    && seal.name in db.keys
    && w.verify(db.keys[seal.name], sig, seal)
  }

  /** The stored signature covers the stored header. */
  predicate SelfVerifying(w: World, db: Db, h: Header) {
    ValidUpdate(w, db, SealOf(h), h.sig)
  }

  /**
   The stored table is an index over the file: entry i is the chain hash of the first
   i+1 sectors below the header's size and zero above, and the tip covers exactly that many.
   */
  predicate Consistent(h: Header, table: seq<Hash>, file: seq<Sector>) {
    && |file| >= MAX_SECTORS && h.size <= MAX_SECTORS
    && table == Table(file[..h.size])
    && h.tip == Fold(Zero, file[..h.size])
  }

  /** Whatever the database holds for the name indexes the file. */
  predicate Indexes(db: Db, name: string, file: seq<Sector>) {
    && |file| >= MAX_SECTORS
    && (name in db.headers ==> name in db.tables && Consistent(db.headers[name], db.tables[name], file))
  }

  /**
   Which write of `SetHeaderTx` fails. `WithTx` commits the writes made before a failed
   one, and drops the error of a failed commit.
   */
  datatype PutFault = AllPut | FailTable | FailHeader | FailCount | LoseCommit

  function PutHeader(db: Db, h: Header, table: seq<Hash>, fault: PutFault): (Db, bool) {
    var isNew := h.name !in db.headers;
    var db1 := db.(tables := db.tables[h.name := table]);
    var db2 := db1.(headers := db.headers[h.name := h]);
    var db3 := if isNew then db2.(count := db.count + 1) else db2;
    match fault
    case AllPut => (db3, true)
    case FailTable => (db, false)
    case FailHeader => (db1, false)
    case FailCount => if isNew then (db2, false) else (db3, true)
    case LoseCommit => (db, true)
  }

  datatype HashLookup = Found(hash: Hash) | NoTable | IndexPanic

  /** `GetSectorHash`: one past the table panics; beyond that a nil error is wrapped and the zero hash returned. */
  function LookupHash(db: Db, name: string, index: U16): HashLookup {
    if name !in db.tables then NoTable
    else if index > |db.tables[name]| then Found(Zero)
    else if index == |db.tables[name]| then IndexPanic
    else Found(db.tables[name][index])
  }

  /** The header count is the number of headers as long as no write fails. */
  lemma CountFollows(db: Db, h: Header, table: seq<Hash>)
    requires db.count == |db.headers|
    ensures PutHeader(db, h, table, AllPut).0.count == |PutHeader(db, h, table, AllPut).0.headers|
  {
  }

  class Database {
    var headers: map<string, Header>
    var tables: map<string, seq<Hash>>
    var count: int
    var bans: map<string, Time>
    var proofs: map<string, Proof>
    var keys: map<string, PubKey>
    var bannedNames: set<string>

    ghost function State(): Db
      reads this
    {
      Db(headers, tables, count, bans, proofs, keys, bannedNames)
    }

    constructor ()
      ensures State() == EMPTY_DB
    {
      headers, tables, count, bans, proofs, keys, bannedNames := map[], map[], 0, map[], map[], map[], {};
    }

    method GetHeader(name: string) returns (h: Option<Header>)
      ensures h == LookupHeader(State(), name)
    {
      h := if name in headers then Some(headers[name]) else None;
    }

    method GetHeaderBan(name: string) returns (at: Time)
      ensures at == LookupBan(State(), name)
    {
      at := if name in bans then bans[name] else ZERO_TIME;
    }

    method SetHeaderBan(name: string, at: Time, now: Time)
      modifies this
      ensures State() == Ban(old(State()), name, if at == ZERO_TIME then now else at)
    {
      var stamp := at;
      if at == ZERO_TIME {
        stamp := now;
      }
      bans := bans[name := stamp];
    }

    method GetSectorHash(name: string, index: U16) returns (r: HashLookup)
      ensures r == LookupHash(State(), name, index)
    {
      if name !in tables {
        return NoTable;
      }
      if index > |tables[name]| {
        return Found(Zero);
      }
      if index == |tables[name]| {
        return IndexPanic;
      }
      r := Found(tables[name][index]);
    }

    method ValidateBlobUpdate(w: World, name: string, epoch: U16, size: U16, tip: Hash, root: Hash, sig: Signature)
      returns (ok: bool)
      ensures ok == ValidUpdate(w, State(), Seal(name, epoch, size, tip, root), sig)
    {
      if !w.validName(name) {
        return false;
      }
      if name in bannedNames {
        return false;
      }
      if name !in keys {
        return false;
      }
      ok := w.verify(keys[name], sig, Seal(name, epoch, size, tip, root));
    }

    /** `WithTx` around `SetHeaderTx` */
    method SetHeader(h: Header, table: seq<Hash>, fault: PutFault) returns (ok: bool)
      modifies this
      ensures (State(), ok) == PutHeader(old(State()), h, table, fault)
    {
      if fault.LoseCommit? {
        return true;
      }
      var known := h.name in headers;
      if fault.FailTable? {
        return false;
      }
      tables := tables[h.name := table];
      if fault.FailHeader? {
        return false;
      }
      headers := headers[h.name := h];
      if !known {
        if fault.FailCount? {
          return false;
        }
        count := count + 1;
      }
      ok := true;
    }

    method SetProof(name: string, proof: Proof)
      modifies this
      ensures State() == old(State()).(proofs := old(proofs)[name := proof])
    {
      proofs := proofs[name := proof];
    }
  }
}
