/** The serving side: blob requests (uncached path) and incoming equivocation proofs. */
module SectorServer {
  import opened Basics
  import opened HashChain
  import opened BlobTx
  import opened HeaderStore
  import opened Syncer
  import NameLocker

  datatype BlobReq = BlobReq(name: string, epoch: U16, size: U16)

  datatype Reply = NoReply | SectorReply(res: BlobRes) | ProofReply(proof: Proof) | ReplyPanic

  /** `GetSectorHash` of the sector before the requested one; a request from zero needs none. */
  function PrevHashFor(db: Db, req: BlobReq): HashLookup {
    if req.size == 0 then Found(Zero) else LookupHash(db, req.name, req.size - 1)
  }

  /** `sendResponse` leaves the reserved root zero. */
  function Response(req: BlobReq, header: Header, prevHash: Hash, sectors: seq<Sector>): BlobRes {
    BlobRes(req.name, header.epoch, req.size, prevHash, Zero, sectors, header.sig)
  }

  /** Sectors from .. to-1, unless they reach past the blob. */
  function Tail(base: File, from: nat, to: nat): Option<seq<Sector>> {
    if from >= to then Some([])
    else if to > MAX_SECTORS || to > |base.sectors| then None
    else Some(base.sectors[from..to])
  }

  /** A tail is read exactly if it is empty or ends inside blob and file, and then sector by sector. */
  lemma TailExactly(base: File, from: nat, to: nat)
    ensures Tail(base, from, to).Some? <==> from >= to || (to <= 4096 && to <= |base.sectors|)
    ensures var tail := Tail(base, from, to);
            tail.Some? ==>
              && |tail.value| == (if from < to then to - from else 0)
              && (forall i :: 0 <= i < |tail.value| ==> tail.value[i] == base.sectors[from + i])
  {
  }

  /** What `onBlobReq` answers when the name is not locked by a writer. */
  function Serve(db: Db, base: File, req: BlobReq): Reply {
    if req.name !in db.headers then NoReply
    else
      var header := db.headers[req.name];
      if header.epoch < req.epoch then NoReply
      else if req.size == MAX_SECTORS then
        if req.name in db.proofs then ProofReply(db.proofs[req.name]) else NoReply
      else
        match PrevHashFor(db, req)
        case NoTable => NoReply
        case IndexPanic => ReplyPanic
        case Found(prevHash) =>
          match Tail(base, req.size, header.size)
          case None => NoReply
          case Some(sectors) => SectorReply(Response(req, header, prevHash, sectors))
  }

  /**
   A consistent store answers a request below its size with the requested tail, announced
   by the chain hash of everything before it, so that hashing on from there reaches its tip.
   */
  lemma ServedTail(db: Db, base: File, req: BlobReq)
    requires req.name in db.headers && req.name in db.tables
    requires Consistent(db.headers[req.name], db.tables[req.name], base.sectors)
    requires req.epoch <= db.headers[req.name].epoch && req.size < db.headers[req.name].size
    ensures var h := db.headers[req.name];
            && Serve(db, base, req).SectorReply?
            && var res := Serve(db, base, req).res;
               && res.position == req.size && res.name == req.name && res.epoch == h.epoch && res.sig == h.sig
               && res.prevHash == Fold(Zero, base.sectors[..req.size])
               && base.sectors[..req.size] + res.payload == base.sectors[..h.size]
               && PayloadTip(res) == h.tip
               && PayloadSize(res) == h.size
  {
    var h := db.headers[req.name];
    var ss := base.sectors[..h.size];
    var before, tail := base.sectors[..req.size], base.sectors[req.size..h.size];
    assert ss == before + tail && ss[..req.size] == before;
    PrevHashServed(db, req, ss);
    FoldAppend(Zero, before, tail);
    assert Serve(db, base, req) == SectorReply(Response(req, h, Fold(Zero, before), tail));
  }

  /** A store with no header for the name, or only one of an earlier epoch, does not answer. */
  lemma Unanswered(db: Db, base: File, req: BlobReq)
    requires req.name in db.headers ==> db.headers[req.name].epoch < req.epoch
    ensures Serve(db, base, req) == NoReply
  {
  }

  /** A request at the blob size asks for the proof, and gets the one on record if there is one. */
  lemma ProofServed(db: Db, base: File, req: BlobReq)
    requires req.name in db.headers && req.epoch <= db.headers[req.name].epoch && req.size == MAX_SECTORS
    ensures Serve(db, base, req) == if req.name in db.proofs then ProofReply(db.proofs[req.name]) else NoReply
  {
  }

  /**
   Of a consistent store, requests at or past its size get an empty answer, which claims the
   tip at the size itself and the zero hash past it. One size past the blob's panics.
   */
  lemma ServedPastEnd(db: Db, base: File, req: BlobReq)
    requires req.name in db.headers && req.name in db.tables
    requires Consistent(db.headers[req.name], db.tables[req.name], base.sectors)
    requires req.epoch <= db.headers[req.name].epoch && db.headers[req.name].size <= req.size != MAX_SECTORS
    ensures var h := db.headers[req.name];
            Serve(db, base, req)
            == if req.size == MAX_SECTORS + 1 then ReplyPanic
               else SectorReply(BlobRes(req.name, h.epoch, req.size, if req.size == h.size then h.tip else Zero, Zero, [], h.sig))
  {
    var h, ss := db.headers[req.name], base.sectors[..db.headers[req.name].size];
    assert ss[..|ss|] == ss;
  }

  lemma PrevHashServed(db: Db, req: BlobReq, ss: seq<Sector>)
    requires |ss| <= MAX_SECTORS && req.size <= |ss|
    requires req.name in db.tables && db.tables[req.name] == Table(ss)
    ensures PrevHashFor(db, req) == Found(Fold(Zero, ss[..req.size]))
  {
  }

  /** The handler gets as far as taking the read lock. */
  predicate Locks(db: Db, req: BlobReq) {
    req.name in db.headers && req.epoch <= db.headers[req.name].epoch && req.size != MAX_SECTORS
  }

  /** It then looks the previous hash up, and fails there. */
  predicate FailsLocked(db: Db, req: BlobReq) {
    Locks(db, req) && !PrevHashFor(db, req).Found?
  }

  /** That is: the name has no table, or one that ends right before the sector looked up. */
  lemma FailsLockedWhen(db: Db, req: BlobReq)
    requires Locks(db, req)
    ensures FailsLocked(db, req) <==> req.size > 0 && (req.name in db.tables ==> |db.tables[req.name]| == req.size - 1)
  {
  }

  /** `onBlobReq`. The lookup-error path, and only that, returns without giving the read lock back. */
  method OnBlobReq(db: Database, bl: BlobFile, locker: NameLocker.MultiLocker, req: BlobReq) returns (r: Reply)
    requires NameLocker.Clean(locker.inUse)
    modifies locker
    ensures var answer := NameLocker.Apply(old(locker.inUse), NameLocker.TryRLock(req.name)).1;
            r == if Locks(db.State(), req) && answer == NameLocker.Refused then NoReply else Serve(db.State(), bl.State(), req)
    ensures var (locked, answer) := NameLocker.Apply(old(locker.inUse), NameLocker.TryRLock(req.name));
            locker.inUse == if FailsLocked(db.State(), req) && answer == NameLocker.Granted then locked else old(locker.inUse)
  {
    var header := db.GetHeader(req.name);
    if header.None? {
      return NoReply;
    }
    if header.value.epoch < req.epoch {
      return NoReply;
    }
    if req.size == MAX_SECTORS {
      if req.name !in db.proofs {
        return NoReply;
      }
      return ProofReply(db.proofs[req.name]);
    }
    NameLocker.RLockRUnlock(locker.inUse, req.name);
    var ok := locker.TryRLock(req.name);
    if !ok {
      return NoReply;
    }
    var prevHash := Found(Zero);
    if req.size != 0 {
      prevHash := db.GetSectorHash(req.name, req.size - 1);
    }
    if prevHash.NoTable? {
      return NoReply;
    }
    if prevHash.IndexPanic? {
      return ReplyPanic;
    }
    var sectors := ReadTail(bl, req.size, header.value.size);
    var p := locker.RUnlock(req.name);
    if sectors.None? {
      return NoReply;
    }
    r := SectorReply(Response(req, header.value, prevHash.hash, sectors.value));
  }

  /** Read sectors from .. to-1 of the base, stopping at the first error. */
  method ReadTail(bl: BlobFile, from: U16, to: U16) returns (r: Option<seq<Sector>>)
    ensures r == Tail(bl.State(), from, to)
  {
    var sectors: seq<Sector> := [];
    var i := from;
    while i < to
      invariant from <= i && (i <= to || i == from)
      invariant i > from ==> i <= MAX_SECTORS && i <= |bl.sectors|
      invariant sectors == if i == from then [] else bl.sectors[from..i]
    {
      var s := bl.ReadAt(i * SECTOR_BYTES);
      if s.Err? {
        return None;
      }
      sectors := sectors + [s.value];
      i := i + 1;
    }
    r := Some(sectors);
  }

  // ---------------------------------------------------------------- equivocation proofs

  function RemoteRes(p: Proof): BlobRes {
    BlobRes(p.name, p.remoteEpoch, p.remotePosition, p.remotePrevHash, p.remoteRoot, p.remotePayload, p.remoteSig)
  }

  function LocalSeal(p: Proof): Seal {
    Seal(p.name, p.localEpoch, p.localSize, p.localTip, p.localRoot)
  }

  /** The checks `onEquivocationProof` makes before it bans the name. */
  predicate ProofPasses(w: World, db: Db, now: Time, p: Proof) {
    && p.localEpoch == p.remoteEpoch
    && p.name in db.headers
    && var header := db.headers[p.name];
       var bannedAt := LookupBan(db, p.name);
       && !(bannedAt != ZERO_TIME && bannedAt + WEEK > now)
       && !(bannedAt != ZERO_TIME && header.epoch == p.remoteEpoch)
       && header.epoch <= p.remoteEpoch
       && p.localSize == p.remotePosition
       && ValidUpdate(w, db, LocalSeal(p), p.localSig)
       && PayloadSize(RemoteRes(p)) <= MAX_SECTORS
       && ValidUpdate(w, db, ResSeal(RemoteRes(p)), p.remoteSig)
  }

  function ReceiveProof(w: World, db: Db, now: Time, p: Proof): Db {
    if ProofPasses(w, db, now, p) then Ban(db, p.name, now).(proofs := db.proofs[p.name := p]) else db
  }

  /** The seal the remote half of the proof amounts to: the payload hashed on from the hash it claims to follow. */
  function RemoteSeal(p: Proof): Seal {
    Seal(p.name, p.remoteEpoch, AddU16(p.remotePosition, |p.remotePayload|), Fold(p.remotePrevHash, p.remotePayload), p.remoteRoot)
  }

  /** The name's key, known and on no ban list, signed both halves of the proof. */
  predicate SignedTwice(w: World, db: Db, p: Proof) {
    && w.validName(p.name) && p.name !in db.bannedNames && p.name in db.keys
    && w.verify(db.keys[p.name], p.localSig, Seal(p.name, p.localEpoch, p.localSize, p.localTip, p.localRoot))
    && w.verify(db.keys[p.name], p.remoteSig, RemoteSeal(p))
  }

  /**
   The verdict on a proof, from the store and the clock: a ban and the proof on record exactly
   when one key signed both halves, they meet in one epoch at one size, the store's header is
   not ahead of them, and no ban stands in the way. Otherwise nothing changes.
   */
  lemma ProofJudged(w: World, db: Db, now: Time, p: Proof)
    ensures var ban := LookupBan(db, p.name);
            var convicts :=
              && SignedTwice(w, db, p) && RemoteSeal(p).size <= MAX_SECTORS
              && p.localEpoch == p.remoteEpoch && p.localSize == p.remotePosition
              && p.name in db.headers && db.headers[p.name].epoch <= p.remoteEpoch
              && (ban == ZERO_TIME || (now >= ban + WEEK && db.headers[p.name].epoch < p.remoteEpoch));
            ReceiveProof(w, db, now, p)
            == if convicts then db.(bans := db.bans[p.name := now], proofs := db.proofs[p.name := p]) else db
  {
  }

  /** `onEquivocationProof` */
  method OnEquivocationProof(w: World, db: Database, now: Time, p: Proof)
    modifies db
    ensures db.State() == ReceiveProof(w, old(db.State()), now, p)
  {
    if p.localEpoch != p.remoteEpoch {
      return;
    }
    var header := db.GetHeader(p.name);
    if header.None? {
      return;
    }
    var bannedAt := db.GetHeaderBan(p.name);
    if bannedAt != ZERO_TIME && bannedAt + WEEK > now {
      return;
    }
    if bannedAt != ZERO_TIME && header.value.epoch == p.remoteEpoch {
      return;
    }
    if header.value.epoch > p.remoteEpoch {
      return;
    }
    if p.localSize != p.remotePosition {
      return;
    }
    var ok := db.ValidateBlobUpdate(w, p.name, p.localEpoch, p.localSize, p.localTip, p.localRoot, p.localSig);
    if !ok {
      return;
    }
    var sectorSize := AddU16(p.remotePosition, ToU16(|p.remotePayload|));
    if sectorSize > MAX_SECTORS {
      return;
    }
    var tip := FoldPayload(RemoteRes(p));
    ok := db.ValidateBlobUpdate(w, p.name, p.remoteEpoch, sectorSize, tip, p.remoteRoot, p.remoteSig);
    if !ok {
      return;
    }
    db.SetProof(p.name, p);
    db.SetHeaderBan(p.name, ZERO_TIME, now);
  }
}
