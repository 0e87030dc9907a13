/**
 Equivocation proofs: what an append records convicts the signer at every node that can
 judge it. What a rollover records convicts nobody anywhere.
 */
module Equivocation {
  import opened Basics
  import opened HashChain
  import opened BlobTx
  import BlobHash
  import Epoch
  import opened HeaderStore
  import opened Syncer
  import opened SectorServer
  import opened Updater
  import opened StoredContent

  /** A response that is valid in every way but does not build on the requested hash, in the requested epoch. */
  predicate Conflicting(w: World, opts: SyncOpts, db: Db, msg: BlobRes) {
    && msg.name == opts.name && msg.epoch == opts.epoch && msg.position == opts.size
    && msg.prevHash != opts.prevHash
    && PayloadSize(msg) <= MAX_SECTORS
    && ValidUpdate(w, db, ResSeal(msg), msg.sig)
  }

  /** A proof that a sync added was made from the local header and one of the received messages. */
  lemma {:induction false} ProofComesFrom(w: World, opts: SyncOpts, base: File, now: Time, s0: SyncState, ds: seq<Delivery>)
    returns (k: int)
    requires opts.name !in s0.db.proofs
    ensures var s := HandleAll(w, opts, base, now, s0, ds);
            && SameRecords(s.db, s0.db)
            && (opts.name !in s.db.proofs ==> s.db.proofs == s0.db.proofs)
            && (opts.name in s.db.proofs ==>
                  && 0 <= k < |ds| && Conflicting(w, opts, s0.db, ds[k].msg) && opts.name in s0.db.headers
                  && s.db.proofs[opts.name] == MakeProof(ds[k].msg, s0.db.headers[opts.name]))
    decreases |ds|
  {
    if ds == [] {
      return -1;
    }
    var m := |ds| - 1;
    k := ProofComesFrom(w, opts, base, now, s0, ds[..m]);
    var s := HandleAll(w, opts, base, now, s0, ds[..m]);
    if HandleAll(w, opts, base, now, s0, ds).db.proofs != s.db.proofs {
      k := m;
    }
  }

  // ---------------------------------------------------------------- a conflict is always recorded

  /** Response k is the first that conflicts, and no response before it was accepted. */
  predicate Caught(w: World, opts: SyncOpts, db: Db, ds: seq<Delivery>, k: nat) {
    && k < |ds| && Conflicting(w, opts, db, ds[k].msg)
    && (forall i :: 0 <= i < k ==> Undecided(w, opts, db, ds[i].msg))
  }

  /** The response decides nothing: it is neither accepted nor in conflict. */
  predicate Undecided(w: World, opts: SyncOpts, db: Db, msg: BlobRes) {
    !Accepted(w, opts, db, msg) && !Conflicting(w, opts, db, msg)
  }

  /** The ban and the proof on record: the message on one side, the local header on the other. */
  function Recorded(db: Db, now: Time, msg: BlobRes): Db
    requires msg.name in db.headers
  {
    var h := db.headers[msg.name];
    var p := Proof(msg.name, msg.epoch, msg.position, msg.prevHash, msg.root, msg.payload, msg.sig,
                   h.epoch, h.size, h.tip, h.root, h.sig);
    db.(bans := db.bans[msg.name := now], proofs := db.proofs[msg.name := p])
  }

  predicate NoneAccepted(w: World, opts: SyncOpts, db: Db, ds: seq<Delivery>) {
    ds == [] || (NoneAccepted(w, opts, db, ds[..|ds| - 1]) && !Accepted(w, opts, db, ds[|ds| - 1].msg))
  }

  /** The response that is caught, or -1. */
  function CaughtAt(w: World, opts: SyncOpts, db: Db, ds: seq<Delivery>): (k: int)
    ensures -1 <= k < |ds|
  {
    if ds == [] then -1
    else
      var m := |ds| - 1;
      var before := CaughtAt(w, opts, db, ds[..m]);
      if before >= 0 then before
      else if NoneAccepted(w, opts, db, ds[..m]) && Conflicting(w, opts, db, ds[m].msg) then m
      else -1
  }

  lemma {:induction false} CaughtAtMeans(w: World, opts: SyncOpts, db: Db, ds: seq<Delivery>, k: nat)
    ensures CaughtAt(w, opts, db, ds) == k <==> Caught(w, opts, db, ds, k)
    ensures NoneAccepted(w, opts, db, ds) <==> forall i :: 0 <= i < |ds| ==> !Accepted(w, opts, db, ds[i].msg)
    decreases |ds|
  {
    if ds != [] {
      var m := |ds| - 1;
      var at := CaughtAt(w, opts, db, ds[..m]);
      CaughtAtMeans(w, opts, db, ds[..m], k);
      assert forall i :: 0 <= i < m ==> ds[..m][i] == ds[i];
      if at >= 0 {
        CaughtAtMeans(w, opts, db, ds[..m], at);
      } else if NoneAccepted(w, opts, db, ds[..m]) {
        NoConflict(w, opts, db, ds[..m]);
      }
    }
  }

  /** If none is caught, an unaccepted list holds no conflict either. */
  lemma {:induction false} NoConflict(w: World, opts: SyncOpts, db: Db, ds: seq<Delivery>)
    requires CaughtAt(w, opts, db, ds) < 0 && NoneAccepted(w, opts, db, ds)
    ensures forall i :: 0 <= i < |ds| ==> Undecided(w, opts, db, ds[i].msg)
    decreases |ds|
  {
    if ds != [] {
      NoConflict(w, opts, db, ds[..|ds| - 1]);
      assert forall i :: 0 <= i < |ds| - 1 ==> ds[..|ds| - 1][i] == ds[i];
    }
  }

  /** What the loop has received and recorded, told from its messages alone. */
  predicate Tells(w: World, opts: SyncOpts, now: Time, db: Db, ds: seq<Delivery>, s: SyncState) {
    var k := CaughtAt(w, opts, db, ds);
    && s.received == (if NoneAccepted(w, opts, db, ds) then {} else {opts.size})
    && s.db == if k >= 0 && ds[k].msg.name in db.headers then Recorded(db, now, ds[k].msg) else db
  }

  lemma {:induction false} SyncTells(w: World, opts: SyncOpts, base: File, now: Time, tx: Tx, db: Db, ds: seq<Delivery>)
    requires opts.name !in db.proofs
    ensures Tells(w, opts, now, db, ds, HandleAll(w, opts, base, now, Start(tx, db), ds))
    ensures CaughtAt(w, opts, db, ds) >= 0 ==> ds[CaughtAt(w, opts, db, ds)].msg.name == opts.name
    decreases |ds|
  {
    if ds != [] {
      var m := |ds| - 1;
      SyncTells(w, opts, base, now, tx, db, ds[..m]);
      TellsOneMore(w, opts, base, now, db, ds, HandleAll(w, opts, base, now, Start(tx, db), ds[..m]));
    }
  }

  lemma TellsOneMore(w: World, opts: SyncOpts, base: File, now: Time, db: Db, ds: seq<Delivery>, s: SyncState)
    requires opts.name !in db.proofs && ds != [] && Tells(w, opts, now, db, ds[..|ds| - 1], s)
    requires var k := CaughtAt(w, opts, db, ds[..|ds| - 1]); k >= 0 ==> ds[k].msg.name == opts.name
    ensures Tells(w, opts, now, db, ds, Handle(w, opts, base, now, s, ds[|ds| - 1]))
  {
  }

  /**
   A sync records a ban and a proof if and only if a response conflicts before any is
   accepted, and then from the first such response. Nothing else in the store changes.
   */
  lemma ConflictRecorded(w: World, opts: SyncOpts, base: File, now: Time, tx: Tx, db: Db, ds: seq<Delivery>, k: nat)
    requires opts.name in db.headers && opts.name !in db.proofs
    ensures var s := HandleAll(w, opts, base, now, Start(tx, db), ds);
            && (Caught(w, opts, db, ds, k) ==> s.db == Recorded(db, now, ds[k].msg))
            && (s.db == db <==> forall i: nat :: !Caught(w, opts, db, ds, i))
  {
    SyncTells(w, opts, base, now, tx, db, ds);
    CaughtAtMeans(w, opts, db, ds, k);
    var at := CaughtAt(w, opts, db, ds);
    if at >= 0 {
      CaughtAtMeans(w, opts, db, ds, at);
      assert opts.name in Recorded(db, now, ds[at].msg).proofs;
    } else {
      forall i: nat
        ensures !Caught(w, opts, db, ds, i)
      {
        CaughtAtMeans(w, opts, db, ds, i);
      }
    }
  }

  /** With a proof on record no further conflict is recorded. */
  lemma {:induction false} RecordedOnce(w: World, opts: SyncOpts, base: File, now: Time, tx: Tx, db: Db, ds: seq<Delivery>)
    requires opts.name in db.proofs
    ensures HandleAll(w, opts, base, now, Start(tx, db), ds).db == db
    decreases |ds|
  {
    if ds != [] {
      RecordedOnce(w, opts, base, now, tx, db, ds[..|ds| - 1]);
    }
  }

  /** The same for a whole update, append or rollover: the ban, the proof, and who is caught. */
  lemma UpdateRecords(w: World, db: Db, base: File, item: Item, env: Env, k: nat)
    requires item.name in db.headers && item.name !in db.proofs && db.headers[item.name].size <= MAX_SECTORS
    requires Admits(w, db, item, env.now)
    ensures var db', opts := Update(w, db, base, item, env).db, Wanted(db, item);
            && (Caught(w, opts, db, env.ds, k) ==>
                  && LookupBan(db', item.name) == env.now && item.name in db'.proofs
                  && db'.proofs[item.name] == Recorded(db, env.now, env.ds[k].msg).proofs[item.name])
            && (item.name in db'.proofs <==> exists i: nat :: Caught(w, opts, db, env.ds, i))
            && (item.name !in db'.proofs ==> db'.bans == db.bans)
  {
    var opts, reset := Wanted(db, item), StartsOver(db, item);
    GateExact(w, db, item, env.now);
    assert Prepared(opts, reset).out == Done;
    var s := HandleAll(w, opts, base, env.now, Start(Prepared(opts, reset).tx, db), env.ds);
    ConflictRecorded(w, opts, base, env.now, Prepared(opts, reset).tx, db, env.ds, k);
    FinishRecords(base, item, reset, env, s);
    if i: nat :| Caught(w, opts, db, env.ds, i) {
      ConflictRecorded(w, opts, base, env.now, Prepared(opts, reset).tx, db, env.ds, i);
    }
  }

  /** `ss` is a blob the seal describes. */
  predicate Describes(seal: Seal, ss: seq<Sector>) {
    |ss| == seal.size && Fold(Zero, ss) == seal.tip
  }

  /** No append-only history contains both: no blob of the later seal begins with a blob of the earlier. */
  ghost predicate Irreconcilable(earlier: Seal, later: Seal) {
    forall ss: seq<Sector> ::
      Describes(later, ss) ==> earlier.size <= |ss| && !Describes(earlier, ss[..earlier.size])
  }

  lemma ConflictIsReal(h: Header, msg: BlobRes)
    requires WireBounded(msg) && msg.position == h.size <= MAX_SECTORS && msg.prevHash != h.tip
    ensures Irreconcilable(SealOf(h), ResSeal(msg))
  {
    PayloadSizeExact(msg);
    forall ss: seq<Sector> | Describes(ResSeal(msg), ss)
      ensures h.size <= |ss| && !Describes(SealOf(h), ss[..h.size])
    {
      var before, after := ss[..h.size], ss[h.size..];
      assert ss == before + after;
      FoldAppend(Zero, before, after);
      FoldInjective(Fold(Zero, before), msg.prevHash, after, msg.payload);
    }
  }

  /** A node that can judge the proof: it knows the key, has a header not ahead of it and no ban on record. */
  predicate CanJudge(accuser: Db, receiver: Db, name: string, epoch: U16) {
    && name in accuser.keys && name in receiver.keys && receiver.keys[name] == accuser.keys[name]
    && name !in receiver.bannedNames
    && name in receiver.headers && receiver.headers[name].epoch <= epoch
    && name !in receiver.bans
  }

  /**
   Every proof an update records carries two valid signatures. It passes all checks of any
   node that can judge it exactly when the update was an append; then the two signed
   chains are irreconcilable as well.
   */
  lemma RecordedProofConvicts(w: World, db: Db, base: File, item: Item, env: Env, receiver: Db, now: Time)
    requires item.name in db.headers && item.name !in db.proofs
    requires db.headers[item.name].name == item.name && db.headers[item.name].size <= MAX_SECTORS
    requires SelfVerifying(w, db, db.headers[item.name]) && AllBounded(env.ds)
    requires item.name in Update(w, db, base, item, env).db.proofs
    requires CanJudge(db, receiver, item.name, Update(w, db, base, item, env).db.proofs[item.name].remoteEpoch)
    ensures var p := Update(w, db, base, item, env).db.proofs[item.name];
            var reset := StartsOver(db, item);
            && ValidUpdate(w, db, LocalSeal(p), p.localSig)
            && ValidUpdate(w, db, ResSeal(RemoteRes(p)), p.remoteSig)
            && (ProofPasses(w, receiver, now, p) <==> !reset)
            && (!reset ==> Irreconcilable(LocalSeal(p), ResSeal(RemoteRes(p))))
  {
    var h := db.headers[item.name];
    GateExact(w, db, item, env.now);
    var k := UpdateProof(w, db, base, item, Wanted(db, item), StartsOver(db, item), env);
    var msg := env.ds[k].msg;
    var p := MakeProof(msg, h);
    assert RemoteRes(p) == msg && LocalSeal(p) == SealOf(h);
    if !StartsOver(db, item) {
      ConflictIsReal(h, msg);
    }
  }

  // ---------------------------------------------------------------- a proof no node accepts

  const NAME: string := "a"

  /** A blob of one zero sector at epoch zero. */
  function OldHeader(o: Owner): Header {
    var tip := Node(Zero, ZeroSector());
    Header(NAME, 0, 1, tip, o.sign(Seal(NAME, 0, 1, tip, Zero)), Zero, ZERO_TIME)
  }

  /** A signed answer for epoch one that does not start from nothing. */
  function Misplaced(o: Owner): BlobRes {
    var prev := Node(Zero, ZeroSector());
    BlobRes(NAME, 1, 0, prev, Zero, [ZeroSector()], o.sign(Seal(NAME, 1, 1, Node(prev, ZeroSector()), Zero)))
  }

  function OldDb(o: Owner): Db {
    EMPTY_DB.(headers := map[NAME := OldHeader(o)], count := 1, keys := map[NAME := o.key])
  }

  lemma MisplacedBans(w: World, o: Owner, base: File, now: Time)
    requires Signs(w, o) && w.validName(NAME)
    ensures var opts := SyncOpts(NAME, 1, 0, Zero);
            var s := Handle(w, opts, base, now, Start(Prepared(opts, true).tx, OldDb(o)), Delivery(Misplaced(o), []));
            s.db == Ban(OldDb(o), NAME, now).(proofs := map[NAME := MakeProof(Misplaced(o), OldHeader(o))])
  {
    var prev := Node(Zero, ZeroSector());
    assert [ZeroSector()][..0] == [] && Fold(prev, [ZeroSector()]) == Node(prev, ZeroSector());
    assert ResSeal(Misplaced(o)) == Seal(NAME, 1, 1, Node(prev, ZeroSector()), Zero);
  }

  /**
   A rollover that bans its name on such an answer: the node keeps the proof and hands it to
   whoever asks, and no node that gets it, in whatever state, is convinced.
   */
  lemma RolloverProofFails(w: World, o: Owner, base: File, now: Time, faults: BlobHash.HashFaults, receiver: Db, later: Time)
    requires Signs(w, o) && w.validName(NAME) && now >= Epoch.StartDate(w.hashName(NAME))
    ensures var item, env := Item(NAME, 1, 1), Env(now, [Delivery(Misplaced(o), [])], 0, faults, AllPut);
            var db := Update(w, OldDb(o), base, item, env).db;
            && SelfVerifying(w, OldDb(o), OldHeader(o)) && PlanFor(w, OldDb(o), item, now).Proceed?
            && LookupBan(db, NAME) == now && NAME in db.proofs
            && Serve(db, base, BlobReq(NAME, 0, MAX_SECTORS)) == ProofReply(db.proofs[NAME])
            && !ProofPasses(w, receiver, later, db.proofs[NAME])
  {
    var opts := SyncOpts(NAME, 1, 0, Zero);
    var env := Env(now, [Delivery(Misplaced(o), [])], 0, faults, AllPut);
    Epoch.CurrentBounded(w.hashName(NAME), now);
    assert PlanFor(w, OldDb(o), Item(NAME, 1, 1), now) == Proceed(opts, true);
    MisplacedBans(w, o, base, now);
    var s0 := Start(Prepared(opts, true).tx, OldDb(o));
    assert env.ds[..0] == [] && HandleAll(w, opts, base, now, s0, []) == s0;
    FinishRecords(base, Item(NAME, 1, 1), true, env, HandleAll(w, opts, base, now, s0, env.ds));
  }

  lemma UpdateProof(w: World, db: Db, base: File, item: Item, opts: SyncOpts, reset: bool, env: Env) returns (k: nat)
    requires opts.name == item.name && item.name !in db.proofs
    requires item.name in Attempt(w, db, base, item, opts, reset, env).db.proofs
    ensures k < |env.ds| && Conflicting(w, opts, db, env.ds[k].msg) && item.name in db.headers
    ensures Attempt(w, db, base, item, opts, reset, env).db.proofs[item.name]
         == MakeProof(env.ds[k].msg, db.headers[item.name])
  {
    var s0 := Start(Prepared(opts, reset).tx, db);
    var k' := ProofComesFrom(w, opts, base, env.now, s0, env.ds);
    FinishRecords(base, item, reset, env, HandleAll(w, opts, base, env.now, s0, env.ds));
    k := k';
  }

  /**
   The two signed chains of an accepted proof are irreconcilable if and only if the remote
   payload does not follow the local tip, which no check of the receiver looks at.
   */
  lemma AcceptedProofReal(w: World, receiver: Db, now: Time, p: Proof, ss: seq<Sector>)
    requires ProofPasses(w, receiver, now, p) && WireBounded(RemoteRes(p))
    requires p.localSize <= MAX_SECTORS && Describes(LocalSeal(p), ss)
    ensures Irreconcilable(LocalSeal(p), RemoteSeal(p)) <==> p.remotePrevHash != p.localTip
  {
    var h := Header(p.name, p.localEpoch, p.localSize, p.localTip, p.localSig, p.localRoot, ZERO_TIME);
    PayloadSizeExact(RemoteRes(p));
    assert RemoteSeal(p) == ResSeal(RemoteRes(p));
    if p.remotePrevHash != p.localTip {
      ConflictIsReal(h, RemoteRes(p));
    } else {
      var all := ss + p.remotePayload;
      FoldAppend(Zero, ss, p.remotePayload);
      assert Describes(RemoteSeal(p), all) && all[..p.localSize] == ss;
    }
  }

  /** The signed blob grows from one zero sector to two, and the two seals alone pass as a proof. */
  lemma GrowthPasses(w: World, o: Owner, receiver: Db, now: Time)
    requires Signs(w, o) && w.validName(NAME) && CanJudge(OldDb(o), receiver, NAME, 0)
    ensures var h, one := OldHeader(o), [ZeroSector()];
            var later := Seal(NAME, 0, 2, Fold(Zero, one + one), Zero);
            var p := Proof(NAME, 0, 1, h.tip, Zero, one, o.sign(later), 0, 1, h.tip, Zero, h.sig);
            ProofPasses(w, receiver, now, p) && !Irreconcilable(LocalSeal(p), RemoteSeal(p))
  {
    var h, one := OldHeader(o), [ZeroSector()];
    var later := Seal(NAME, 0, 2, Fold(Zero, one + one), Zero);
    var p := Proof(NAME, 0, 1, h.tip, Zero, one, o.sign(later), 0, 1, h.tip, Zero, h.sig);
    assert one[..0] == [] && Fold(Zero, one) == h.tip;
    FoldAppend(Zero, one, one);
    assert ResSeal(RemoteRes(p)) == later;
    AcceptedProofReal(w, receiver, now, p, one);
  }

  /** A convinced node bans the name, keeps the proof, and hands it on to whoever asks. */
  lemma ConvictionSpreads(w: World, receiver: Db, base: File, now: Time, p: Proof, asked: U16)
    requires ProofPasses(w, receiver, now, p) && asked <= receiver.headers[p.name].epoch
    ensures var db' := ReceiveProof(w, receiver, now, p);
            && LookupBan(db', p.name) == now
            && Serve(db', base, BlobReq(p.name, asked, MAX_SECTORS)) == ProofReply(p)
            && db'.headers == receiver.headers && db'.tables == receiver.tables
  {
  }
}
