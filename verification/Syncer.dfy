/**
 `SyncSectors`: the loop that receives blob responses from any peer, validates them,
 writes the first good payload into the transaction and records equivocations.
 The messages the loop gets to see are an arbitrary finite sequence.
 */
module Syncer {
  import opened Basics
  import opened HashChain
  import opened BlobTx
  import opened HeaderStore

  datatype BlobRes = BlobRes(
    name: string, epoch: U16, position: U16, prevHash: Hash, root: Hash, payload: seq<Sector>, sig: Signature)

  datatype SyncOpts = SyncOpts(name: string, epoch: U16, size: U16, prevHash: Hash)

  datatype SyncUpdate = SyncUpdate(tip: Hash, root: Hash, sig: Signature)

  datatype SyncError = InvalidSignature | PayloadEquivocation

  /** What the loop hands to the waiting caller. */
  datatype SyncEvent = Processed(update: SyncUpdate) | Aborted(err: SyncError)

  /** A response together with the fate of the writes it may lead to. */
  datatype Delivery = Delivery(msg: BlobRes, faults: seq<WriteFault>)

  datatype SyncState = SyncState(received: set<U16>, tx: Tx, db: Db, events: seq<SyncEvent>)

  datatype SyncResult = Synced(update: SyncUpdate) | SyncFailed(err: SyncError) | TimedOut

  /** Packets are cut at 5 MiB and a sector takes 256 bytes. */
  const MAX_PACKET: nat := 5 * 1024 * 1024

  predicate WireBounded(msg: BlobRes) {
    |msg.payload| * SECTOR_BYTES <= MAX_PACKET
  }

  function PayloadSize(msg: BlobRes): U16 {
    AddU16(msg.position, ToU16(|msg.payload|))
  }

  function PayloadTip(msg: BlobRes): Hash {
    Fold(msg.prevHash, msg.payload)
  }

  function ResSeal(msg: BlobRes): Seal {
    Seal(msg.name, msg.epoch, PayloadSize(msg), PayloadTip(msg), msg.root)
  }

  function UpdateOf(msg: BlobRes): SyncUpdate {
    SyncUpdate(PayloadTip(msg), msg.root, msg.sig)
  }

  /** Messages the loop passes over without an effect. */
  predicate Skipped(opts: SyncOpts, received: set<U16>, msg: BlobRes) {
    || msg.name != opts.name
    || msg.position in received
    || opts.epoch > msg.epoch
    || opts.size != msg.position
    || PayloadSize(msg) > MAX_SECTORS
  }

  function MakeProof(msg: BlobRes, header: Header): Proof {
    Proof(msg.name, msg.epoch, msg.position, msg.prevHash, msg.root, msg.payload, msg.sig,
          header.epoch, header.size, header.tip, header.root, header.sig)
  }

  function Equivocate(opts: SyncOpts, now: Time, s: SyncState, msg: BlobRes): SyncState {
    var reported := s.(events := s.events + [Aborted(PayloadEquivocation)]);
    if opts.epoch != msg.epoch then reported
    else if msg.name in s.db.proofs then reported
    else if msg.name !in s.db.headers then s
    else
      var banned := Ban(s.db, msg.name, now);
      reported.(db := banned.(proofs := s.db.proofs[msg.name := MakeProof(msg, s.db.headers[msg.name])]))
  }

  function Handle(w: World, opts: SyncOpts, base: File, now: Time, s: SyncState, d: Delivery): SyncState {
    var msg := d.msg;
    if Skipped(opts, s.received, msg) then s
    else if !ValidUpdate(w, s.db, ResSeal(msg), msg.sig) then s.(events := s.events + [Aborted(InvalidSignature)])
    else if opts.prevHash != msg.prevHash then Equivocate(opts, now, s, msg)
    else SyncState(s.received + {msg.position},
                   WriteAll(s.tx, base, msg.payload, d.faults),
                   s.db,
                   s.events + [Processed(UpdateOf(msg))])
  }

  function HandleAll(w: World, opts: SyncOpts, base: File, now: Time, s: SyncState, ds: seq<Delivery>): SyncState
    decreases |ds|
  {
    if ds == [] then s
    else Handle(w, opts, base, now, HandleAll(w, opts, base, now, s, ds[..|ds| - 1]), ds[|ds| - 1])
  }

  /** The caller takes one pending event, whichever the scheduler offers, or times out. */
  function Picked(events: seq<SyncEvent>, pick: nat): SyncResult {
    if pick >= |events| then TimedOut
    else match events[pick]
      case Processed(u) => Synced(u)
      case Aborted(e) => SyncFailed(e)
  }

  function Start(tx: Tx, db: Db): SyncState {
    SyncState({}, tx, db, [])
  }

  /** Everything the loop demands of the one payload it writes. */
  predicate Accepted(w: World, opts: SyncOpts, db: Db, msg: BlobRes) {
    && msg.name == opts.name
    && msg.epoch >= opts.epoch
    && msg.position == opts.size
    && msg.prevHash == opts.prevHash
    && PayloadSize(msg) <= MAX_SECTORS
    && ValidUpdate(w, db, ResSeal(msg), msg.sig)
  }

  /** The loop only ever adds bans and proofs to the database. */
  predicate SameRecords(a: Db, b: Db) {
    a == b.(bans := a.bans, proofs := a.proofs)
  }

  /** For bounded packets the 16-bit sum of position and payload length is the true sum. */
  lemma PayloadSizeExact(msg: BlobRes)
    requires WireBounded(msg) && msg.position <= MAX_SECTORS
    ensures PayloadSize(msg) == msg.position + |msg.payload|
  {
  }

  predicate NothingProcessed(events: seq<SyncEvent>) {
    forall i :: 0 <= i < |events| ==> events[i].Aborted?
  }

  predicate OnlyAt(events: seq<SyncEvent>, j: nat) {
    forall i :: 0 <= i < |events| && i != j ==> events[i].Aborted?
  }

  /** Exactly one event reports a payload, and it reports `u`. */
  predicate ProcessedOnce(events: seq<SyncEvent>, u: SyncUpdate) {
    exists j :: 0 <= j < |events| && events[j] == Processed(u) && OnlyAt(events, j)
  }

  /** Before a payload has been written. */
  predicate Waiting(s0: SyncState, s: SyncState) {
    s.received == {} && s.tx == s0.tx && SameRecords(s.db, s0.db) && NothingProcessed(s.events)
  }

  /** After the payload of `d` has been written, and nothing else. */
  predicate WroteOne(w: World, opts: SyncOpts, base: File, s0: SyncState, s: SyncState, d: Delivery) {
    && Accepted(w, opts, s0.db, d.msg)
    && s.received == {opts.size}
    && s.tx == WriteAll(s0.tx, base, d.msg.payload, d.faults)
    && SameRecords(s.db, s0.db)
    && ProcessedOnce(s.events, UpdateOf(d.msg))
  }

  lemma HandleWaiting(w: World, opts: SyncOpts, base: File, now: Time, s0: SyncState, s: SyncState, d: Delivery)
    requires Waiting(s0, s)
    ensures var s' := Handle(w, opts, base, now, s, d);
            Waiting(s0, s') || WroteOne(w, opts, base, s0, s', d)
  {
    var s' := Handle(w, opts, base, now, s, d);
    if s'.received != {} {
      var j := |s.events|;
      assert s'.events[j] == Processed(UpdateOf(d.msg)) && OnlyAt(s'.events, j);
    }
  }

  lemma HandleWritten(w: World, opts: SyncOpts, base: File, now: Time, s0: SyncState, s: SyncState, d0: Delivery, d: Delivery)
    requires WroteOne(w, opts, base, s0, s, d0)
    ensures WroteOne(w, opts, base, s0, Handle(w, opts, base, now, s, d), d0)
    ensures Handle(w, opts, base, now, s, d).tx == s.tx
  {
  }

  /**
   Over every finite sequence of messages, one call writes at most one payload. The payload
   is accepted in every respect, and all other messages leave the transaction untouched.
   */
  lemma {:induction false} OnePayload(w: World, opts: SyncOpts, base: File, now: Time, s0: SyncState, ds: seq<Delivery>)
    returns (k: int)
    requires s0.received == {} && s0.events == []
    ensures -1 <= k < |ds|
    ensures k == -1 ==> Waiting(s0, HandleAll(w, opts, base, now, s0, ds))
    ensures k >= 0 ==> WroteOne(w, opts, base, s0, HandleAll(w, opts, base, now, s0, ds), ds[k])
    ensures forall i :: 0 <= i < |ds| && i != k ==>
              HandleAll(w, opts, base, now, s0, ds[..i + 1]).tx == HandleAll(w, opts, base, now, s0, ds[..i]).tx
    decreases |ds|
  {
    if ds == [] {
      return -1;
    }
    var m := |ds| - 1;
    k := OnePayload(w, opts, base, now, s0, ds[..m]);
    var s := HandleAll(w, opts, base, now, s0, ds[..m]);
    if k >= 0 {
      HandleWritten(w, opts, base, now, s0, s, ds[k], ds[m]);
    } else {
      HandleWaiting(w, opts, base, now, s0, s, ds[m]);
      if !Waiting(s0, HandleAll(w, opts, base, now, s0, ds)) {
        k := m;
      }
    }
    assert ds[..m + 1] == ds;
    forall i | 0 <= i < |ds| && i != k
      ensures HandleAll(w, opts, base, now, s0, ds[..i + 1]).tx == HandleAll(w, opts, base, now, s0, ds[..i]).tx
    {
      if i < m {
        assert ds[..m][..i + 1] == ds[..i + 1] && ds[..m][..i] == ds[..i];
      }
    }
  }

  /** Whatever the caller picks up as a success describes the payload that was written. */
  lemma PickedIsWritten(w: World, opts: SyncOpts, base: File, now: Time, s0: SyncState, ds: seq<Delivery>, pick: nat)
    returns (k: nat)
    requires s0.received == {} && s0.events == []
    requires Picked(HandleAll(w, opts, base, now, s0, ds).events, pick).Synced?
    ensures k < |ds| && WroteOne(w, opts, base, s0, HandleAll(w, opts, base, now, s0, ds), ds[k])
    ensures Picked(HandleAll(w, opts, base, now, s0, ds).events, pick) == Synced(UpdateOf(ds[k].msg))
  {
    var k' := OnePayload(w, opts, base, now, s0, ds);
    var events := HandleAll(w, opts, base, now, s0, ds).events;
    k := k';
    var u := UpdateOf(ds[k].msg);
    var j :| 0 <= j < |events| && events[j] == Processed(u) && OnlyAt(events, j);
    assert pick == j;
  }

  /** `SyncSectors` */
  method SyncSectors(w: World, opts: SyncOpts, tx: Transaction, db: Database, now: Time, ds: seq<Delivery>, pick: nat)
    returns (r: SyncResult)
    modifies tx, db
    ensures var s := HandleAll(w, opts, tx.blob.State(), now, Start(old(tx.State()), old(db.State())), ds);
            tx.State() == s.tx && db.State() == s.db && r == Picked(s.events, pick)
  {
    ghost var base, s0 := tx.blob.State(), Start(tx.State(), db.State());
    var receivedPayloads: set<U16> := {};
    var events: seq<SyncEvent> := [];
    var n := 0;
    while n < |ds|
      invariant 0 <= n <= |ds|
      invariant SyncState(receivedPayloads, tx.State(), db.State(), events) == HandleAll(w, opts, base, now, s0, ds[..n])
    {
      ghost var s := HandleAll(w, opts, base, now, s0, ds[..n]);
      assert ds[..n + 1][..n] == ds[..n];
      var msg := ds[n].msg;
      if msg.name == opts.name && msg.position !in receivedPayloads && opts.epoch <= msg.epoch && opts.size == msg.position {
        var sectorSize := AddU16(msg.position, ToU16(|msg.payload|));
        if sectorSize <= MAX_SECTORS {
          var tip := FoldPayload(msg);
          var valid := db.ValidateBlobUpdate(w, msg.name, msg.epoch, sectorSize, tip, msg.root, msg.sig);
          if !valid {
            events := events + [Aborted(InvalidSignature)];
          } else if opts.prevHash != msg.prevHash {
            var report := RecordEquivocation(opts, db, now, msg);
            if report {
              events := events + [Aborted(PayloadEquivocation)];
            }
          } else {
            WritePayload(tx, msg.payload, ds[n].faults);
            receivedPayloads := receivedPayloads + {msg.position};
            events := events + [Processed(SyncUpdate(tip, msg.root, msg.sig))];
          }
        }
      }
      n := n + 1;
    }
    assert ds[..n] == ds;
    if pick >= |events| {
      return TimedOut;
    }
    match events[pick]
    case Processed(u) => r := Synced(u);
    case Aborted(e) => r := SyncFailed(e);
  }

  /** The tip the payload leads to, hashed on from the previous hash it claims. */
  method FoldPayload(msg: BlobRes) returns (tip: Hash)
    ensures tip == PayloadTip(msg)
  {
    tip := msg.prevHash;
    for i := 0 to |msg.payload|
      invariant tip == Fold(msg.prevHash, msg.payload[..i])
    {
      assert msg.payload[..i + 1][..i] == msg.payload[..i];
      tip := SerialHashSector(msg.payload[i], tip);
    }
    assert msg.payload[..|msg.payload|] == msg.payload;
  }

  /** Write errors are logged and passed over. */
  method WritePayload(tx: Transaction, payload: seq<Sector>, faults: seq<WriteFault>)
    modifies tx
    ensures tx.State() == WriteAll(old(tx.State()), tx.blob.State(), payload, faults)
  {
    for i := 0 to |payload|
      invariant tx.State() == WriteAll(old(tx.State()), tx.blob.State(), payload[..i], faults)
    {
      assert payload[..i + 1][..i] == payload[..i];
      var out := tx.WriteSector(payload[i], FaultAt(faults, i));
    }
    assert payload[..|payload|] == payload;
  }

  method RecordEquivocation(opts: SyncOpts, db: Database, now: Time, msg: BlobRes) returns (report: bool)
    modifies db
    ensures forall s: SyncState :: s.db == old(db.State()) ==>
              Equivocate(opts, now, s, msg)
              == s.(db := db.State(), events := if report then s.events + [Aborted(PayloadEquivocation)] else s.events)
  {
    if opts.epoch == msg.epoch {
      if msg.name in db.proofs {
        return true;
      }
      var header := db.GetHeader(msg.name);
      if header.None? {
        return false;
      }
      db.SetHeaderBan(msg.name, ZERO_TIME, now);
      db.SetProof(msg.name, MakeProof(msg, header.value));
    }
    report := true;
  }
}
