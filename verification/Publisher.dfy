/**
 Local publishing: the RPC server's checkout, sector writes and commit, and the client
 writer that tracks size and tip in parallel with the server's transaction.
 */
module Publisher {
  import opened Basics
  import opened HashChain
  import opened BlobTx
  import opened BlobHash
  import opened HeaderStore

  /** A transaction object and the blob it belongs to. */
  datatype Session = Session(name: string, tx: Tx)

  /**
   A node as the RPC server sees it: database, blob files, every transaction it ever opened
   (its position stands for its address), and the store that finds open ones by number.
   A handler that has looked a transaction up keeps it, whatever the store does meanwhile.
   */
  datatype Host = Host(db: Db, blobs: map<string, File>, txs: seq<Session>, txStore: map<nat, nat>, lastTxID: nat)

  /** The 32-bit transaction counter. */
  function NextID(last: nat): nat {
    if last + 1 < 0x1_0000_0000 then last + 1 else 0
  }

  /** Opening a blob creates it zero-filled if it is missing. */
  function BlobOf(n: Host, name: string): File {
    if name in n.blobs then n.blobs[name] else File(Zeros(MAX_SECTORS), true)
  }

  /** The store has a transaction under that number. */
  predicate Known(n: Host, id: nat) {
    id in n.txStore && n.txStore[id] < |n.txs|
  }

  function SessionOf(n: Host, id: nat): Session
    requires Known(n, id)
  {
    n.txs[n.txStore[id]]
  }

  function ViewAt(n: Host, a: nat): seq<Sector>
    requires a < |n.txs|
  {
    View(n.txs[a].tx, BlobOf(n, n.txs[a].name))
  }

  function ViewOf(n: Host, id: nat): seq<Sector>
    requires Known(n, id)
  {
    ViewAt(n, n.txStore[id])
  }

  function SetTx(n: Host, a: nat, tx: Tx): Host
    requires a < |n.txs|
  {
    n.(txs := n.txs[a := n.txs[a].(tx := tx)])
  }

  // ---------------------------------------------------------------- Checkout

  datatype CheckoutRes = CheckoutRes(txID: nat, epoch: U16, size: U16, tip: Hash)

  /** Number, epoch, size and tip a checkout starts from. */
  function Baseline(n: Host, name: string, cur: U16): CheckoutRes {
    match LookupHeader(n.db, name)
    case None => CheckoutRes(n.lastTxID, cur, 0, Zero)
    case Some(h) => CheckoutRes(n.lastTxID, h.epoch, h.size, h.tip)
  }

  /** A new transaction, emptied for a new epoch, with its cursor at `size`. */
  function Started(reset: bool, size: U16): Step {
    SeekOp(if reset then TruncateOp(FRESH).tx else FRESH, size * SECTOR_BYTES, SeekStart)
  }

  /** The next number is taken and the blob open. */
  function Numbered(n: Host, name: string): Host {
    n.(lastTxID := NextID(n.lastTxID), blobs := n.blobs[name := BlobOf(n, name)])
  }

  function CheckedOut(n: Host, name: string, reset: bool, cur: U16): (Host, Option<CheckoutRes>) {
    var from := Baseline(n, name, cur);
    if reset && from.epoch > cur then (n, None)
    else
      var res := if reset then CheckoutRes(from.txID, AddU16(from.epoch, 1), 0, Zero) else from;
      var r := Started(reset, res.size);
      if r.out != Done then (n, None)
      else (n.(txs := n.txs + [Session(name, r.tx)], txStore := n.txStore[res.txID := |n.txs|]), Some(res))
  }

  function OnCheckout(n: Host, name: string, reset: bool, cur: U16): (Host, Option<CheckoutRes>) {
    CheckedOut(Numbered(n, name), name, reset, cur)
  }

  /**
   What a checkout answers. Going on, it is the stored epoch, size and tip, or the current
   epoch and nothing; starting over, nothing in the epoch after that one, unless it is ahead
   of the clock already.
   */
  lemma CheckoutAnswers(n: Host, name: string, reset: bool, cur: U16)
    ensures var id := if n.lastTxID < 0xFFFF_FFFF then n.lastTxID + 1 else 0;
            var res := OnCheckout(n, name, reset, cur).1;
            if name !in n.db.headers then res == Some(CheckoutRes(id, if reset then AddU16(cur, 1) else cur, 0, Zero))
            else
              var h := n.db.headers[name];
              && (res.Some? <==> if reset then h.epoch <= cur else h.size <= 4096)
              && (res.Some? ==> res.value == if reset then CheckoutRes(id, AddU16(h.epoch, 1), 0, Zero)
                                             else CheckoutRes(id, h.epoch, h.size, h.tip))
  {
  }

  // ---------------------------------------------------------------- WriteSector

  datatype WriteRes = Wrote | WriteErr | NoSession

  /** Copying into a sector keeps the first 256 bytes and fills up with zeros. */
  function ToSector(p: seq<Byte>): Sector {
    if |p| >= SECTOR_BYTES then p[..SECTOR_BYTES] else p + ZeroSector()[|p|..]
  }

  /** Byte for byte: the data, cut at the sector's end or filled up with zeros. */
  lemma SectorBytes(p: seq<Byte>)
    ensures |ToSector(p)| == 256
    ensures forall i :: 0 <= i < 256 ==> ToSector(p)[i] == if i < |p| then p[i] else 0
  {
  }

  function OnWriteSector(n: Host, id: nat, data: seq<Byte>, fault: WriteFault): (Host, WriteRes) {
    if !Known(n, id) then (n, NoSession)
    else
      var s := SessionOf(n, id);
      var r := WriteOp(s.tx, BlobOf(n, s.name), ToSector(data), fault);
      (SetTx(n, n.txStore[id], r.tx), if r.out.Done? then Wrote else WriteErr)
  }

  /** A look-up past the transaction's time rolls it back and drops its number. */
  function ExpireTx(n: Host, id: nat): Host {
    if !Known(n, id) then n
    else SetTx(n, n.txStore[id], RollbackOp(SessionOf(n, id).tx).tx).(txStore := n.txStore - {id})
  }

  /** An expired number is forgotten, and whoever still holds its transaction finds it closed. */
  lemma ExpireExactly(n: Host, id: nat)
    ensures var n' := ExpireTx(n, id);
            && !Known(n', id) && n'.db == n.db && n'.blobs == n.blobs && |n'.txs| == |n.txs|
            && (Known(n, id) ==> n'.txStore == n.txStore - {id}
                                 && n'.txs == n.txs[n.txStore[id] := SessionOf(n, id).(tx := SessionOf(n, id).tx.(closed := true))])
  {
  }

  // ---------------------------------------------------------------- Commit

  datatype CommitReq = CommitReq(txID: nat, epoch: U16, size: U16, tip: Hash, sig: Signature)

  /** The handler cuts the 32-bit wire fields to 16 bits. */
  function Narrow(txID: nat, epoch: nat, size: nat, tip: Hash, sig: Signature): CommitReq {
    CommitReq(txID, ToU16(epoch), ToU16(size), tip, sig)
  }

  /** Sizes and epochs that do not fit come out modulo 65536. */
  lemma NarrowExactly(txID: nat, epoch: nat, size: nat, tip: Hash, sig: Signature)
    ensures var req := Narrow(txID, epoch, size, tip, sig);
            && req.epoch == epoch % 65536 && req.size == size % 65536
            && req.txID == txID && req.tip == tip && req.sig == sig
  {
  }

  function ReqSeal(name: string, req: CommitReq): Seal {
    Seal(name, req.epoch, req.size, req.tip, Zero)
  }

  /** Everything up to taking the name lock: re-hash the transaction, compare tips, check the seal. */
  function CheckAt(w: World, n: Host, a: nat, req: CommitReq): (Host, Option<seq<Hash>>)
    requires a < |n.txs|
  {
    var s := n.txs[a];
    if s.name !in n.db.keys then (n, None)
    else
      var (tx, hashes) := HashOp(s.tx, BlobOf(n, s.name), req.size, NO_FAULTS);
      var n1 := SetTx(n, a, tx);
      if hashes.Err? then (n1, None)
      else if TipOf(hashes.value) != req.tip then (n1, None)
      else if !w.verify(n.db.keys[s.name], req.sig, ReqSeal(s.name, req)) then (n1, None)
      else (n1, Some(hashes.value))
  }

  function CommitHeader(name: string, req: CommitReq, now: Time): Header {
    Header(name, req.epoch, req.size, req.tip, req.sig, Zero, now)
  }

  /** Under the name lock: write header and table. */
  function PutAt(n: Host, a: nat, req: CommitReq, hashes: seq<Hash>, now: Time, fault: PutFault): (Host, bool)
    requires a < |n.txs|
  {
    var (db', ok) := PutHeader(n.db, CommitHeader(n.txs[a].name, req, now), hashes, fault);
    (n.(db := db'), ok)
  }

  /** Still under the lock: publish the transaction and forget its number. */
  function PublishAt(n: Host, a: nat, txID: nat): (Host, bool)
    requires a < |n.txs|
  {
    var s := n.txs[a];
    var (base', r) := CommitOp(s.tx, BlobOf(n, s.name));
    var n1 := SetTx(n, a, r.tx).(blobs := n.blobs[s.name := base']);
    if r.out != Done then (n1, false) else (n1.(txStore := n.txStore - {txID}), true)
  }

  /** Publishing succeeds unless the transaction is closed, and only then is its number forgotten. */
  lemma PublishExactly(n: Host, a: nat, txID: nat)
    requires a < |n.txs| && !n.txs[a].tx.removed
    ensures var r := PublishAt(n, a, txID);
            && (r.1 <==> !n.txs[a].tx.closed) && r.0.db == n.db && r.0.lastTxID == n.lastTxID
            && r.0.txStore == (if r.1 then n.txStore - {txID} else n.txStore)
            && r.0.txs == n.txs[a := n.txs[a].(tx := n.txs[a].tx.(closed := true))]
  {
  }

  function StoreAt(n: Host, a: nat, req: CommitReq, hashes: seq<Hash>, now: Time, fault: PutFault): (Host, bool)
    requires a < |n.txs|
  {
    var (n1, ok) := PutAt(n, a, req, hashes, now, fault);
    if ok then PublishAt(n1, a, req.txID) else (n1, false)
  }

  /** The rest of a commit after its check, unless the name is busy. */
  function Concluded(n: Host, a: nat, req: CommitReq, hashes: Option<seq<Hash>>, now: Time, fault: PutFault, busy: bool): (Host, bool)
    requires a < |n.txs|
  {
    if hashes.None? || busy then (n, false) else StoreAt(n, a, req, hashes.value, now, fault)
  }

  /** A commit with nothing in between, on a name that is busy or not. */
  function OnCommit(w: World, n: Host, req: CommitReq, now: Time, fault: PutFault, busy: bool): (Host, bool) {
    if !Known(n, req.txID) then (n, false)
    else
      var a := n.txStore[req.txID];
      var r := CheckAt(w, n, a, req);
      Concluded(r.0, a, req, r.1, now, fault, busy)
  }

  /** The list fits, the server's copy starts with it, and the name's key signed it. */
  predicate Deserved(w: World, n: Host, req: CommitReq, ss: seq<Sector>)
    requires Known(n, req.txID)
  {
    && |ss| <= MAX_SECTORS && |ss| <= |ViewOf(n, req.txID)| && ViewOf(n, req.txID)[..|ss|] == ss
    && var name := SessionOf(n, req.txID).name;
       name in n.db.keys && w.verify(n.db.keys[name], req.sig, ReqSeal(name, req))
  }

  /** The re-hash of an open transaction agrees with the tip of `ss` exactly when it sees `ss`, and `ss` fits. */
  lemma HashMatches(t: Tx, base: File, ss: seq<Sector>)
    requires Open(t) && Sized(View(t, base)) && |ss| < 65536
    ensures var hashes := HashOp(t, base, |ss|, NO_FAULTS).1;
            hashes.Ok? && TipOf(hashes.value) == Fold(Zero, ss)
            <==> |ss| <= MAX_SECTORS && View(t, base)[..|ss|] == ss
  {
    var hashes := HashOp(t, base, |ss|, NO_FAULTS).1;
    if hashes.Ok? {
      HashOpOk(t, base, |ss|, NO_FAULTS);
      if TipOf(hashes.value) == Fold(Zero, ss) {
        ChainInjective(View(t, base)[..|ss|], ss);
      }
    }
  }

  lemma PassedIsDeserved(w: World, n: Host, req: CommitReq, ss: seq<Sector>)
    requires Known(n, req.txID) && Open(SessionOf(n, req.txID).tx) && Sized(ViewOf(n, req.txID))
    requires req.tip == Fold(Zero, ss) && req.size == |ss|
    requires CheckAt(w, n, n.txStore[req.txID], req).1.Some?
    ensures Deserved(w, n, req, ss)
  {
    var s := SessionOf(n, req.txID);
    HashMatches(s.tx, BlobOf(n, s.name), ss);
  }

  lemma DeservedPasses(w: World, n: Host, req: CommitReq, ss: seq<Sector>)
    requires Known(n, req.txID) && Open(SessionOf(n, req.txID).tx) && Sized(ViewOf(n, req.txID))
    requires req.tip == Fold(Zero, ss) && req.size == |ss|
    requires Deserved(w, n, req, ss)
    ensures CheckAt(w, n, n.txStore[req.txID], req).1.Some?
  {
    var s := SessionOf(n, req.txID);
    HashMatches(s.tx, BlobOf(n, s.name), ss);
  }

  /** Once the checks pass, an open transaction is stored unless the name is busy or the database fails. */
  lemma CheckedIsStored(w: World, n: Host, req: CommitReq, now: Time, busy: bool)
    requires Known(n, req.txID) && Open(SessionOf(n, req.txID).tx)
    ensures OnCommit(w, n, req, now, AllPut, busy).1 <==> CheckAt(w, n, n.txStore[req.txID], req).1.Some? && !busy
  {
  }

  /**
   For a client that sealed the list `ss`, the server accepts exactly when the list fits in a
   blob, the server's own copy starts with it, the key's signature covers it, and the name is
   free.
   */
  lemma CommitAcceptsExactly(w: World, n: Host, req: CommitReq, ss: seq<Sector>, now: Time, busy: bool)
    requires Known(n, req.txID) && Open(SessionOf(n, req.txID).tx) && Sized(ViewOf(n, req.txID))
    requires req.tip == Fold(Zero, ss) && req.size == |ss|
    ensures OnCommit(w, n, req, now, AllPut, busy).1 <==> Deserved(w, n, req, ss) && !busy
  {
    CheckedIsStored(w, n, req, now, busy);
    if Deserved(w, n, req, ss) {
      DeservedPasses(w, n, req, ss);
    } else if CheckAt(w, n, n.txStore[req.txID], req).1.Some? {
      PassedIsDeserved(w, n, req, ss);
    }
  }

  // ---------------------------------------------------------------- lockstep

  /** The client's fields. */
  datatype Writer = Writer(txID: nat, epoch: U16, size: U16, tip: Hash, isOpen: bool, isCommitted: bool)

  /** Client and server agree: `content` is what the transaction holds below its cursor and what the tip covers. */
  predicate Lockstep(c: Writer, n: Host, content: seq<Sector>) {
    && c.isOpen && !c.isCommitted && Known(n, c.txID)
    && var tx := SessionOf(n, c.txID).tx;
       && Open(tx) && Sized(ViewOf(n, c.txID))
       && c.size == tx.cursor == |content| && |content| <= |ViewOf(n, c.txID)|
       && ViewOf(n, c.txID)[..|content|] == content
       && c.tip == Fold(Zero, content)
  }

  function OpenWriter(res: CheckoutRes): Writer {
    Writer(res.txID, res.epoch, res.size, res.tip, true, false)
  }

  /** Opening a consistent blob, or starting it over, puts the two in step. */
  lemma OpenInStep(n: Host, name: string, reset: bool, cur: U16)
    requires Indexes(n.db, name, BlobOf(n, name).sectors)
    requires OnCheckout(n, name, reset, cur).1.Some?
    ensures var (n', res) := OnCheckout(n, name, reset, cur);
            && res.value.size <= MAX_SECTORS
            && Lockstep(OpenWriter(res.value), n',
                        if reset then [] else BlobOf(n, name).sectors[..res.value.size])
  {
  }

  function ClientWrite(c: Writer, n: Host, p: seq<Byte>, fault: WriteFault): (Writer, Host, bool) {
    var (n', r) := OnWriteSector(n, c.txID, p, fault);
    if r.Wrote? then (c.(size := AddU16(c.size, 1), tip := SerialHashSector(ToSector(p), c.tip)), n', true)
    else (c, n', false)
  }

  /** Both count sectors in 16 bits: a write keeps the two in step unless it is the 65536th. */
  lemma WriteInStep(c: Writer, n: Host, content: seq<Sector>, p: seq<Byte>, fault: WriteFault)
    requires Lockstep(c, n, content)
    ensures var (c', n', ok) := ClientWrite(c, n, p, fault);
            if ok && |content| + 1 == 65536 then Overrun(c', n', content + [ToSector(p)])
            else Lockstep(c', n', if ok then content + [ToSector(p)] else content)
  {
    var s := SessionOf(n, c.txID);
    WriteFills(s.tx, BlobOf(n, s.name), ToSector(p), fault);
    assert (content + [ToSector(p)])[..|content|] == content;
  }

  /** The client has written more sectors than the counters hold: its tip covers them all, its size starts again. */
  predicate Overrun(c: Writer, n: Host, content: seq<Sector>) {
    && c.isOpen && !c.isCommitted && Known(n, c.txID) && |content| >= 65536
    && var tx := SessionOf(n, c.txID).tx;
       && Open(tx) && tx.initialized && Sized(ViewOf(n, c.txID)) && tx.cursor <= |ViewOf(n, c.txID)|
       && c.size == tx.cursor && c.tip == Fold(Zero, content)
  }

  lemma WriteStaysOverrun(c: Writer, n: Host, content: seq<Sector>, p: seq<Byte>, fault: WriteFault)
    requires Overrun(c, n, content)
    ensures var (c', n', ok) := ClientWrite(c, n, p, fault);
            Overrun(c', n', if ok then content + [ToSector(p)] else content)
  {
    var s := SessionOf(n, c.txID);
    WriteFills(s.tx, BlobOf(n, s.name), ToSector(p), fault);
    assert (content + [ToSector(p)])[..|content|] == content;
  }

  /** No prefix of the server's copy that fits a blob has the tip of so many sectors. */
  lemma OverrunRefused(w: World, c: Writer, n: Host, content: seq<Sector>, sig: Signature, now: Time, busy: bool)
    requires Overrun(c, n, content)
    ensures !Lockstep(c, n, content) && !OnCommit(w, n, HonestReq(c, sig), now, AllPut, busy).1
  {
    var s := SessionOf(n, c.txID);
    var hashes := HashOp(s.tx, BlobOf(n, s.name), c.size, NO_FAULTS).1;
    if hashes.Ok? {
      HashOpOk(s.tx, BlobOf(n, s.name), c.size, NO_FAULTS);
      if TipOf(hashes.value) == c.tip {
        ChainInjective(ViewOf(n, c.txID)[..c.size], content);
      }
    }
  }

  datatype Write = Write(data: seq<Byte>, fault: WriteFault)

  function ClientRun(c: Writer, n: Host, ws: seq<Write>): (Writer, Host)
    decreases |ws|
  {
    if ws == [] then (c, n)
    else
      var (c1, n1) := ClientRun(c, n, ws[..|ws| - 1]);
      var (c2, n2, ok) := ClientWrite(c1, n1, ws[|ws| - 1].data, ws[|ws| - 1].fault);
      (c2, n2)
  }

  /** The sectors whose writes the server reported as done. */
  function Accepted(c: Writer, n: Host, ws: seq<Write>): seq<Sector>
    decreases |ws|
  {
    if ws == [] then []
    else
      var m := |ws| - 1;
      var (c1, n1) := ClientRun(c, n, ws[..m]);
      var before := Accepted(c, n, ws[..m]);
      if ClientWrite(c1, n1, ws[m].data, ws[m].fault).2 then before + [ToSector(ws[m].data)] else before
  }

  /**
   Over any sequence of writes, failing or not, client and server stay in step exactly as
   long as the sectors number fewer than 65536.
   */
  lemma {:induction false} WritesInStep(c: Writer, n: Host, content: seq<Sector>, ws: seq<Write>)
    requires Lockstep(c, n, content)
    ensures var (c', n') := ClientRun(c, n, ws);
            var all := content + Accepted(c, n, ws);
            && (Lockstep(c', n', all) <==> |all| < 65536)
            && (|all| >= 65536 ==> Overrun(c', n', all))
            && c'.txID == c.txID && c'.epoch == c.epoch && n'.db == n.db && n'.blobs == n.blobs
            && n'.txStore == n.txStore && Known(n', c.txID) && SessionOf(n', c.txID).name == SessionOf(n, c.txID).name
    decreases |ws|
  {
    if ws == [] {
      assert content + [] == content;
    } else {
      var m := |ws| - 1;
      WritesInStep(c, n, content, ws[..m]);
      var (c1, n1) := ClientRun(c, n, ws[..m]);
      var done := content + Accepted(c, n, ws[..m]);
      if |done| < 65536 {
        WriteInStep(c1, n1, done, ws[m].data, ws[m].fault);
      } else {
        WriteStaysOverrun(c1, n1, done, ws[m].data, ws[m].fault);
      }
      assert done + [ToSector(ws[m].data)] == content + (Accepted(c, n, ws[..m]) + [ToSector(ws[m].data)]);
    }
  }

  /**
   Whatever others have done since, a session they did not touch is still in step exactly
   when its transaction has its clone already, or the blob still starts with the content.
   */
  lemma InStepAfterOthers(c: Writer, n: Host, n': Host, content: seq<Sector>)
    requires Lockstep(c, n, content) && Known(n', c.txID) && SessionOf(n', c.txID) == SessionOf(n, c.txID)
    requires Sized(BlobOf(n', SessionOf(n, c.txID).name).sectors)
    ensures Lockstep(c, n', content)
       <==> SessionOf(n, c.txID).tx.initialized || content <= BlobOf(n', SessionOf(n, c.txID).name).sectors
  {
  }

  /** The client has tracked `content`, but the server's copy does not start with its first `stem` sectors. */
  predicate Astray(c: Writer, n: Host, content: seq<Sector>, stem: nat) {
    && c.isOpen && !c.isCommitted && Known(n, c.txID)
    && var tx := SessionOf(n, c.txID).tx;
       && Open(tx) && Sized(ViewOf(n, c.txID)) && tx.cursor <= |ViewOf(n, c.txID)|
       && c.size == tx.cursor == |content| && c.tip == Fold(Zero, content)
       && stem <= |content| && ViewOf(n, c.txID)[..stem] != content[..stem]
  }

  /** Views that agree up to a cursor agree up to any stem below it. */
  lemma SameStem(v: seq<Sector>, v': seq<Sector>, cursor: nat, stem: nat)
    requires stem <= cursor <= |v| && cursor <= |v'| && v'[..cursor] == v[..cursor]
    ensures v'[..stem] == v[..stem]
  {
    assert v'[..stem] == v'[..cursor][..stem] && v[..stem] == v[..cursor][..stem];
  }

  /** Writes land above the stem, so they do not bring the two together again. */
  lemma WriteStaysAstray(c: Writer, n: Host, content: seq<Sector>, stem: nat, p: seq<Byte>, fault: WriteFault)
    requires Astray(c, n, content, stem)
    ensures var r := ClientWrite(c, n, p, fault);
            if r.2 && |content| + 1 == 65536 then Overrun(r.0, r.1, content + [ToSector(p)])
            else Astray(r.0, r.1, if r.2 then content + [ToSector(p)] else content, stem)
  {
    var s := SessionOf(n, c.txID);
    var r := WriteOp(s.tx, BlobOf(n, s.name), ToSector(p), fault);
    var v, v' := ViewOf(n, c.txID), View(r.tx, BlobOf(n, s.name));
    WriteFills(s.tx, BlobOf(n, s.name), ToSector(p), fault);
    assert v'[..s.tx.cursor] == v[..s.tx.cursor] by {
      assert r.out.Done? ==> v'[..s.tx.cursor] == v'[..s.tx.cursor + 1][..s.tx.cursor];
    }
    SameStem(v, v', s.tx.cursor, stem);
    assert (content + [ToSector(p)])[..|content|] == content && (content + [ToSector(p)])[..stem] == content[..stem];
  }

  /** The commit of a client astray is refused, whatever it signs. */
  lemma AstrayRefused(w: World, c: Writer, n: Host, content: seq<Sector>, stem: nat, sig: Signature, now: Time, busy: bool)
    requires Astray(c, n, content, stem)
    ensures !Lockstep(c, n, content) && !OnCommit(w, n, HonestReq(c, sig), now, AllPut, busy).1
  {
    CommitAcceptsExactly(w, n, HonestReq(c, sig), content, now, busy);
    assert ViewOf(n, c.txID)[..|content|][..stem] == ViewOf(n, c.txID)[..stem];
  }

  function HonestReq(c: Writer, sig: Signature): CommitReq {
    CommitReq(c.txID, c.epoch, c.size, c.tip, sig)
  }

  /**
   A client in step with a signature that covers its seal is accepted exactly up to the blob
   size and on a free name, and its content is then published.
   */
  lemma HonestCommit(w: World, c: Writer, n: Host, content: seq<Sector>, sig: Signature, now: Time, busy: bool)
    requires Lockstep(c, n, content)
    requires var name := SessionOf(n, c.txID).name;
             name in n.db.keys && w.verify(n.db.keys[name], sig, Seal(name, c.epoch, c.size, c.tip, Zero))
    requires Sized(BlobOf(n, SessionOf(n, c.txID).name).sectors)
    ensures var (n', ok) := OnCommit(w, n, HonestReq(c, sig), now, AllPut, busy);
            var name := SessionOf(n, c.txID).name;
            && (ok <==> |content| <= MAX_SECTORS && !busy)
            && (ok ==>
                  && name in n'.db.headers && name in n'.db.tables
                  && n'.db.headers[name] == Header(name, c.epoch, |content|, Fold(Zero, content), sig, Zero, now)
                  && Consistent(n'.db.headers[name], n'.db.tables[name], BlobOf(n', name).sectors)
                  && BlobOf(n', name).sectors[..|content|] == content)
  {
    CommitAcceptsExactly(w, n, HonestReq(c, sig), content, now, busy);
    if |content| <= MAX_SECTORS && !busy {
      CommitPublishes(w, n, HonestReq(c, sig), now);
    }
  }

  /** An accepted commit leaves a header and table that index the published blob. */
  lemma CommitPublishes(w: World, n: Host, req: CommitReq, now: Time)
    requires OnCommit(w, n, req, now, AllPut, false).1
    requires Open(SessionOf(n, req.txID).tx) && Sized(ViewOf(n, req.txID))
    requires Sized(BlobOf(n, SessionOf(n, req.txID).name).sectors)
    ensures Known(n, req.txID)
    ensures var n' := OnCommit(w, n, req, now, AllPut, false).0;
            var s := SessionOf(n, req.txID);
            var h := CommitHeader(s.name, req, now);
            && s.name in n'.db.tables
            && n'.db.headers == n.db.headers[s.name := h]
            && Consistent(h, n'.db.tables[s.name], BlobOf(n', s.name).sectors)
            && BlobOf(n', s.name).sectors[..h.size] == ViewOf(n, req.txID)[..h.size]
  {
    var s := SessionOf(n, req.txID);
    var base := BlobOf(n, s.name);
    HashOpOk(s.tx, base, req.size, NO_FAULTS);
    HashedIsPublished(s.tx, base, req.size, NO_FAULTS);
  }
}
