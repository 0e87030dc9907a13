/**
 Blob files and the transactions over them. Each operation is a function on the
 transaction's fields; the classes below perform the same operations in place.
 A file is its list of sectors. It never shrinks below `MAX_SECTORS`, but nothing
 in the write path keeps it from growing past that.
 */
module BlobTx {
  import opened Basics

  datatype TxError = Misaligned | SeekBeforeWritten | SeekBeyondBounds | TxClosed | TxRemoved | IoError | EndOfFile

  datatype Outcome = Done | Failed(err: TxError) | Panicked

  datatype Whence = SeekStart | SeekCurrent | SeekEnd

  /** What the file system does to one write: nothing odd, a failed clone, or a torn sector. */
  datatype WriteFault = NoFault | CloneFault | TornWrite(left: Sector)

  datatype File = File(sectors: seq<Sector>, present: bool)

  /** The fields of a transaction; `f` is its private clone and `cursor` its next sector. */
  datatype Tx = Tx(f: seq<Sector>, cursor: U16, initialized: bool, closed: bool, removed: bool)

  datatype Step = Step(tx: Tx, out: Outcome)

  const FRESH: Tx := Tx([], 0, false, false, false)

  predicate Sized(f: seq<Sector>) {
    |f| >= MAX_SECTORS
  }

  predicate Open(t: Tx) {
    !t.closed && !t.removed
  }

  /** What reads through the transaction see. */
  function View(t: Tx, base: File): seq<Sector> {
    if t.initialized then t.f else base.sectors
  }

  function Init(t: Tx, base: File): Tx {
    t.(f := View(t, base), initialized := true)
  }

  /** Writing past the end leaves a gap of zero sectors, as a sparse file does. */
  function WriteAt(f: seq<Sector>, i: nat, s: Sector): (g: seq<Sector>)
    ensures |g| == if i < |f| then |f| else i + 1
    ensures g[i] == s
    ensures forall j :: 0 <= j < |f| && j != i ==> g[j] == f[j]
    ensures forall j :: |f| <= j < i ==> g[j] == ZeroSector()
  {
    if i < |f| then f[i := s] else f + Zeros(i - |f|) + [s]
  }

  function TornAt(f: seq<Sector>, i: nat, left: Sector): seq<Sector> {
    if i < |f| then f[i := left] else f
  }

  function SeekOp(t: Tx, off: int, whence: Whence): Step {
    if off % SECTOR_BYTES != 0 then Step(t, Failed(Misaligned))
    else if off < t.cursor * SECTOR_BYTES then Step(t, Failed(SeekBeforeWritten))
    else if whence != SeekStart then Step(t, Done)
    else if off > SIZE then Step(t, Failed(SeekBeyondBounds))
    else Step(t.(cursor := off / SECTOR_BYTES), Done)
  }

  /** What the file system does to one read. */
  datatype ReadFault = NoReadFault | CloneFails | ReadFails

  function ReadOp(t: Tx, base: File, off: nat, fault: ReadFault): (Tx, Result<Sector, TxError>)
    requires off % SECTOR_BYTES == 0
  {
    if t.closed then (t, Err(TxClosed))
    else if t.removed then (t, Err(TxRemoved))
    else if fault.CloneFails? && !t.initialized then (t, Err(IoError))
    else
      var t' := Init(t, base);
      if off >= SIZE then (t', Err(EndOfFile))
      else if fault.ReadFails? || off / SECTOR_BYTES >= |t'.f| then (t', Err(IoError))
      else (t', Ok(t'.f[off / SECTOR_BYTES]))
  }

  function WriteOp(t: Tx, base: File, s: Sector, fault: WriteFault): Step {
    if t.closed then Step(t, Failed(TxClosed))
    else if t.removed then Step(t, Failed(TxRemoved))
    else if fault.CloneFault? && !t.initialized then Step(t, Failed(IoError))
    else
      var t' := Init(t, base);
      if fault.TornWrite? then Step(t'.(f := TornAt(t'.f, t.cursor, fault.left)), Failed(IoError))
      else Step(t'.(f := WriteAt(t'.f, t.cursor, s), cursor := AddU16(t.cursor, 1)), Done)
  }

  /** `Truncate` leaves the cursor alone and never looks at `closed`; the temp file of a closed one is gone. */
  function TruncateOp(t: Tx): Step {
    if t.removed then Step(t, Failed(TxRemoved))
    else if t.initialized && t.closed then Step(t, Failed(IoError))
    else Step(t.(f := Zeros(MAX_SECTORS), initialized := true), Done)
  }

  /** Copying the clone over the base does not cut a longer base. */
  function Overwrite(was: seq<Sector>, clone: seq<Sector>): seq<Sector> {
    clone + (if |clone| < |was| then was[|clone|..] else [])
  }

  function CommitOp(t: Tx, base: File): (File, Step) {
    if t.closed then (base, Step(t, Failed(TxClosed)))
    else if t.removed then
      if base.present then (base.(present := false), Step(t.(closed := true), Done))
      else (base, Step(t, Panicked))
    else if t.initialized then
      (base.(sectors := Overwrite(base.sectors, t.f)), Step(t.(closed := true), Done))
    else (base, Step(t.(closed := true), Done))
  }

  function RollbackOp(t: Tx): Step {
    if t.closed then Step(t, Failed(TxClosed)) else Step(t.(closed := true), Done)
  }

  function RemoveOp(t: Tx): Step {
    if t.closed then Step(t, Failed(TxClosed))
    else if t.removed && t.initialized then Step(t, Panicked)
    else Step(t.(removed := true), Done)
  }

  // ---------------------------------------------------------------- what each operation answers

  /** A seek goes to whole sectors at or above the cursor, up to the blob size; only one from the start moves. */
  lemma SeekExactly(t: Tx, off: int, whence: Whence)
    ensures var r := SeekOp(t, off, whence);
            && (r.out.Done? <==> off % 256 == 0 && off >= t.cursor * 256 && (whence.SeekStart? ==> off <= 256 * 4096))
            && r.tx == t.(cursor := r.tx.cursor)
            && r.tx.cursor == (if r.out.Done? && whence.SeekStart? then off / 256 else t.cursor)
            && (!r.out.Done? ==> r.out == Failed(if off % 256 != 0 then Misaligned
                                                 else if off < t.cursor * 256 then SeekBeforeWritten else SeekBeyondBounds))
  {
  }

  /** A read sees the sector in view below the blob size, and nothing else; it leaves the clone behind. */
  lemma ReadExactly(t: Tx, base: File, i: nat, fault: ReadFault)
    requires Open(t) && (fault.CloneFails? ==> t.initialized)
    ensures var r := ReadOp(t, base, i * 256, fault);
            && r.0 == t.(f := View(t, base), initialized := true)
            && (r.1.Ok? <==> i < 4096 && i < |View(t, base)| && !fault.ReadFails?)
            && (r.1.Ok? ==> r.1.value == View(t, base)[i])
            && (r.1.Err? ==> r.1.error == if i >= 4096 then EndOfFile else IoError)
  {
    assert (i * 256) / 256 == i && (i * 256 >= SIZE <==> i >= 4096);
  }

  /** A closed transaction refuses everything that reads, writes or ends it; truncation only looks for a clone. */
  lemma ClosedRefuses(t: Tx, base: File, i: nat, s: Sector, rf: ReadFault, wf: WriteFault)
    requires t.closed
    ensures ReadOp(t, base, i * 256, rf) == (t, Err(TxClosed)) && WriteOp(t, base, s, wf) == Step(t, Failed(TxClosed))
    ensures CommitOp(t, base) == (base, Step(t, Failed(TxClosed))) && RollbackOp(t) == Step(t, Failed(TxClosed))
    ensures RemoveOp(t) == Step(t, Failed(TxClosed))
    ensures !t.removed ==> (TruncateOp(t).out.Done? <==> !t.initialized)
  {
  }

  /** A removed one refuses reads, writes and truncation, and its commit takes the file away. */
  lemma RemovedRefuses(t: Tx, base: File, i: nat, s: Sector, rf: ReadFault, wf: WriteFault)
    requires t.removed && !t.closed
    ensures ReadOp(t, base, i * 256, rf) == (t, Err(TxRemoved)) && WriteOp(t, base, s, wf) == Step(t, Failed(TxRemoved))
    ensures TruncateOp(t) == Step(t, Failed(TxRemoved)) && RemoveOp(t) == Step(t, if t.initialized then Panicked else Done)
    ensures var r := CommitOp(t, base);
            && (base.present ==> !r.0.present && r.1 == Step(t.(closed := true), Done))
            && (!base.present ==> r.0 == base && r.1.out == Panicked)
  {
  }

  /** Failing clones and torn writes leave the cursor where it was, and at most the sector under it changed. */
  lemma FailedWrite(t: Tx, base: File, s: Sector, fault: WriteFault)
    requires Open(t) && !fault.NoFault?
    ensures var r, v := WriteOp(t, base, s, fault), View(t, base);
            && (fault.TornWrite? ==>
                  && r.out == Failed(IoError) && r.tx.cursor == t.cursor
                  && View(r.tx, base) == if t.cursor < |v| then v[t.cursor := fault.left] else v)
            && (fault.CloneFault? && !t.initialized ==> r == Step(t, Failed(IoError)))
  {
  }

  /** Emptying, ending and removing an open transaction. */
  lemma OpenEnds(t: Tx)
    requires Open(t)
    ensures TruncateOp(t) == Step(t.(f := Zeros(4096), initialized := true), Done)
    ensures RollbackOp(t) == Step(t.(closed := true), Done) && RemoveOp(t) == Step(t.(removed := true), Done)
  {
  }

  // ---------------------------------------------------------------- writing a list

  function FaultAt(faults: seq<WriteFault>, i: nat): WriteFault {
    if i < |faults| then faults[i] else NoFault
  }

  /** Write `ss` one by one, carrying on after failures, as the syncer does. */
  function WriteAll(t: Tx, base: File, ss: seq<Sector>, faults: seq<WriteFault>): Tx
    decreases |ss|
  {
    if ss == [] then t
    else WriteOp(WriteAll(t, base, ss[..|ss| - 1], faults), base, ss[|ss| - 1], FaultAt(faults, |ss| - 1)).tx
  }

  /** The sectors among `ss` whose write succeeds. */
  function Landed(t: Tx, base: File, ss: seq<Sector>, faults: seq<WriteFault>): seq<Sector>
    decreases |ss|
  {
    if ss == [] then []
    else
      var m := |ss| - 1;
      var before := Landed(t, base, ss[..m], faults);
      if WriteOp(WriteAll(t, base, ss[..m], faults), base, ss[m], FaultAt(faults, m)).out.Done? then before + [ss[m]]
      else before
  }

  /** `landed` fills the view from `from` up to `to`; below it is as it was, above `to` untouched. */
  predicate Filled(v: seq<Sector>, from: nat, landed: seq<Sector>, v': seq<Sector>, to: nat) {
    && from <= |v| <= |v'| && to == from + |landed| <= |v'|
    && v'[..to] == v[..from] + landed
    && (forall j :: to < j < |v| ==> v'[j] == v[j])
  }

  lemma FilledMore(v: seq<Sector>, from: nat, landed: seq<Sector>, v1: seq<Sector>, to: nat, s: Sector, v2: seq<Sector>)
    requires Filled(v, from, landed, v1, to) && |v1| <= |v2| && to < |v2| && v2[..to + 1] == v1[..to] + [s]
    requires forall j :: to < j < |v1| ==> v2[j] == v1[j]
    ensures Filled(v, from, landed + [s], v2, to + 1)
  {
    assert v[..from] + (landed + [s]) == (v[..from] + landed) + [s];
  }

  lemma WriteOneFills(v: seq<Sector>, from: nat, landed: seq<Sector>, t: Tx, base: File, s: Sector, fault: WriteFault)
    requires Open(t) && t.cursor + 1 < 65536 && Filled(v, from, landed, View(t, base), t.cursor)
    ensures var r := WriteOp(t, base, s, fault);
            Open(r.tx) && Filled(v, from, if r.out.Done? then landed + [s] else landed, View(r.tx, base), r.tx.cursor)
  {
    var r := WriteOp(t, base, s, fault);
    WriteFills(t, base, s, fault);
    if r.out.Done? {
      FilledMore(v, from, landed, View(t, base), t.cursor, s, View(r.tx, base));
    }
  }

  /**
   The k sectors that land fill exactly cursor .. cursor+k-1: everything below the
   cursor is as it was, and above the new cursor only the one sector a failed write
   may have torn can differ.
   */
  lemma {:induction false} WriteAllFills(t: Tx, base: File, ss: seq<Sector>, faults: seq<WriteFault>)
    requires Open(t) && t.cursor + |ss| < 65536
    requires t.cursor <= |View(t, base)|
    ensures var t', landed := WriteAll(t, base, ss, faults), Landed(t, base, ss, faults);
            && |landed| <= |ss| && Open(t') && Filled(View(t, base), t.cursor, landed, View(t', base), t'.cursor)
    decreases |ss|
  {
    if ss == [] {
      assert View(t, base)[..t.cursor] + [] == View(t, base)[..t.cursor];
    } else {
      var m := |ss| - 1;
      WriteAllFills(t, base, ss[..m], faults);
      WriteOneFills(View(t, base), t.cursor, Landed(t, base, ss[..m], faults),
                    WriteAll(t, base, ss[..m], faults), base, ss[m], FaultAt(faults, m));
    }
  }

  /** A write lands right above the cursor or nowhere, and leaves the rest of the view as it was. */
  lemma WriteFills(t: Tx, base: File, s: Sector, fault: WriteFault)
    requires Open(t) && t.cursor <= |View(t, base)|
    ensures var r := WriteOp(t, base, s, fault);
            var v, v' := View(t, base), View(r.tx, base);
            && Open(r.tx) && |v| <= |v'| && r.tx.cursor <= |v'|
            && r.tx.cursor == (if r.out.Done? then AddU16(t.cursor, 1) else t.cursor)
            && (r.out.Done? ==> t.cursor < |v'| && v'[..t.cursor + 1] == v[..t.cursor] + [s])
            && (!r.out.Done? ==> v'[..t.cursor] == v[..t.cursor])
            && (forall j :: t.cursor < j < |v| ==> v'[j] == v[j])
  {
  }

  /** Without faults everything lands. */
  lemma {:induction false} AllLand(t: Tx, base: File, ss: seq<Sector>)
    requires Open(t)
    ensures Open(WriteAll(t, base, ss, [])) && Landed(t, base, ss, []) == ss
    decreases |ss|
  {
    if ss != [] {
      AllLand(t, base, ss[..|ss| - 1]);
      assert ss == ss[..|ss| - 1] + [ss[|ss| - 1]];
    }
  }

  lemma {:induction false} WriteAllSized(t: Tx, base: File, ss: seq<Sector>, faults: seq<WriteFault>)
    requires Sized(View(t, base))
    ensures var t' := WriteAll(t, base, ss, faults);
            Sized(View(t', base)) && t'.closed == t.closed && t'.removed == t.removed && (t.initialized ==> t'.initialized)
    decreases |ss|
  {
    if ss != [] {
      WriteAllSized(t, base, ss[..|ss| - 1], faults);
    }
  }

  // ---------------------------------------------------------------- many transactions over one file

  datatype Action =
    | Seek(off: int, whence: Whence)
    | Read(sector: nat, readFault: ReadFault)
    | Write(s: Sector, fault: WriteFault)
    | Truncate
    | Commit
    | Rollback
    | Remove

  datatype Op = Begin | On(id: nat, action: Action)

  datatype Shared = Shared(base: File, txs: seq<Tx>)

  function Act(t: Tx, base: File, a: Action): (File, Tx) {
    match a
    case Seek(off, whence) => (base, SeekOp(t, off, whence).tx)
    case Read(i, fault) => (base, ReadOp(t, base, i * SECTOR_BYTES, fault).0)
    case Write(s, fault) => (base, WriteOp(t, base, s, fault).tx)
    case Truncate => (base, TruncateOp(t).tx)
    case Commit => var (base', r) := CommitOp(t, base); (base', r.tx)
    case Rollback => (base, RollbackOp(t).tx)
    case Remove => (base, RemoveOp(t).tx)
  }

  function Next(s: Shared, op: Op): Shared {
    match op
    case Begin => s.(txs := s.txs + [FRESH])
    case On(id, a) =>
      if id >= |s.txs| then s
      else var (base', t') := Act(s.txs[id], s.base, a); Shared(base', s.txs[id := t'])
  }

  function Run(s: Shared, ops: seq<Op>): Shared
    decreases |ops|
  {
    if ops == [] then s else Next(Run(s, ops[..|ops| - 1]), ops[|ops| - 1])
  }

  /** A commit of an open transaction that was initialised or removed. */
  predicate Publishes(s: Shared, op: Op) {
    && op.On? && op.action.Commit? && op.id < |s.txs|
    && var t := s.txs[op.id];
       !t.closed && (if t.removed then s.base.present else t.initialized)
  }

  predicate AllSized(s: Shared) {
    Sized(s.base.sectors) && forall i :: 0 <= i < |s.txs| && s.txs[i].initialized ==> Sized(s.txs[i].f)
  }

  lemma {:induction false} RunAllSized(s: Shared, ops: seq<Op>)
    requires AllSized(s)
    ensures AllSized(Run(s, ops)) && |s.txs| <= |Run(s, ops).txs|
    decreases |ops|
  {
    if ops != [] {
      RunAllSized(s, ops[..|ops| - 1]);
    }
  }

  /** Committing publishes the clone; a longer base keeps its tail, so the file equals the clone exactly when it was no longer. */
  lemma CommitPublishesView(t: Tx, base: File)
    requires Open(t) && t.initialized && Sized(t.f)
    ensures var base' := CommitOp(t, base).0;
            && base'.sectors[..|t.f|] == View(t, base)
            && base'.sectors[..MAX_SECTORS] == View(t, base)[..MAX_SECTORS]
            && base'.present == base.present
            && (base'.sectors == View(t, base) <==> |base.sectors| <= |t.f|)
  {
  }

  lemma BaseChangesOnlyWhenPublished(s: Shared, op: Op)
    ensures !Publishes(s, op) ==> Next(s, op).base == s.base
  {
  }

  predicate Quiet(s: Shared, ops: seq<Op>, from: nat)
  {
    forall i :: from <= i < |ops| ==> !Publishes(Run(s, ops[..i]), ops[i])
  }

  lemma QuietExtend(s: Shared, ops: seq<Op>, from: nat)
    requires ops != [] && Quiet(s, ops[..|ops| - 1], from)
    requires !Publishes(Run(s, ops[..|ops| - 1]), ops[|ops| - 1])
    ensures Quiet(s, ops, from)
  {
    var front := ops[..|ops| - 1];
    forall i | from <= i < |ops|
      ensures !Publishes(Run(s, ops[..i]), ops[i])
    {
      if i < |front| {
        assert front[..i] == ops[..i] && front[i] == ops[i];
      }
    }
  }

  /** What the base holds after `op` published from state `at`. */
  predicate HoldsWhatWasPublished(at: Shared, op: Op, base: File)
    requires Publishes(at, op)
  {
    var t := at.txs[op.id];
    if t.removed then base == at.base.(present := false)
    else
      && Sized(t.f) && Sized(base.sectors)
      && base.sectors[..MAX_SECTORS] == t.f[..MAX_SECTORS]
      && base.present == at.base.present
  }

  lemma PublishHolds(at: Shared, op: Op)
    requires AllSized(at) && Publishes(at, op)
    ensures HoldsWhatWasPublished(at, op, Next(at, op).base)
  {
  }

  /**
   Over any interleaving of any number of transactions, what can be read from the base
   is what the last publishing commit's transaction saw, or what was there at the start.
   */
  lemma {:induction false} LastPublisherWins(s: Shared, ops: seq<Op>) returns (k: int)
    requires AllSized(s)
    ensures -1 <= k < |ops| && Quiet(s, ops, k + 1)
    ensures k == -1 ==> Run(s, ops).base == s.base
    ensures k >= 0 ==> Publishes(Run(s, ops[..k]), ops[k])
                       && HoldsWhatWasPublished(Run(s, ops[..k]), ops[k], Run(s, ops).base)
    decreases |ops|
  {
    if ops == [] {
      return -1;
    }
    var m := |ops| - 1;
    var s1 := Run(s, ops[..m]);
    if Publishes(s1, ops[m]) {
      RunAllSized(s, ops[..m]);
      PublishHolds(s1, ops[m]);
      return m;
    }
    k := LastPublisherWins(s, ops[..m]);
    BaseChangesOnlyWhenPublished(s1, ops[m]);
    QuietExtend(s, ops, k + 1);
    assert k >= 0 ==> ops[..m][..k] == ops[..k];
  }

  predicate Leaves(ops: seq<Op>, id: nat) {
    forall i :: 0 <= i < |ops| ==> !(ops[i].On? && ops[i].id == id)
  }

  /** Whatever others do, a transaction that stays idle keeps its state, and once initialised its view. */
  lemma {:induction false} SnapshotIsolation(s: Shared, ops: seq<Op>, id: nat)
    requires id < |s.txs| && Leaves(ops, id)
    ensures var s' := Run(s, ops);
            && id < |s'.txs| && s'.txs[id] == s.txs[id]
            && (s.txs[id].initialized ==> View(s'.txs[id], s'.base) == View(s.txs[id], s.base))
    decreases |ops|
  {
    if ops != [] {
      SnapshotIsolation(s, ops[..|ops| - 1], id);
    }
  }

  lemma {:induction false} ClosedStaysClosed(s: Shared, ops: seq<Op>, id: nat)
    requires id < |s.txs| && s.txs[id].closed
    ensures id < |Run(s, ops).txs| && Run(s, ops).txs[id].closed
    decreases |ops|
  {
    if ops != [] {
      ClosedStaysClosed(s, ops[..|ops| - 1], id);
    }
  }

  lemma {:induction false} RunConcat(s: Shared, a: seq<Op>, b: seq<Op>)
    ensures Run(s, a + b) == Run(Run(s, a), b)
    decreases |b|
  {
    if b == [] {
      assert a + b == a;
    } else {
      assert (a + b)[..|a + b| - 1] == a + b[..|b| - 1];
      RunConcat(s, a, b[..|b| - 1]);
    }
  }

  /** In any run a transaction publishes at most once. */
  lemma PublishesOnce(s: Shared, ops: seq<Op>, i: nat, j: nat)
    requires i < j < |ops| && ops[i].On? && ops[j].On? && ops[i].id == ops[j].id
    requires Publishes(Run(s, ops[..i]), ops[i])
    ensures !Publishes(Run(s, ops[..j]), ops[j])
  {
    var s1 := Run(s, ops[..i + 1]);
    assert ops[..i + 1][..i] == ops[..i];
    assert s1.txs[ops[i].id].closed;
    assert ops[..j] == ops[..i + 1] + ops[i + 1..j];
    RunConcat(s, ops[..i + 1], ops[i + 1..j]);
    ClosedStaysClosed(s1, ops[i + 1..j], ops[i].id);
  }

  // ---------------------------------------------------------------- the objects

  /** `blobImpl`: the open base file. */
  class BlobFile {
    var sectors: seq<Sector>
    var present: bool

    ghost function State(): File
      reads this
    {
      File(sectors, present)
    }

    /** A new file is created zero-filled at full size. */
    constructor ()
      ensures State() == File(Zeros(MAX_SECTORS), true)
    {
      sectors, present := Zeros(MAX_SECTORS), true;
    }

    /** `txCloner` */
    method Clone() returns (clone: seq<Sector>)
      ensures clone == sectors
    {
      clone := sectors;
    }

    /** `txCommitter` */
    method Publish(clone: seq<Sector>)
      modifies this
      ensures State() == old(State()).(sectors := Overwrite(old(sectors), clone))
    {
      sectors := Overwrite(sectors, clone);
    }

    /** `txRemover` */
    method Unlink() returns (ok: bool)
      modifies this
      ensures ok == old(present)
      ensures State() == old(State()).(present := false)
    {
      ok := present;
      present := false;
    }

    /** `ReadBlobAt` for one sector of the base. */
    method ReadAt(off: nat) returns (r: Result<Sector, TxError>)
      requires off % SECTOR_BYTES == 0
      ensures r == if off >= SIZE then Err(EndOfFile)
                   else if off / SECTOR_BYTES >= |sectors| then Err(IoError)
                   else Ok(sectors[off / SECTOR_BYTES])
    {
      r := ReadBlobAt(sectors, off);
    }
  }

  /** A whole-sector read bounded by the blob size: at and past `SIZE` there is only end of file. */
  method ReadBlobAt(f: seq<Sector>, off: nat) returns (r: Result<Sector, TxError>)
    requires off % SECTOR_BYTES == 0
    ensures off >= SIZE ==> r == Err(EndOfFile)
    ensures off < SIZE && off / SECTOR_BYTES < |f| ==> r == Ok(f[off / SECTOR_BYTES])
    ensures off < SIZE && off / SECTOR_BYTES >= |f| ==> r == Err(IoError)
  {
    if off > SIZE {
      return Err(EndOfFile);
    }
    if SECTOR_BYTES + off > SIZE {
      return Err(EndOfFile);
    }
    if off / SECTOR_BYTES >= |f| {
      return Err(IoError);
    }
    r := Ok(f[off / SECTOR_BYTES]);
  }

  /** `txImpl` */
  class Transaction {
    const blob: BlobFile
    var f: seq<Sector>
    var sectorSize: U16
    var initialized: bool
    var closed: bool
    var removed: bool

    ghost function State(): Tx
      reads this
    {
      Tx(f, sectorSize, initialized, closed, removed)
    }

    constructor (blob: BlobFile)
      ensures this.blob == blob && State() == FRESH
    {
      this.blob := blob;
      f, sectorSize, initialized, closed, removed := [], 0, false, false, false;
    }

    method Seek(off: int, whence: Whence) returns (out: Outcome)
      modifies this
      ensures Step(State(), out) == SeekOp(old(State()), off, whence)
    {
      if off % SECTOR_BYTES != 0 {
        return Failed(Misaligned);
      }
      if off < sectorSize * SECTOR_BYTES {
        return Failed(SeekBeforeWritten);
      }
      match whence {
        case SeekStart =>
          if off > SIZE {
            return Failed(SeekBeyondBounds);
          }
          sectorSize := off / SECTOR_BYTES;
        case SeekCurrent =>
        case SeekEnd =>
      }
      out := Done;
    }

    method LazyInitialize(fails: bool) returns (ok: bool)
      modifies this
      ensures ok == !(fails && !old(initialized))
      ensures State() == if ok then Init(old(State()), blob.State()) else old(State())
    {
      if initialized {
        return true;
      }
      if fails {
        return false;
      }
      var clone := blob.Clone();
      f := clone;
      initialized := true;
      ok := true;
    }

    method ReadAt(off: nat, fault: ReadFault) returns (r: Result<Sector, TxError>)
      requires off % SECTOR_BYTES == 0
      modifies this
      ensures (State(), r) == ReadOp(old(State()), blob.State(), off, fault)
    {
      if closed {
        return Err(TxClosed);
      }
      if removed {
        return Err(TxRemoved);
      }
      var ok := LazyInitialize(fault.CloneFails?);
      if !ok {
        return Err(IoError);
      }
      r := ReadBlobAt(f, off);
      if r.Ok? && fault.ReadFails? {
        r := Err(IoError);
      }
    }

    method WriteSector(s: Sector, fault: WriteFault) returns (out: Outcome)
      modifies this
      ensures Step(State(), out) == WriteOp(old(State()), blob.State(), s, fault)
    {
      if closed {
        return Failed(TxClosed);
      }
      if removed {
        return Failed(TxRemoved);
      }
      var ok := LazyInitialize(fault.CloneFault?);
      if !ok {
        return Failed(IoError);
      }
      if fault.TornWrite? {
        f := TornAt(f, sectorSize, fault.left);
        return Failed(IoError);
      }
      f := WriteAt(f, sectorSize, s);
      sectorSize := AddU16(sectorSize, 1);
      out := Done;
    }

    method Truncate() returns (out: Outcome)
      modifies this
      ensures Step(State(), out) == TruncateOp(old(State()))
    {
      if removed {
        return Failed(TxRemoved);
      }
      if initialized {
        if closed {
          return Failed(IoError);
        }
      }
      f := Zeros(MAX_SECTORS);
      initialized := true;
      out := Done;
    }

    method Commit() returns (out: Outcome)
      modifies this, blob
      ensures (blob.State(), Step(State(), out)) == CommitOp(old(State()), old(blob.State()))
    {
      if closed {
        return Failed(TxClosed);
      }
      if removed {
        var ok := blob.Unlink();
        if !ok {
          return Panicked;
        }
      } else if initialized {
        blob.Publish(f);
      }
      closed := true;
      out := Done;
    }

    method Rollback() returns (out: Outcome)
      modifies this
      ensures Step(State(), out) == RollbackOp(old(State()))
    {
      if closed {
        return Failed(TxClosed);
      }
      if !initialized || removed {
        closed := true;
        return Done;
      }
      closed := true;
      out := Done;
    }

    method Remove() returns (out: Outcome)
      modifies this
      ensures Step(State(), out) == RemoveOp(old(State()))
    {
      if closed {
        return Failed(TxClosed);
      }
      var wasRemoved := removed;
      removed := true;
      if !initialized {
        return Done;
      }
      if wasRemoved {
        return Panicked;
      }
      out := Done;
    }
  }
}
