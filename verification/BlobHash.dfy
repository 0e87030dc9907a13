/** Re-hashing what a transaction sees: the sequential reader and `SerialHash`. */
module BlobHash {
  import opened Basics
  import opened HashChain
  import opened BlobTx

  /** The clone fails, or the reads of these sectors do. */
  datatype HashFaults = HashFaults(clone: bool, sectors: set<nat>)

  const NO_FAULTS: HashFaults := HashFaults(false, {})

  /**
   Hashing the first `size` sectors seen by a transaction, with `faults` striking. The reader stops at the blob size, so no size above `MAX_SECTORS` is ever hashed.
   */
  function HashOp(t: Tx, base: File, size: U16, faults: HashFaults): (Tx, Result<seq<Hash>, TxError>) {
    if size == 0 then (t, Ok(Table([])))
    else if t.closed then (t, Err(TxClosed))
    else if t.removed then (t, Err(TxRemoved))
    else if faults.clone && !t.initialized then (t, Err(IoError))
    else
      var t' := Init(t, base);
      if exists i :: i in faults.sectors && i < size && i < MAX_SECTORS then (t', Err(IoError))
      else if |t'.f| < size && |t'.f| < MAX_SECTORS then (t', Err(IoError))
      else if size > MAX_SECTORS then (t', Err(EndOfFile))
      else (t', Ok(Table(t'.f[..size])))
  }

  /** A size is hashed only if it fits, and then into the table of exactly that many sectors. */
  lemma HashOpOk(t: Tx, base: File, size: U16, faults: HashFaults)
    requires HashOp(t, base, size, faults).1.Ok?
    ensures size <= MAX_SECTORS && size <= |View(t, base)|
    ensures HashOp(t, base, size, faults).1.value == Table(View(t, base)[..size])
    ensures TipOf(HashOp(t, base, size, faults).1.value) == Fold(Zero, View(t, base)[..size])
  {
    assert size == 0 ==> View(t, base)[..size] == [];
    TipOfTable(View(t, base)[..size]);
  }

  /**
   When a size is hashed at all: nothing to hash always is; otherwise the transaction is open,
   the size fits blob and view, and no read of it fails.
   */
  lemma HashExactly(t: Tx, base: File, size: U16, faults: HashFaults)
    ensures var r := HashOp(t, base, size, faults);
            && (r.1.Ok? <==> size == 0 || (&& Open(t) && size <= 4096 && size <= |View(t, base)|
                                           && (faults.clone ==> t.initialized)
                                           && (forall i :: i in faults.sectors ==> i >= size)))
            && (size == 0 ==> r.0 == t)
            && (size > 0 && Open(t) && (faults.clone ==> t.initialized) ==> r.0 == t.(f := View(t, base), initialized := true))
  {
  }

  /** Committing after a successful re-hash publishes the sectors that were hashed. */
  lemma HashedIsPublished(t: Tx, base: File, size: U16, faults: HashFaults)
    requires Sized(base.sectors) && Sized(View(t, base)) && Open(t)
    requires HashOp(t, base, size, faults).1.Ok?
    ensures var base' := CommitOp(HashOp(t, base, size, faults).0, base).0;
            && size <= MAX_SECTORS && Sized(base'.sectors)
            && base'.sectors[..size] == View(t, base)[..size]
            && base'.present == base.present
  {
  }

  /** `blob.Reader` over a transaction, always read one sector at a time. */
  class Reader {
    const tx: Transaction
    var offset: nat

    ghost predicate Valid()
      reads this
    {
      offset % SECTOR_BYTES == 0 && offset <= SIZE
    }

    constructor (tx: Transaction)
      ensures this.tx == tx && offset == 0 && Valid()
    {
      this.tx, offset := tx, 0;
    }

    method Read(fault: ReadFault) returns (r: Result<Sector, TxError>)
      requires Valid()
      modifies this, tx
      ensures Valid()
      ensures old(offset) >= SIZE ==> r == Err(EndOfFile) && unchanged(this) && unchanged(tx)
      ensures old(offset) < SIZE ==>
                && (tx.State(), r) == ReadOp(old(tx.State()), tx.blob.State(), old(offset), fault)
                && offset == old(offset) + (if r.Ok? then SECTOR_BYTES else 0)
    {
      if offset >= SIZE {
        return Err(EndOfFile);
      }
      r := tx.ReadAt(offset, fault);
      if r.Ok? {
        offset := offset + SECTOR_BYTES;
      }
    }
  }

  /** `SerialHash` from the zero hash. The table index stays in bounds because the reader ends first. */
  method SerialHash(br: Reader, size: U16, faults: HashFaults) returns (r: Result<seq<Hash>, TxError>)
    requires br.Valid() && br.offset == 0
    modifies br, br.tx
    ensures (br.tx.State(), r) == HashOp(old(br.tx.State()), br.tx.blob.State(), size, faults)
  {
    ghost var t0, base := br.tx.State(), br.tx.blob.State();
    ghost var view := View(t0, base);
    var res := seq(MAX_SECTORS, _ => Zero);
    assert res == Table(view[..0]);
    var prev := Zero;
    var i := 0;
    while i < size
      invariant 0 <= i <= size && i <= MAX_SECTORS && i <= |view|
      invariant br.Valid() && br.offset == i * SECTOR_BYTES
      invariant br.tx.State() == if i == 0 then t0 else Init(t0, base)
      invariant i > 0 ==> Open(t0)
      invariant prev == Fold(Zero, view[..i]) && res == Table(view[..i])
      invariant forall j :: j in faults.sectors ==> i <= j
      invariant i > 0 ==> t0.initialized || !faults.clone
    {
      var s := br.Read(if faults.clone && !br.tx.initialized then CloneFails else if i in faults.sectors then ReadFails else NoReadFault);
      if s.Err? {
        return Err(s.error);
      }
      TableStep(view, i);
      res := res[i := SerialHashSector(s.value, prev)];
      prev := res[i];
      i := i + 1;
    }
    r := Ok(res);
  }
}
