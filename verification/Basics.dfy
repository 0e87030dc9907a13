/** Shared value types: fixed-width integers, sectors, clock readings, results. */
module Basics {

  datatype Option<+T> = None | Some(value: T) {
    function GetOr(other: T): T {
      match this
      case None => other
      case Some(v) => v
    }
  }

  datatype Result<+T, +E> = Ok(value: T) | Err(error: E)

  type Byte = x: int | 0 <= x < 256

  /** Go's uint16. Conversions and additions in the source wrap, so they go through these. */
  type U16 = x: int | 0 <= x < 65536

  function ToU16(x: nat): U16 {
    if x < 65536 then x else x % 65536
  }

  function AddU16(a: U16, b: nat): U16 {
    ToU16(a + b)
  }

  /** Unix seconds. `ZERO_TIME` is Go's zero `time.Time`, 1 January of year 1. */
  type Time = int

  const ZERO_TIME: Time := -62135596800
  const WEEK: int := 7 * 24 * 60 * 60

  const SECTOR_BYTES: nat := 256
  const MAX_SECTORS: nat := 4096
  const SIZE: nat := SECTOR_BYTES * MAX_SECTORS

  type Sector = s: seq<Byte> | |s| == SECTOR_BYTES witness seq(SECTOR_BYTES, _ => 0)

  function ZeroSector(): Sector {
    seq(SECTOR_BYTES, _ => 0)
  }

  function Zeros(n: nat): (zs: seq<Sector>)
    ensures |zs| == n
  {
    seq(n, _ => ZeroSector())
  }

  /** No element occurs twice. */
  predicate NoDups<T(==)>(s: seq<T>) {
    forall i, j :: 0 <= i < j < |s| ==> s[i] != s[j]
  }
}
