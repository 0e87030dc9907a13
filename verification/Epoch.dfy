/** Epoch arithmetic: each name's weekly epochs start at an hour offset taken from its hash. */
module Epoch {
  import opened Basics

  /** 1 January 2020, 00:00 UTC. */
  const EPOCH_DATE: Time := 1577836800
  const SECONDS_PER_HOUR: nat := 60 * 60
  const HOURS_PER_WEEK: nat := 7 * 24

  /** Whole seconds of the longest Go duration; time differences saturate there. */
  const MAX_DURATION: int := 9223372036

  /** The last epoch the clock can reach before time differences saturate. */
  const LAST_EPOCH: nat := 15250

  function BigEndian(b: seq<Byte>): nat {
    if b == [] then 0 else 256 * BigEndian(b[..|b| - 1]) + b[|b| - 1]
  }

  lemma Quotient(a: nat, n: nat) returns (q: nat)
    requires n > 0
    ensures a == n * q + a % n
  {
    q := a / n;
  }

  lemma ModStep(p: nat, x: nat, c: nat, n: nat)
    requires n > 0 && p == 256 % n
    ensures (p * (x % n) + c) % n == (256 * x + c) % n
  {
    var q := Quotient(x, n);
    var k := Quotient(256, n);
    ModStepFrom(n, k, p, q, x % n, c);
  }

  lemma ModStepFrom(n: nat, k: nat, p: nat, q: nat, m: nat, c: nat)
    requires n > 0 && 256 == n * k + p
    ensures (p * m + c) % n == (256 * (n * q + m) + c) % n
  {
    Regroup(n, k, p, q, m, c);
    ModAddMultiple(p * m + c, 256 * q + k * m, n);
  }

  lemma Regroup(n: int, k: int, p: int, q: int, m: int, c: int)
    requires 256 == n * k + p
    ensures 256 * (n * q + m) + c == n * (256 * q + k * m) + (p * m + c)
  {
  }

  lemma {:induction false} ModAddMultiple(r: nat, m: nat, n: nat)
    requires n > 0
    ensures (n * m + r) % n == r % n
    decreases m
  {
    if m > 0 {
      ModAddMultiple(r, m - 1, n);
      assert n * m + r == (n * (m - 1) + r) + n;
      ModAddOne(n * (m - 1) + r, n);
    } else {
      assert n * m + r == r;
    }
  }

  lemma ModAddOne(a: nat, n: nat)
    requires n > 0
    ensures (a + n) % n == a % n
  {
    assert a == n * (a / n) + a % n;
    assert a + n == n * (a / n + 1) + a % n;
    QuotientUnique(a + n, a / n + 1, a % n, n);
  }

  lemma QuotientUnique(a: nat, q: nat, r: nat, n: nat)
    requires n > 0 && r < n && a == n * q + r
    ensures a % n == r
  {
    var d := q - a / n;
    assert n * d == a % n - r;
    MultipleBelow(n, d);
  }

  /** A multiple of n strictly between -n and n is zero. */
  lemma MultipleBelow(n: int, d: int)
    requires n > 0 && -n < n * d < n
    ensures d == 0
  {
  }

  /** `modBuffer`: reducing at every byte gives the big-endian value modulo n. */
  method ModBuffer(b: seq<Byte>, n: nat) returns (acc: nat)
    requires n > 0
    ensures acc == BigEndian(b) % n
  {
    var p := 256 % n;
    acc := 0;
    for i := 0 to |b|
      invariant acc == BigEndian(b[..i]) % n
    {
      assert b[..i + 1][..i] == b[..i];
      ModStep(p, BigEndian(b[..i]), b[i], n);
      acc := (p * acc + b[i]) % n;
    }
    assert b[..|b|] == b;
  }

  function StartDate(nameHash: seq<Byte>): (t: Time)
    ensures EPOCH_DATE <= t < EPOCH_DATE + WEEK
  {
    EPOCH_DATE + (BigEndian(nameHash) % HOURS_PER_WEEK) * SECONDS_PER_HOUR
  }

  /** `time.Time.Sub` in whole seconds, saturating as Go durations do. */
  function Elapsed(now: Time, start: Time): int {
    if now - start > MAX_DURATION then MAX_DURATION
    else if now - start < -MAX_DURATION then -MAX_DURATION
    else now - start
  }

  /** Go's integer division, truncating toward zero. */
  function TruncDiv(a: int, b: int): int
    requires b > 0
  {
    if a >= 0 then a / b else -((-a) / b)
  }

  function Current(nameHash: seq<Byte>, now: Time): U16 {
    TruncDiv(Elapsed(now, StartDate(nameHash)), WEEK) % 65536
  }

  method CurrentEpoch(nameHash: seq<Byte>, now: Time) returns (e: U16)
    ensures e == Current(nameHash, now)
  {
    var mod := ModBuffer(nameHash, HOURS_PER_WEEK);
    var offset := mod * SECONDS_PER_HOUR;
    var startDate := EPOCH_DATE + offset;
    e := TruncDiv(Elapsed(now, startDate), WEEK) % 65536;
  }

  /** Once a name's epochs have started the 16-bit result never wraps, nor does its successor. */
  lemma CurrentBounded(h: seq<Byte>, now: Time)
    requires now >= StartDate(h)
    ensures Current(h, now) == Elapsed(now, StartDate(h)) / WEEK
    ensures 0 <= Current(h, now) <= LAST_EPOCH
    ensures AddU16(Current(h, now), 1) == Current(h, now) + 1
  {
  }

  lemma CurrentMonotone(h: seq<Byte>, t1: Time, t2: Time)
    requires StartDate(h) <= t1 <= t2
    ensures Current(h, t1) <= Current(h, t2)
  {
  }

  /** Until saturation the epoch rises by exactly one each week. */
  lemma CurrentWeekly(h: seq<Byte>, t: Time)
    requires StartDate(h) <= t && t + WEEK - StartDate(h) <= MAX_DURATION
    ensures Current(h, t + WEEK) == Current(h, t) + 1
  {
  }

  /** Less than a week apart the epoch rises by at most one. */
  lemma CurrentWithinWeek(h: seq<Byte>, t1: Time, t2: Time)
    requires StartDate(h) <= t1 <= t2 < t1 + WEEK
    ensures Current(h, t1) <= Current(h, t2) <= Current(h, t1) + 1
  {
  }

  /**
   The rule of the epochs written out in hours and seconds: a name whose hash is r modulo 168
   starts r hours after 1 January 2020, and enters epoch k after k weeks, until time
   differences saturate.
   */
  lemma EpochRule(h: seq<Byte>, q: nat, r: nat, k: nat, d: nat)
    requires BigEndian(h) == 168 * q + r && r < 168 && d < 604800
    ensures Current(h, 1577836800 + r * 3600 + k * 604800 + d) == if k * 604800 + d <= 9223372036 then k else 15250
  {
    QuotientUnique(BigEndian(h), q, r, 168);
  }

  /** Before the start the quotient is cut toward zero and then wraps: the week before it is epoch zero as well. */
  lemma EpochBefore(h: seq<Byte>, q: nat, r: nat, k: nat, d: nat)
    requires BigEndian(h) == 168 * q + r && r < 168 && d < 604800 && k * 604800 + d <= 9223372036
    ensures Current(h, 1577836800 + r * 3600 - k * 604800 - d) == if k == 0 then 0 else 65536 - k
  {
    QuotientUnique(BigEndian(h), q, r, 168);
  }
}
