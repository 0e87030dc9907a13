/**
 The sector hash chain. A hash is a free term over the sector it covers and the
 hash before it, so equal hashes have equal histories and no computed hash is zero.
 */
module HashChain {
  import opened Basics

  datatype Hash = Zero | Node(prev: Hash, sector: Sector)

  function SerialHashSector(sector: Sector, prev: Hash): Hash {
    Node(prev, sector)
  }

  /** The chain hash reached from `prev` after hashing `ss` in order. */
  function Fold(prev: Hash, ss: seq<Sector>): Hash
    decreases |ss|
  {
    if ss == [] then prev
    else SerialHashSector(ss[|ss| - 1], Fold(prev, ss[..|ss| - 1]))
  }

  /** Hashing a list in two parts gives the same tip as hashing it at once. */
  lemma {:induction false} FoldAppend(prev: Hash, a: seq<Sector>, b: seq<Sector>)
    ensures Fold(prev, a + b) == Fold(Fold(prev, a), b)
    decreases |b|
  {
    if b == [] {
      assert a + b == a;
    } else {
      var m := |b| - 1;
      assert (a + b)[..|a + b| - 1] == a + b[..m];
      FoldAppend(prev, a, b[..m]);
    }
  }

  /** Equal tips over equally long lists: same sectors and same starting hash. */
  lemma {:induction false} FoldInjective(p: Hash, q: Hash, a: seq<Sector>, b: seq<Sector>)
    requires |a| == |b|
    requires Fold(p, a) == Fold(q, b)
    ensures p == q && a == b
    decreases |a|
  {
    if a != [] {
      var m := |a| - 1;
      FoldInjective(p, q, a[..m], b[..m]);
      assert a == a[..m] + [a[m]];
      assert b == b[..m] + [b[m]];
    }
  }

  /** From the zero hash even the length is determined: the tip is a unique name of the blob. */
  lemma {:induction false} ChainInjective(a: seq<Sector>, b: seq<Sector>)
    requires Fold(Zero, a) == Fold(Zero, b)
    ensures a == b
    decreases |a|
  {
    if a != [] && b != [] {
      ChainInjective(a[..|a| - 1], b[..|b| - 1]);
      assert a == a[..|a| - 1] + [a[|a| - 1]];
      assert b == b[..|b| - 1] + [b[|b| - 1]];
    }
  }

  /** Two lists that reach the same tip, one from zero and one from the tip of a known prefix. */
  lemma {:induction false} FoldFromPrefix(prefix: seq<Sector>, payload: seq<Sector>, whole: seq<Sector>)
    ensures Fold(Fold(Zero, prefix), payload) == Fold(Zero, whole) <==> whole == prefix + payload
  {
    FoldAppend(Zero, prefix, payload);
    if Fold(Fold(Zero, prefix), payload) == Fold(Zero, whole) {
      ChainInjective(prefix + payload, whole);
    }
  }

  /** The table `SerialHash` builds: entry i covers the first i+1 sectors, the rest is zero. */
  function Table(ss: seq<Sector>): (t: seq<Hash>)
    requires |ss| <= MAX_SECTORS
  {
    seq(MAX_SECTORS, i requires 0 <= i < MAX_SECTORS => if i < |ss| then Fold(Zero, ss[..i + 1]) else Zero)
  }

  /** Position of the first zero entry at or after `from`. */
  function FirstZero(t: seq<Hash>, from: nat): (n: nat)
    requires from <= |t|
    ensures n <= |t|
    decreases |t| - from
  {
    if from == |t| || t[from] == Zero then from else FirstZero(t, from + 1)
  }

  lemma {:induction false} FirstZeroIs(t: seq<Hash>, from: nat, n: nat)
    requires from <= n <= |t| && (forall i :: from <= i < n ==> t[i] != Zero) && (n < |t| ==> t[n] == Zero)
    ensures FirstZero(t, from) == n
    decreases n - from
  {
    if from < n {
      FirstZeroIs(t, from + 1, n);
    }
  }

  function TipOf(t: seq<Hash>): Hash {
    var n := FirstZero(t, 0);
    if n == 0 then Zero else t[n - 1]
  }

  /** `SectorHashes.Tip`: the last entry before the first zero one. */
  method Tip(t: seq<Hash>) returns (tip: Hash)
    requires |t| == MAX_SECTORS
    ensures tip == TipOf(t)
  {
    var i := 0;
    while i < MAX_SECTORS
      invariant 0 <= i <= MAX_SECTORS
      invariant forall j :: 0 <= j < i ==> t[j] != Zero
    {
      if t[i] == Zero {
        break;
      }
      i := i + 1;
    }
    FirstZeroIs(t, 0, i);
    if i == 0 {
      return Zero;
    }
    tip := t[i - 1];
  }

  lemma TableEntry(ss: seq<Sector>, i: nat)
    requires |ss| <= MAX_SECTORS && i < MAX_SECTORS
    ensures Table(ss)[i] == if i < |ss| then Node(Fold(Zero, ss[..i]), ss[i]) else Zero
  {
    if i < |ss| {
      assert ss[..i + 1][..i] == ss[..i];
    }
  }

  /** Hashing one more sector fills one more entry. */
  lemma TableStep(ss: seq<Sector>, i: nat)
    requires i < |ss| && i < MAX_SECTORS
    ensures Fold(Zero, ss[..i + 1]) == SerialHashSector(ss[i], Fold(Zero, ss[..i]))
    ensures Table(ss[..i + 1]) == Table(ss[..i])[i := Fold(Zero, ss[..i + 1])]
  {
    var a, b := ss[..i], ss[..i + 1];
    assert b[..i] == a;
    forall j | 0 <= j < MAX_SECTORS
      ensures Table(b)[j] == Table(a)[i := Fold(Zero, b)][j]
    {
      TableEntry(a, j);
      TableEntry(b, j);
      if j < i {
        assert a[..j] == b[..j];
      }
    }
  }

  /** The tip of a table is the chain hash of exactly the sectors it was built from. */
  lemma TipOfTable(ss: seq<Sector>)
    requires |ss| <= MAX_SECTORS
    ensures FirstZero(Table(ss), 0) == |ss|
    ensures TipOf(Table(ss)) == Fold(Zero, ss)
  {
    var t := Table(ss);
    forall i | 0 <= i < MAX_SECTORS
      ensures t[i] == if i < |ss| then Node(Fold(Zero, ss[..i]), ss[i]) else Zero
    {
      TableEntry(ss, i);
    }
    FirstZeroIs(t, 0, |ss|);
    assert ss == ss[..|ss|];
  }

  /** A table determines the sectors it was built from. */
  lemma TableInjective(a: seq<Sector>, b: seq<Sector>)
    requires |a| <= MAX_SECTORS && |b| <= MAX_SECTORS
    ensures Table(a) == Table(b) <==> a == b
  {
    TipOfTable(a);
    TipOfTable(b);
    if Table(a) == Table(b) {
      ChainInjective(a, b);
    }
  }

  /** Length of the longest common prefix. */
  function CommonPrefix(a: seq<Sector>, b: seq<Sector>): (n: nat)
    ensures n <= |a| && n <= |b| && a[..n] == b[..n]
    ensures n < |a| && n < |b| ==> a[n] != b[n]
  {
    if a == [] || b == [] || a[0] != b[0] then 0
    else
      var n := CommonPrefix(a[1..], b[1..]);
      assert a[..n + 1] == [a[0]] + a[1..][..n];
      assert b[..n + 1] == [b[0]] + b[1..][..n];
      n + 1
  }

  /** `SectorHashes.DiffWith`: -1 for equal tables, otherwise the first differing index. */
  method DiffWith(s: seq<Hash>, other: seq<Hash>) returns (d: int)
    requires |s| == |other| == MAX_SECTORS
    ensures d == -1 <==> s == other
    ensures d != -1 ==> 0 <= d < MAX_SECTORS && s[d] != other[d] && s[..d] == other[..d]
  {
    if s == other {
      return -1;
    }
    d := 0;
    while d < |s|
      invariant 0 <= d <= |s|
      invariant s[..d] == other[..d]
    {
      if s[d] != other[d] {
        break;
      }
      d := d + 1;
    }
    assert s == s[..|s|] && other == other[..|s|];
  }

  /** On chain tables the first differing entry is the first sector at which the blobs part. */
  lemma TablesPart(a: seq<Sector>, b: seq<Sector>)
    requires |a| <= MAX_SECTORS && |b| <= MAX_SECTORS && a != b
    ensures var n := CommonPrefix(a, b);
            n < MAX_SECTORS && Table(a)[n] != Table(b)[n] && Table(a)[..n] == Table(b)[..n]
  {
    var n := CommonPrefix(a, b);
    forall i | 0 <= i < n
      ensures Table(a)[i] == Table(b)[i]
    {
      TableEntry(a, i);
      TableEntry(b, i);
      assert a[..i] == a[..n][..i] && b[..i] == b[..n][..i];
      assert a[i] == a[..n][i] && b[i] == b[..n][i];
    }
    assert n == |a| ==> a == a[..n];
    assert n == |b| ==> b == b[..n];
    TableEntry(a, n);
    TableEntry(b, n);
  }
}
