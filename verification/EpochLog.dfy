/**
 A log of what the epoch gate let through for one name, and what follows from the gate's
 rules over whole logs: progress, ban penalties and the rollover rate.
 */
module EpochLog {
  import opened Basics

  /** A name's header as far as the gate looks at it, and its ban. */
  datatype Head = Head(epoch: U16, size: U16, startAt: Time)
  datatype Look = Look(head: Option<Head>, ban: Time)

  /** A step writes nothing, grows the blob of its epoch, or starts the blob over in a new epoch. */
  datatype Kind = Idle | Appended | Changed

  /** One step: when it happened, the epoch and size it asked for, the clock's epoch, and the name before and after. */
  datatype Entry = Entry(time: Time, kind: Kind, epoch: U16, size: U16, cur: U16, before: Look, after: Look)

  predicate Allowed(e: Entry) {
    && (e.after.ban == e.before.ban || e.after.ban == e.time)
    && match e.kind
       case Idle => e.after.head == e.before.head
       case Appended =>
         && e.after.head == Some(Head(e.epoch, e.size, ZERO_TIME))
         && e.before.head.Some? && e.epoch == e.before.head.value.epoch && e.size > e.before.head.value.size
       case Changed =>
         && e.after.head == Some(Head(e.epoch, e.size, e.time))
         && (e.before.head.Some? ==>
               var h := e.before.head.value;
               && e.epoch > h.epoch && e.epoch <= e.cur + 1
               && (e.time < h.startAt + WEEK ==> e.epoch == e.cur + 1)
               && (e.before.ban != ZERO_TIME ==> e.before.ban + WEEK <= e.time && e.epoch >= h.epoch + 2))
  }

  /** The clock and its epoch do not go back, and the epoch rises by at most one within a week. */
  predicate Ordered(log: seq<Entry>, i: nat, j: nat)
    requires i <= j < |log|
  {
    && ZERO_TIME < log[i].time <= log[j].time && log[i].cur <= log[j].cur
    && (log[j].time < log[i].time + WEEK ==> log[j].cur <= log[i].cur + 1)
  }

  /** Entry i keeps the gate's rules and starts where the entry before it ended. */
  predicate Joined(log: seq<Entry>, i: nat)
    requires i < |log|
  {
    Allowed(log[i]) && (i > 0 ==> log[i].before == log[i - 1].after)
  }

  predicate Linked(log: seq<Entry>) {
    && (forall i, j :: 0 <= i <= j < |log| ==> Ordered(log, i, j))
    && (forall i :: 0 <= i < |log| ==> Joined(log, i))
  }

  // ---------------------------------------------------------------- progress

  /** Lexicographic rank by epoch, then size; -1 for no header. */
  function Rank(look: Look): int {
    match look.head
    case None => -1
    case Some(h) => h.epoch * 65536 + h.size
  }

  lemma AllowedRises(e: Entry)
    requires Allowed(e)
    ensures if e.kind.Idle? then Rank(e.before) == Rank(e.after) else Rank(e.before) < Rank(e.after)
  {
  }

  lemma {:induction false} RankMonotone(log: seq<Entry>, i: nat, j: nat)
    requires Linked(log) && i <= j < |log|
    ensures Rank(log[i].after) <= Rank(log[j].after)
    decreases j - i
  {
    if i < j {
      RankMonotone(log, i, j - 1);
      assert Joined(log, j);
      AllowedRises(log[j]);
    }
  }

  /** Writes are strictly ordered by epoch and then size. */
  lemma WritesProgress(log: seq<Entry>, i: nat, j: nat)
    requires Linked(log) && i < j < |log| && !log[i].kind.Idle? && !log[j].kind.Idle?
    ensures log[i].epoch < log[j].epoch || (log[i].epoch == log[j].epoch && log[i].size < log[j].size)
  {
    RankMonotone(log, i, j - 1);
    assert Joined(log, i) && Joined(log, j);
    AllowedRises(log[j]);
  }

  function CountWrites(log: seq<Entry>): nat {
    if log == [] then 0
    else CountWrites(log[..|log| - 1]) + if log[|log| - 1].kind.Idle? then 0 else 1
  }

  lemma LinkedPrefix(log: seq<Entry>, n: nat)
    requires Linked(log) && n <= |log|
    ensures Linked(log[..n])
  {
    forall i, j | 0 <= i <= j < n
      ensures Ordered(log[..n], i, j)
    {
      assert Ordered(log, i, j);
    }
    forall i | 0 <= i < n
      ensures Joined(log[..n], i)
    {
      assert Joined(log, i);
    }
  }

  /** However long the log, it has no more writes than there are ranks. */
  lemma {:induction false} WritesBounded(log: seq<Entry>)
    requires Linked(log) && log != []
    ensures CountWrites(log) <= Rank(log[|log| - 1].after) - Rank(log[0].before)
    ensures CountWrites(log) <= 65536 * 65536
    decreases |log|
  {
    var m := |log| - 1;
    assert Joined(log, m);
    AllowedRises(log[m]);
    if m == 0 {
      assert log[..m] == [];
    } else {
      LinkedPrefix(log, m);
      WritesBounded(log[..m]);
    }
  }

  // ---------------------------------------------------------------- bans

  lemma {:induction false} BanStays(log: seq<Entry>, b: nat, m: nat, since: Time)
    requires Linked(log) && b <= m < |log|
    requires log[b].before.ban == since != ZERO_TIME && since <= log[b].time
    ensures since <= log[m].before.ban && log[m].before.ban != ZERO_TIME
    decreases m - b
  {
    if b < m {
      BanStays(log, b, m - 1, since);
      assert Joined(log, m);
      assert Joined(log, m - 1) && Ordered(log, b, m - 1);
    }
  }

  /** After a ban, every later rollover waits a week from it and skips at least one epoch. */
  lemma BanPenalty(log: seq<Entry>, b: nat, m: nat, since: Time)
    requires Linked(log) && b <= m < |log|
    requires log[b].before.ban == since != ZERO_TIME && since <= log[b].time
    requires log[m].kind.Changed? && log[m].before.head.Some?
    ensures log[m].time >= since + WEEK && log[m].epoch >= log[m].before.head.value.epoch + 2
  {
    BanStays(log, b, m, since);
    assert Joined(log, m);
  }

  // ---------------------------------------------------------------- rollover rate

  /** No append among entries lo .. hi-1. */
  predicate NoAppend(log: seq<Entry>, lo: nat, hi: nat)
    requires hi <= |log|
  {
    forall i :: lo <= i < hi ==> !log[i].kind.Appended?
  }

  lemma {:induction false} StartIsRecent(log: seq<Entry>, i: nat, m: nat)
    requires Linked(log) && i < m < |log| && log[i].kind.Changed? && NoAppend(log, i + 1, m)
    ensures log[m].before.head.Some? && log[m].before.head.value.startAt >= log[i].time
    decreases m
  {
    assert Joined(log, m) && Joined(log, m - 1) && Ordered(log, i, m - 1);
    if i < m - 1 {
      StartIsRecent(log, i, m - 1);
    }
  }

  /** Within a week of an epoch change the next one must take exactly the epoch after the current. */
  lemma EpochPinned(log: seq<Entry>, i: nat, m: nat)
    requires Linked(log) && i < m < |log| && log[i].kind.Changed? && log[m].kind.Changed? && NoAppend(log, i + 1, m)
    ensures log[m].time < log[i].time + WEEK ==> log[m].epoch == log[m].cur + 1
  {
    StartIsRecent(log, i, m);
    assert Joined(log, m);
  }

  lemma EpochRises(log: seq<Entry>, i: nat, j: nat)
    requires Linked(log) && i < j < |log| && log[i].kind.Changed? && log[j].kind.Changed?
    ensures log[i].epoch < log[j].epoch
  {
    RankMonotone(log, i, j - 1);
    assert Joined(log, i) && Joined(log, j);
  }

  /** Four epoch changes without an append among them span at least a week. */
  lemma FourChangesSpanAWeek(log: seq<Entry>, i: nat, j: nat, k: nat, l: nat)
    requires Linked(log) && i < j < k < l < |log| && NoAppend(log, i + 1, l)
    requires log[i].kind.Changed? && log[j].kind.Changed? && log[k].kind.Changed? && log[l].kind.Changed?
    ensures log[l].time >= log[i].time + WEEK
  {
    EpochPinned(log, i, j);
    EpochPinned(log, i, k);
    EpochPinned(log, i, l);
    EpochRises(log, j, k);
    EpochRises(log, k, l);
    assert Ordered(log, i, j) && Ordered(log, j, k) && Ordered(log, k, l) && Ordered(log, j, l);
  }

  function CountChanges(log: seq<Entry>, lo: nat, hi: nat): nat
    requires lo <= hi <= |log|
    decreases hi - lo
  {
    if lo == hi then 0 else (if log[lo].kind.Changed? then 1 else 0) + CountChanges(log, lo + 1, hi)
  }

  lemma {:induction false} FirstChange(log: seq<Entry>, lo: nat, hi: nat) returns (i: nat)
    requires lo <= hi <= |log| && CountChanges(log, lo, hi) > 0
    ensures lo <= i < hi && log[i].kind.Changed?
    ensures CountChanges(log, i + 1, hi) == CountChanges(log, lo, hi) - 1
    decreases hi - lo
  {
    if log[lo].kind.Changed? {
      i := lo;
    } else {
      i := FirstChange(log, lo + 1, hi);
    }
  }

  /** In any window shorter than a week that holds no append, at most three epoch changes are accepted. */
  lemma AtMostThreeChanges(log: seq<Entry>, lo: nat, hi: nat)
    requires Linked(log) && lo < hi <= |log| && NoAppend(log, lo, hi)
    ensures log[hi - 1].time < log[lo].time + WEEK ==> CountChanges(log, lo, hi) <= 3
  {
    if CountChanges(log, lo, hi) > 3 {
      var i := FirstChange(log, lo, hi);
      var j := FirstChange(log, i + 1, hi);
      var k := FirstChange(log, j + 1, hi);
      var l := FirstChange(log, k + 1, hi);
      FourChangesSpanAWeek(log, i, j, k, l);
      assert Ordered(log, lo, i) && Ordered(log, l, hi - 1);
    }
  }

  /** The start time on record is that of the last epoch change, unless an append has cleared it since. */
  lemma {:induction false} StartAfter(log: seq<Entry>, i: nat, m: nat)
    requires Linked(log) && i < m < |log| && log[i].kind.Changed?
    requires forall j :: i < j < m ==> !log[j].kind.Changed?
    ensures log[m].before.head.Some?
    ensures log[m].before.head.value.startAt == if NoAppend(log, i + 1, m) then log[i].time else ZERO_TIME
    decreases m
  {
    assert Joined(log, m) && Joined(log, m - 1);
    if i < m - 1 {
      StartAfter(log, i, m - 1);
      assert NoAppend(log, i + 1, m) <==> NoAppend(log, i + 1, m - 1) && !log[m - 1].kind.Appended?;
    }
  }

  // ---------------------------------------------------------------- epochs ahead of the clock

  /** A write whose epoch is at most one ahead of the clock's. */
  predicate Timely(e: Entry) {
    !e.kind.Idle? ==> e.epoch <= e.cur + 1
  }

  /** The first header of the name. */
  predicate First(e: Entry) {
    e.kind.Changed? && e.before.head.None?
  }

  predicate HeadTimely(e: Entry) {
    e.before.head.Some? ==> e.before.head.value.epoch <= e.cur + 1
  }

  lemma {:induction false} HeadsTimely(log: seq<Entry>, m: nat)
    requires Linked(log) && m < |log| && HeadTimely(log[0])
    requires forall i :: 0 <= i < m && First(log[i]) ==> Timely(log[i])
    ensures HeadTimely(log[m])
    decreases m
  {
    if m > 0 {
      HeadsTimely(log, m - 1);
      assert Joined(log, m) && Joined(log, m - 1) && Ordered(log, m - 1, m);
    }
  }

  /**
   The check against epochs ahead of the clock is skipped for a name's first header, and only
   there: all writes of a log are timely if and only if the first header is.
   */
  lemma TimelyIffFirst(log: seq<Entry>)
    requires Linked(log) && (log != [] ==> HeadTimely(log[0]))
    ensures (forall i :: 0 <= i < |log| ==> Timely(log[i])) <==> (forall i :: 0 <= i < |log| && First(log[i]) ==> Timely(log[i]))
  {
    if forall i :: 0 <= i < |log| && First(log[i]) ==> Timely(log[i]) {
      forall i | 0 <= i < |log|
        ensures Timely(log[i])
      {
        assert Joined(log, i);
        HeadsTimely(log, i);
      }
    }
  }

  /** A header of the last epoch there is stays in it. */
  lemma {:induction false} LastEpochStays(log: seq<Entry>, m: nat)
    requires Linked(log) && m < |log| && log[0].before.head.Some? && log[0].before.head.value.epoch == 65535
    ensures !log[m].kind.Changed? && log[m].before.head.Some? && log[m].before.head.value.epoch == 65535
    decreases m
  {
    assert Joined(log, m);
    if m > 0 {
      LastEpochStays(log, m - 1);
      assert Joined(log, m - 1);
    }
  }
}
