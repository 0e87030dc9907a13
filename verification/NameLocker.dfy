/** The per-name try-lock, and the reader-writer lock it implements. */
module NameLocker {

  datatype RefCounter = RefCounter(readers: int, writers: int)

  type Table = map<string, RefCounter>

  datatype LockOp = TryLock(key: string) | TryRLock(key: string) | Unlock(key: string) | RUnlock(key: string)

  datatype LockResult = Granted | Refused | Released | Panicked

  /** `getLocker`: the key's record, created empty if missing. */
  function Locker(m: Table, key: string): RefCounter {
    if key in m then m[key] else RefCounter(0, 0)
  }

  function Apply(m: Table, op: LockOp): (Table, LockResult) {
    var c := Locker(m, op.key);
    match op
    case TryLock(k) =>
      if c.readers > 0 || c.writers > 0 then (m[k := c], Refused) else (m[k := c.(writers := c.writers + 1)], Granted)
    case TryRLock(k) =>
      if c.writers > 0 then (m[k := c], Refused) else (m[k := c.(readers := c.readers + 1)], Granted)
    case Unlock(k) =>
      if c.writers != 1 then (m[k := c], Panicked) else (m - {k}, Released)
    case RUnlock(k) =>
      if c.readers < 1 then (m[k := c], Panicked)
      else if c.readers == 1 then (m - {k}, Released)
      else (m[k := c.(readers := c.readers - 1)], Released)
  }

  /** The holds callers have been granted and not yet given back. */
  datatype Holds = Holds(shared: multiset<string>, owned: multiset<string>)

  const NONE: Holds := Holds(multiset{}, multiset{})

  function After(h: Holds, op: LockOp, r: LockResult): Holds {
    match (op, r)
    case (TryLock(k), Granted) => h.(owned := h.owned + multiset{k})
    case (TryRLock(k), Granted) => h.(shared := h.shared + multiset{k})
    case (Unlock(k), Released) => h.(owned := h.owned - multiset{k})
    case (RUnlock(k), Released) => h.(shared := h.shared - multiset{k})
    case _ => h
  }

  /** A caller releases only what some caller holds. */
  predicate Matched(h: Holds, op: LockOp) {
    (op.Unlock? ==> op.key in h.owned) && (op.RUnlock? ==> op.key in h.shared)
  }

  /** Nobody shares the key with a writer; its record counts its holds and exists only while it is held. */
  predicate KeyRefines(m: Table, h: Holds, k: string) {
    && h.owned[k] <= 1 && (h.owned[k] == 1 ==> h.shared[k] == 0)
    && if k in m then m[k] == RefCounter(h.shared[k], h.owned[k]) && h.shared[k] + h.owned[k] > 0
       else h.shared[k] == 0 && h.owned[k] == 0
  }

  ghost predicate Refines(m: Table, h: Holds) {
    forall k :: KeyRefines(m, h, k)
  }

  /** What a reader-writer lock answers, given the outstanding holds. */
  function RwAnswer(h: Holds, op: LockOp): LockResult {
    match op
    case TryLock(k) => if k in h.shared || k in h.owned then Refused else Granted
    case TryRLock(k) => if k in h.owned then Refused else Granted
    case Unlock(k) => if k in h.owned then Released else Panicked
    case RUnlock(k) => if k in h.shared then Released else Panicked
  }

  lemma SameKey(m: Table, h: Holds, op: LockOp)
    requires KeyRefines(m, h, op.key)
    ensures var (m', r) := Apply(m, op);
            r == RwAnswer(h, op) && (r != Panicked ==> KeyRefines(m', After(h, op, r), op.key))
  {
  }

  lemma StepRefines(m: Table, h: Holds, op: LockOp)
    requires Refines(m, h)
    ensures Apply(m, op).1 == RwAnswer(h, op)
    ensures Apply(m, op).1 != Panicked ==> Refines(Apply(m, op).0, After(h, op, Apply(m, op).1))
  {
    assert KeyRefines(m, h, op.key);
    SameKey(m, h, op);
    var m', r := Apply(m, op).0, Apply(m, op).1;
    var h' := After(h, op, r);
    forall k: string
      ensures r != Panicked ==> KeyRefines(m', h', k)
    {
      if k != op.key {
        assert KeyRefines(m, h, k);
      }
    }
  }

  function RunTable(ops: seq<LockOp>): Table {
    if ops == [] then map[] else Apply(RunTable(ops[..|ops| - 1]), ops[|ops| - 1]).0
  }

  function RunHolds(ops: seq<LockOp>): Holds {
    if ops == [] then NONE
    else
      var m := |ops| - 1;
      After(RunHolds(ops[..m]), ops[m], Apply(RunTable(ops[..m]), ops[m]).1)
  }

  predicate WellMatched(ops: seq<LockOp>) {
    ops == [] || (WellMatched(ops[..|ops| - 1]) && Matched(RunHolds(ops[..|ops| - 1]), ops[|ops| - 1]))
  }

  /**
   In every run whose releases match earlier grants, a name is never held by a writer and
   anyone else, and the table has a record, counting the holds, for exactly the held names.
   */
  lemma {:induction false} RunRefines(ops: seq<LockOp>)
    requires WellMatched(ops)
    ensures Refines(RunTable(ops), RunHolds(ops))
    decreases |ops|
  {
    if ops == [] {
      assert forall k :: KeyRefines(map[], NONE, k);
    } else {
      var m := |ops| - 1;
      RunRefines(ops[..m]);
      StepRefines(RunTable(ops[..m]), RunHolds(ops[..m]), ops[m]);
    }
  }

  /** After every such run the next call is answered as a reader-writer lock would, and only an unmatched release panics. */
  lemma RunAnswers(ops: seq<LockOp>, next: LockOp)
    requires WellMatched(ops)
    ensures Apply(RunTable(ops), next).1 == RwAnswer(RunHolds(ops), next)
    ensures Apply(RunTable(ops), next).1 == Panicked <==> !Matched(RunHolds(ops), next)
  {
    RunRefines(ops);
    StepRefines(RunTable(ops), RunHolds(ops), next);
  }

  /** Every record stands for some hold, as in all states the runs above reach. */
  predicate Clean(m: Table) {
    forall k :: k in m ==> m[k].readers >= 0 && m[k].writers >= 0 && m[k].readers + m[k].writers > 0
  }

  lemma RefinesClean(m: Table, h: Holds)
    requires Refines(m, h)
    ensures Clean(m)
  {
    forall k | k in m
      ensures m[k].readers >= 0 && m[k].writers >= 0 && m[k].readers + m[k].writers > 0
    {
      assert KeyRefines(m, h, k);
    }
  }

  /** Taking and giving back a free name leaves the table as it was; so does being refused. */
  lemma LockUnlock(m: Table, key: string)
    requires Clean(m)
    ensures var (m', r) := Apply(m, TryLock(key));
            if r == Granted then Apply(m', Unlock(key)) == (m, Released) else m' == m
  {
    if key !in m {
      assert m[key := RefCounter(0, 1)] - {key} == m;
    }
  }

  lemma RLockRUnlock(m: Table, key: string)
    requires Clean(m)
    ensures var (m', r) := Apply(m, TryRLock(key));
            if r == Granted then Apply(m', RUnlock(key)) == (m, Released) else m' == m
  {
    var c := Locker(m, key);
    if key in m {
      assert m[key := c.(readers := c.readers + 1)][key := c] == m;
    } else {
      assert m[key := RefCounter(1, 0)] - {key} == m;
    }
  }

  /** `util.lock` */
  class MultiLocker {
    var inUse: Table

    constructor ()
      ensures inUse == map[]
    {
      inUse := map[];
    }

    method GetLocker(key: string) returns (c: RefCounter)
      modifies this
      ensures c == Locker(old(inUse), key) && inUse == old(inUse)[key := c]
    {
      if key !in inUse {
        inUse := inUse[key := RefCounter(0, 0)];
      }
      c := inUse[key];
    }

    method TryLock(key: string) returns (ok: bool)
      modifies this
      ensures inUse == Apply(old(inUse), LockOp.TryLock(key)).0 && (if ok then Granted else Refused) == Apply(old(inUse), LockOp.TryLock(key)).1
    {
      var m := GetLocker(key);
      if m.readers > 0 || m.writers > 0 {
        return false;
      }
      inUse := inUse[key := m.(writers := m.writers + 1)];
      ok := true;
    }

    method TryRLock(key: string) returns (ok: bool)
      modifies this
      ensures inUse == Apply(old(inUse), LockOp.TryRLock(key)).0 && (if ok then Granted else Refused) == Apply(old(inUse), LockOp.TryRLock(key)).1
    {
      var m := GetLocker(key);
      if m.writers > 0 {
        return false;
      }
      inUse := inUse[key := m.(readers := m.readers + 1)];
      ok := true;
    }

    method Unlock(key: string) returns (panics: bool)
      modifies this
      ensures inUse == Apply(old(inUse), LockOp.Unlock(key)).0 && (if panics then Panicked else Released) == Apply(old(inUse), LockOp.Unlock(key)).1
    {
      var m := GetLocker(key);
      if m.writers != 1 {
        return true;
      }
      m := m.(writers := m.writers - 1);
      inUse := inUse[key := m];
      if m.writers == 0 {
        inUse := inUse - {key};
      }
      panics := false;
    }

    method RUnlock(key: string) returns (panics: bool)
      modifies this
      ensures inUse == Apply(old(inUse), LockOp.RUnlock(key)).0 && (if panics then Panicked else Released) == Apply(old(inUse), LockOp.RUnlock(key)).1
    {
      var m := GetLocker(key);
      if m.readers < 1 {
        return true;
      }
      m := m.(readers := m.readers - 1);
      inUse := inUse[key := m];
      if m.readers == 0 {
        inUse := inUse - {key};
      }
      panics := false;
    }
  }
}
