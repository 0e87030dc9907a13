/** The queue of pending updates, one per name, fed by many callers and drained by workers. */
module UpdateQueue {
  import opened Basics

  type PeerID = nat

  datatype Announcement = Announcement(name: string, epoch: U16, size: U16)

  /** `id` stands for the item's address. */
  datatype QItem = QItem(id: nat, peers: seq<PeerID>, name: string, epoch: U16, size: U16)

  datatype Queue = Queue(entries: map<string, QItem>, queue: seq<string>, queueLen: int, nextID: nat, disposed: set<nat>)

  datatype EnqueueResult =
    | Enqueued | ProofRequested | AtMaxLen | ImportIncomplete | Invalid
    | EpochUpdated | StaleSector | SectorUpdated

  const EMPTY: Queue := Queue(map[], [], 0, 0, {})

  /** What the database says about an announced name. */
  datatype Screening = Screening(importComplete: bool, valid: bool, known: bool, header: Option<(U16, U16)>)

  /** The checks between reading the length and taking the lock; none means go on. */
  function Screen(a: Announcement, s: Screening): Option<EnqueueResult> {
    var (epoch, size) := if s.header.Some? then s.header.value else (0, 0);
    if !s.importComplete then Some(ImportIncomplete)
    else if a.size == 0 then Some(ProofRequested)
    else if !s.valid || !s.known then Some(Invalid)
    else if epoch > a.epoch then Some(EpochUpdated)
    else if epoch == a.epoch && size > a.size then Some(StaleSector)
    else if epoch == a.epoch && size == a.size then Some(SectorUpdated)
    else None
  }

  /** The announcement is of a later epoch than the header, or of more sectors of the same one. */
  predicate News(a: Announcement, header: Option<(U16, U16)>) {
    header.Some? ==> a.epoch > header.value.0 || (a.epoch == header.value.0 && a.size > header.value.1)
  }

  /** An announcement is let in exactly when it has sectors, of a known and valid name, that are news. */
  lemma LetInExactly(a: Announcement, s: Screening)
    ensures Screen(a, s) == None <==> s.importComplete && a.size > 0 && s.valid && s.known && News(a, s.header)
  {
  }

  /** Why the others are turned away, in the order the reasons are looked for. */
  lemma TurnedAwayFor(a: Announcement, s: Screening)
    requires Screen(a, s).Some?
    ensures Screen(a, s).value
         == if !s.importComplete then ImportIncomplete
            else if a.size == 0 then ProofRequested
            else if !s.valid || !s.known then Invalid
            else if a.epoch < s.header.value.0 then EpochUpdated
            else if a.size < s.header.value.1 then StaleSector
            else SectorUpdated
  {
    LetInExactly(a, s);
  }

  function AddPeer(peers: seq<PeerID>, p: PeerID): seq<PeerID> {
    if p in peers then peers else peers + [p]
  }

  /** The part of `Enqueue` under the lock. */
  function Insert(q: Queue, peer: PeerID, a: Announcement): (Queue, EnqueueResult) {
    var isNew := a.name !in q.entries;
    if isNew || q.entries[a.name].size < a.size then
      var item := QItem(q.nextID, [peer], a.name, a.epoch, a.size);
      var q1 := q.(entries := q.entries[a.name := item], nextID := q.nextID + 1);
      (if isNew then q1.(queue := q.queue + [a.name], queueLen := q.queueLen + 1) else q1, Enqueued)
    else
      var entry := q.entries[a.name];
      if entry.epoch > a.epoch then (q, EpochUpdated)
      else if entry.epoch == a.epoch && entry.size > a.size then (q, StaleSector)
      else (q.(entries := q.entries[a.name := entry.(peers := AddPeer(entry.peers, peer))]), Enqueued)
  }

  /** The pending entry is of a later epoch than the announcement and as large, or larger in the same epoch. */
  predicate Outdated(q: Queue, a: Announcement) {
    && a.name in q.entries && a.size <= q.entries[a.name].size
    && (a.epoch < q.entries[a.name].epoch || (a.epoch == q.entries[a.name].epoch && a.size < q.entries[a.name].size))
  }

  /**
   An announcement under the lock: an outdated one changes nothing, and says by what. Any
   other leaves its sender among the peers of the pending entry: as the only one if the name
   is new or the announcement larger, otherwise besides those it had.
   */
  lemma InsertExactly(q: Queue, peer: PeerID, a: Announcement)
    ensures var (q', r) := Insert(q, peer, a);
            if Outdated(q, a) then q' == q && r == (if a.epoch < q.entries[a.name].epoch then EpochUpdated else StaleSector)
            else
              && r == Enqueued && a.name in q'.entries && q'.entries - {a.name} == q.entries - {a.name}
              && q'.queue == (if a.name in q.entries then q.queue else q.queue + [a.name])
              && var now := q'.entries[a.name];
                 if a.name !in q.entries || a.size > q.entries[a.name].size then
                   now.epoch == a.epoch && now.size == a.size && now.peers == [peer]
                 else
                   && now == q.entries[a.name].(peers := now.peers)
                   && (forall p :: p in now.peers <==> p in q.entries[a.name].peers || p == peer)
  {
  }

  function DequeueOp(q: Queue): (Queue, Option<QItem>) {
    if q.queue == [] then (q, None)
    else
      var name := q.queue[0];
      (q.(queue := q.queue[1..], queueLen := q.queueLen - 1, entries := q.entries - {name}),
       if name in q.entries then Some(q.entries[name]) else None)
  }

  function Reap(q: Queue): Queue {
    q.(entries := map k | k in q.entries && q.entries[k].id !in q.disposed :: q.entries[k])
  }

  // ---------------------------------------------------------------- all interleavings

  /**
   The queue with its callers. `passed` counts those inside `Enqueue` that found room;
   `taken` holds the addresses handed to workers; `arrived` and `departed` are the names in
   order of first enqueue and of dequeue.
   */
  datatype Sys = Sys(q: Queue, passed: nat, taken: set<nat>, arrived: seq<string>, departed: seq<string>)

  datatype Step =
    | Enter
    | Leave
    | Put(peer: PeerID, a: Announcement)
    | Take
    | Dispose(id: nat)
    | Sweep

  /** `maxLen` bounds the length a caller may find; at most `callers` are inside at once. */
  datatype Limits = Limits(maxLen: int, callers: nat)

  /** The most names the queue can hold: every caller may have found the one place that was free. */
  function Capacity(lim: Limits): int {
    if lim.maxLen > 0 then lim.maxLen + lim.callers - 1 else 0
  }

  function Next(lim: Limits, s: Sys, step: Step): Sys {
    match step
    case Enter => if s.q.queueLen < lim.maxLen && s.passed < lim.callers then s.(passed := s.passed + 1) else s
    case Leave => if s.passed > 0 then s.(passed := s.passed - 1) else s
    case Put(peer, a) =>
      if s.passed == 0 then s
      else
        var q' := Insert(s.q, peer, a).0;
        s.(q := q', passed := s.passed - 1,
           arrived := if a.name in s.q.entries then s.arrived else s.arrived + [a.name])
    case Take =>
      var (q', item) := DequeueOp(s.q);
      if item.None? then s.(q := q')
      else s.(q := q', taken := s.taken + {item.value.id}, departed := s.departed + [item.value.name])
    case Dispose(id) => if id in s.taken then s.(q := s.q.(disposed := s.q.disposed + {id})) else s
    case Sweep => s.(q := Reap(s.q))
  }

  function Run(lim: Limits, s: Sys, steps: seq<Step>): Sys
    decreases |steps|
  {
    if steps == [] then s else Next(lim, Run(lim, s, steps[..|steps| - 1]), steps[|steps| - 1])
  }

  /** The entry is filed under its own name, was never handed out and is not disposed. */
  predicate Filed(s: Sys, k: string) {
    k in s.q.entries ==>
      var item := s.q.entries[k];
      item.name == k && item.id < s.q.nextID && item.id !in s.taken && item.id !in s.q.disposed
  }

  /** No two names share an item. */
  predicate Apart(s: Sys, a: string, b: string) {
    a in s.q.entries && b in s.q.entries && s.q.entries[a].id == s.q.entries[b].id ==> a == b
  }

  ghost predicate Inv(lim: Limits, s: Sys) {
    && s.q.queueLen == |s.q.queue|
    && NoDups(s.q.queue)
    && (forall k :: k in s.q.queue <==> k in s.q.entries)
    && (forall k :: Filed(s, k))
    && (forall a, b :: Apart(s, a, b))
    && (forall id :: id in s.taken ==> id < s.q.nextID)
    && s.q.disposed <= s.taken
    && s.arrived == s.departed + s.q.queue
    && s.passed <= lim.callers
    && |s.q.queue| + s.passed <= Capacity(lim)
  }

  lemma PutKeeps(lim: Limits, s: Sys, peer: PeerID, a: Announcement)
    requires Inv(lim, s)
    ensures Inv(lim, Next(lim, s, Put(peer, a)))
  {
    var s' := Next(lim, s, Put(peer, a));
    if s.passed > 0 && a.name !in s.q.entries {
      assert s'.q.queue == s.q.queue + [a.name];
      assert s.departed + (s.q.queue + [a.name]) == (s.departed + s.q.queue) + [a.name];
    }
    forall k: string
      ensures Filed(s', k)
    {
      assert Filed(s, k) && Filed(s, a.name);
    }
    forall j: string, k: string
      ensures Apart(s', j, k)
    {
      assert Apart(s, j, k) && Filed(s, j) && Filed(s, k);
    }
  }

  lemma TakeKeeps(lim: Limits, s: Sys)
    requires Inv(lim, s)
    ensures Inv(lim, Next(lim, s, Take))
    ensures s.q.queue != [] ==> DequeueOp(s.q).1.Some? && DequeueOp(s.q).1.value.name == s.q.queue[0]
  {
    var s' := Next(lim, s, Take);
    if s.q.queue != [] {
      var name := s.q.queue[0];
      assert name in s.q.queue && Filed(s, name);
      assert s.q.queue == [name] + s.q.queue[1..];
      assert s.departed + s.q.queue == (s.departed + [name]) + s.q.queue[1..];
      forall k: string
        ensures Filed(s', k)
        ensures k in s'.q.queue <==> k in s'.q.entries
      {
        assert Filed(s, k) && Apart(s, name, k);
        assert k in s.q.queue <==> k in s.q.entries;
      }
      forall j: string, k: string
        ensures Apart(s', j, k)
      {
        assert Apart(s, j, k);
      }
    }
  }

  /** Nothing pending is disposed, so the periodic reaping changes nothing. */
  lemma ReapIsNoop(lim: Limits, s: Sys)
    requires Inv(lim, s)
    ensures Reap(s.q) == s.q
  {
    forall k | k in s.q.entries
      ensures s.q.entries[k].id !in s.q.disposed
    {
      assert Filed(s, k);
    }
    assert Reap(s.q).entries == s.q.entries;
  }

  lemma OthersKeep(lim: Limits, s: Sys, step: Step)
    requires Inv(lim, s) && (step.Enter? || step.Leave? || step.Dispose?)
    ensures Inv(lim, Next(lim, s, step))
  {
    var s' := Next(lim, s, step);
    forall k: string
      ensures Filed(s', k)
    {
      assert Filed(s, k);
    }
    forall j: string, k: string
      ensures Apart(s', j, k)
    {
      assert Apart(s, j, k);
    }
  }

  lemma StepKeeps(lim: Limits, s: Sys, step: Step)
    requires Inv(lim, s)
    ensures Inv(lim, Next(lim, s, step))
  {
    match step
    case Put(peer, a) => PutKeeps(lim, s, peer, a);
    case Take => TakeKeeps(lim, s);
    case Sweep => ReapIsNoop(lim, s);
    case _ => OthersKeep(lim, s, step);
  }

  const START: Sys := Sys(EMPTY, 0, {}, [], [])

  lemma StartInv(lim: Limits)
    ensures Inv(lim, START)
  {
  }

  lemma {:induction false} RunKeeps(lim: Limits, s: Sys, steps: seq<Step>)
    requires Inv(lim, s)
    ensures Inv(lim, Run(lim, s, steps))
    decreases |steps|
  {
    if steps != [] {
      RunKeeps(lim, s, steps[..|steps| - 1]);
      StepKeeps(lim, Run(lim, s, steps[..|steps| - 1]), steps[|steps| - 1]);
    }
  }

  /**
   After any interleaving: the counter is the length, the queue lists exactly the pending
   names once each, names leave in the order they first came, the next dequeue yields the
   oldest, and the overshoot past the limit is one less than the number of callers.
   */
  lemma QueueInvariant(lim: Limits, steps: seq<Step>)
    ensures var s := Run(lim, START, steps);
            && s.q.queueLen == |s.q.queue| <= Capacity(lim)
            && NoDups(s.q.queue)
            && (forall k :: k in s.q.queue <==> k in s.q.entries)
            && s.arrived == s.departed + s.q.queue
            && Reap(s.q) == s.q
            && (s.q.queue != [] ==> DequeueOp(s.q).1.Some? && DequeueOp(s.q).1.value.name == s.q.queue[0])
  {
    StartInv(lim);
    RunKeeps(lim, START, steps);
    var s := Run(lim, START, steps);
    ReapIsNoop(lim, s);
    TakeKeeps(lim, s);
  }

  // ---------------------------------------------------------------- who announced it

  /** The entry has peers to ask, each of them once. */
  predicate Asked(s: Sys, k: string) {
    k in s.q.entries ==> s.q.entries[k].peers != [] && NoDups(s.q.entries[k].peers)
  }

  lemma StepAsked(lim: Limits, s: Sys, step: Step)
    requires forall k :: Asked(s, k)
    ensures forall k :: Asked(Next(lim, s, step), k)
  {
    forall k: string
      ensures Asked(Next(lim, s, step), k)
    {
      assert Asked(s, k);
    }
  }

  /** After any interleaving every pending name has a peer that announced it, and none twice. */
  lemma {:induction false} PeersDistinct(lim: Limits, steps: seq<Step>)
    ensures forall k :: Asked(Run(lim, START, steps), k)
    decreases |steps|
  {
    if steps != [] {
      PeersDistinct(lim, steps[..|steps| - 1]);
      StepAsked(lim, Run(lim, START, steps[..|steps| - 1]), steps[|steps| - 1]);
    }
  }

  // ---------------------------------------------------------------- the capacity is reached

  /** A supply of different names. */
  function NameNo(i: nat): string {
    seq(i + 1, _ => 'x')
  }

  /** `len` names are queued, none of those still to come, and `passed` callers have found room. */
  ghost predicate Filled(s: Sys, len: nat, passed: nat) {
    && s.passed == passed && s.q.queueLen == |s.q.queue| == len
    && forall i: nat :: i >= len ==> NameNo(i) !in s.q.entries
  }

  function PutNo(i: nat): Step {
    Put(0, Announcement(NameNo(i), 0, 1))
  }

  lemma PutsNext(lim: Limits, s: Sys, len: nat, passed: nat)
    requires Filled(s, len, passed) && passed > 0
    ensures Filled(Next(lim, s, PutNo(len)), len + 1, passed - 1)
  {
    forall i: nat | i >= len + 1
      ensures NameNo(i) !in Next(lim, s, PutNo(len)).q.entries
    {
      assert |NameNo(i)| != |NameNo(len)|;
    }
  }

  lemma Then(lim: Limits, steps: seq<Step>, step: Step) returns (longer: seq<Step>)
    ensures longer == steps + [step] && Run(lim, START, longer) == Next(lim, Run(lim, START, steps), step)
  {
    longer := steps + [step];
    assert longer[..|steps|] == steps;
  }

  /** One caller at a time, up to a place below the limit. */
  lemma {:induction false} OneByOne(lim: Limits, len: nat) returns (steps: seq<Step>)
    requires len < lim.maxLen && lim.callers > 0
    ensures Filled(Run(lim, START, steps), len, 0)
  {
    if len == 0 {
      steps := [];
    } else {
      steps := OneByOne(lim, len - 1);
      steps := Then(lim, steps, Enter);
      PutsNext(lim, Run(lim, START, steps), len - 1, 1);
      steps := Then(lim, steps, PutNo(len - 1));
    }
  }

  /** Then all of them at once find the last place free. */
  lemma {:induction false} AllEnter(lim: Limits, k: nat) returns (steps: seq<Step>)
    requires lim.maxLen > 0 && k <= lim.callers && lim.callers > 0
    ensures Filled(Run(lim, START, steps), lim.maxLen - 1, k)
  {
    if k == 0 {
      steps := OneByOne(lim, lim.maxLen - 1);
    } else {
      steps := AllEnter(lim, k - 1);
      steps := Then(lim, steps, Enter);
    }
  }

  lemma {:induction false} AllPut(lim: Limits, k: nat) returns (steps: seq<Step>)
    requires lim.maxLen > 0 && k <= lim.callers && lim.callers > 0
    ensures Filled(Run(lim, START, steps), lim.maxLen - 1 + k, lim.callers - k)
  {
    if k == 0 {
      steps := AllEnter(lim, lim.callers);
    } else {
      steps := AllPut(lim, k - 1);
      PutsNext(lim, Run(lim, START, steps), lim.maxLen - 1 + (k - 1), lim.callers - (k - 1));
      steps := Then(lim, steps, PutNo(lim.maxLen - 1 + (k - 1)));
    }
  }

  /** The bound is exact: for every limit and number of callers some run fills the queue to it. */
  lemma CapacityReached(lim: Limits) returns (steps: seq<Step>)
    requires lim.maxLen > 0 && lim.callers > 0
    ensures |Run(lim, START, steps).q.queue| == Capacity(lim)
  {
    steps := AllPut(lim, lim.callers);
  }

  /** The step dequeues the name. */
  predicate Takes(s: Sys, step: Step, name: string) {
    step.Take? && s.q.queue != [] && s.q.queue[0] == name
  }

  /** No step of the run dequeues the name. */
  predicate NotTaken(lim: Limits, s: Sys, steps: seq<Step>, name: string) {
    steps == [] ||
    (NotTaken(lim, s, steps[..|steps| - 1], name)
     && !Takes(Run(lim, s, steps[..|steps| - 1]), steps[|steps| - 1], name))
  }

  lemma PutNeverShrinks(q: Queue, peer: PeerID, a: Announcement, name: string)
    requires name in q.entries
    ensures var q' := Insert(q, peer, a).0; name in q'.entries && q'.entries[name].size >= q.entries[name].size
  {
  }

  lemma StepNeverShrinks(lim: Limits, s: Sys, step: Step, name: string)
    requires Inv(lim, s) && name in s.q.entries && !Takes(s, step, name)
    ensures var s' := Next(lim, s, step); name in s'.q.entries && s'.q.entries[name].size >= s.q.entries[name].size
  {
    match step
    case Put(peer, a) => PutNeverShrinks(s.q, peer, a, name);
    case Sweep => ReapIsNoop(lim, s);
    case _ =>
  }

  /** While a name is pending its announced size never falls. */
  lemma {:induction false} SizeNeverFalls(lim: Limits, s: Sys, steps: seq<Step>, name: string)
    requires Inv(lim, s) && name in s.q.entries && NotTaken(lim, s, steps, name)
    ensures var s' := Run(lim, s, steps); name in s'.q.entries && s'.q.entries[name].size >= s.q.entries[name].size
    decreases |steps|
  {
    if steps != [] {
      var front := steps[..|steps| - 1];
      SizeNeverFalls(lim, s, front, name);
      RunKeeps(lim, s, front);
      StepNeverShrinks(lim, Run(lim, s, front), steps[|steps| - 1], name);
    }
  }

  /** At least as new: a later epoch, or as many sectors of the same one. */
  predicate AtLeast(epoch: U16, size: U16, thanEpoch: U16, thanSize: U16) {
    epoch > thanEpoch || (epoch == thanEpoch && size >= thanSize)
  }

  /**
   The newer of pending entry and announcement is not always kept: the lock compares sizes
   first. It is kept exactly when the two do not disagree about which is newer.
   */
  lemma NewerKeptUnlessAtOdds(q: Queue, peer: PeerID, a: Announcement)
    requires a.name in q.entries
    ensures var was, now := q.entries[a.name], Insert(q, peer, a).0.entries[a.name];
            AtLeast(now.epoch, now.size, was.epoch, was.size) && AtLeast(now.epoch, now.size, a.epoch, a.size)
            <==> !(a.epoch < was.epoch && a.size > was.size) && !(a.epoch > was.epoch && a.size <= was.size)
  {
  }

  // ---------------------------------------------------------------- the object

  class PendingUpdates {
    const maxLen: int
    var entries: map<string, QItem>
    var queue: seq<string>
    var queueLen: int
    var nextID: nat
    var disposed: set<nat>

    ghost function State(): Queue
      reads this
    {
      Queue(entries, queue, queueLen, nextID, disposed)
    }

    constructor (maxLen: int)
      ensures this.maxLen == maxLen && State() == EMPTY
    {
      this.maxLen := maxLen;
      entries, queue, queueLen, nextID, disposed := map[], [], 0, 0, {};
    }

    method Enqueue(peer: PeerID, a: Announcement, s: Screening) returns (r: EnqueueResult)
      modifies this
      ensures if old(queueLen) >= maxLen then r == AtMaxLen && State() == old(State())
              else if Screen(a, s).Some? then r == Screen(a, s).value && State() == old(State())
              else (State(), r) == Insert(old(State()), peer, a)
    {
      if queueLen >= maxLen {
        return AtMaxLen;
      }
      if !s.importComplete {
        return ImportIncomplete;
      }
      if a.size == 0 {
        return ProofRequested;
      }
      if !s.valid || !s.known {
        return Invalid;
      }
      var epochHeight, sectorSize: U16 := 0, 0;
      if s.header.Some? {
        epochHeight, sectorSize := s.header.value.0, s.header.value.1;
      }
      if epochHeight > a.epoch {
        return EpochUpdated;
      }
      if epochHeight == a.epoch {
        if sectorSize > a.size {
          return StaleSector;
        }
        if sectorSize == a.size {
          return SectorUpdated;
        }
      }
      r := Put(peer, a);
    }

    method Put(peer: PeerID, a: Announcement) returns (r: EnqueueResult)
      modifies this
      ensures (State(), r) == Insert(old(State()), peer, a)
    {
      var isNew := a.name !in entries;
      if isNew || entries[a.name].size < a.size {
        entries := entries[a.name := QItem(nextID, [peer], a.name, a.epoch, a.size)];
        nextID := nextID + 1;
        if isNew {
          queue := queue + [a.name];
          queueLen := queueLen + 1;
        }
        return Enqueued;
      }
      var entry := entries[a.name];
      if entry.epoch > a.epoch {
        return EpochUpdated;
      }
      if entry.epoch == a.epoch {
        if entry.size > a.size {
          return StaleSector;
        }
      }
      entries := entries[a.name := entry.(peers := AddPeer(entry.peers, peer))];
      r := Enqueued;
    }

    method Dequeue() returns (item: Option<QItem>)
      modifies this
      ensures (State(), item) == DequeueOp(old(State()))
    {
      if |queue| == 0 {
        return None;
      }
      var name := queue[0];
      item := if name in entries then Some(entries[name]) else None;
      queue := queue[1..];
      queueLen := queueLen - 1;
      entries := entries - {name};
    }

    /** `reapDequeuedUpdates`: collect the disposed keys, then delete them. */
    method ReapDequeued()
      modifies this
      ensures State() == Reap(old(State()))
    {
      var toDelete: set<string> := {};
      var keys := entries.Keys;
      while keys != {}
        invariant keys <= entries.Keys && State() == old(State())
        invariant toDelete == set k | k in entries && k !in keys && entries[k].id in disposed
      {
        var k :| k in keys;
        keys := keys - {k};
        if entries[k].id in disposed {
          toDelete := toDelete + {k};
        }
      }
      entries := entries - toDelete;
      assert entries == Reap(old(State())).entries;
    }
  }
}
