/** How connections are admitted: semaphores, gates and pending tables, over concurrent attempts. */
module PeerManager {
  import opened Basics
  import opened PeerMuxer

  const MAX_PENDING_INBOUND: nat := 12
  const MAX_PENDING_OUTBOUND: nat := 5

  datatype Config = Config(listenHost: string, maxInbound: int, maxOutbound: int)

  datatype Verdict = Passed | SelfDial | AlreadyConnecting | MaxPeers | AlreadyConnected | Banned

  /** `gateInboundPeer`; a ban lookup that fails (`None`) lets the peer through. */
  function GateInbound(cfg: Config, mux: Mux, pending: set<string>, addr: string, ip: string, ban: Option<bool>): Verdict {
    if ip == cfg.listenHost then SelfDial
    else if addr in pending then AlreadyConnecting
    else if mux.inCount >= cfg.maxInbound then MaxPeers
    else if ban == Some(true) then Banned
    else Passed
  }

  /** `gateOutboundPeer` */
  function GateOutbound(cfg: Config, mux: Mux, pending: set<string>, id: ID, ip: string, ban: Option<bool>): Verdict {
    if ip == cfg.listenHost then SelfDial
    else if ip in pending then AlreadyConnecting
    else if mux.outCount >= cfg.maxOutbound then MaxPeers
    else if id in mux.peers then AlreadyConnected
    else if ip in mux.outByIP then AlreadyConnected
    else if ban == Some(true) then Banned
    else Passed
  }

  // ---------------------------------------------------------------- attempts in flight

  /** Where a call to `AcceptPeer` or `DialPeer` stands. */
  datatype Stage =
    | Acquired               // holds the semaphore, not yet gated
    | Gated(key: string)     // past the gate, in the pending table, shaking hands
    | Settled(ip: string)    // cleaned up by completeConnection, not yet in the muxer
    | Returning              // about to release the semaphore

  /** One direction: the semaphore's count, the pending table and the calls in flight. */
  datatype Side = Side(held: nat, pending: set<string>, attempts: map<nat, Stage>)

  const IDLE: Side := Side(0, {}, map[])

  datatype Net = Net(mux: Mux, inbound: Side, outbound: Side)

  datatype Step =
    | Begin(inbound: bool, a: nat)
    | Gate(inbound: bool, a: nat, id: ID, key: string, ip: string, ban: Option<bool>)
    | Fail(inbound: bool, a: nat)
    | Settle(inbound: bool, a: nat, remoteIP: string)
    | Finish(inbound: bool, a: nat, id: ID, conn: nat, self: bool)
    | Return(inbound: bool, a: nat)
    | Drop(id: ID)

  function Slots(inbound: bool): nat {
    if inbound then MAX_PENDING_INBOUND else MAX_PENDING_OUTBOUND
  }

  function Limit(cfg: Config, inbound: bool): int {
    if inbound then cfg.maxInbound else cfg.maxOutbound
  }

  function Count(m: Mux, inbound: bool): int {
    if inbound then m.inCount else m.outCount
  }

  function SideOf(n: Net, inbound: bool): Side {
    if inbound then n.inbound else n.outbound
  }

  function WithSide(n: Net, inbound: bool, s: Side): Net {
    if inbound then n.(inbound := s) else n.(outbound := s)
  }

  predicate At(s: Side, a: nat, stage: Stage) {
    a in s.attempts && s.attempts[a] == stage
  }

  predicate IsGated(s: Side, a: nat) {
    a in s.attempts && s.attempts[a].Gated?
  }

  predicate IsSettled(s: Side, a: nat) {
    a in s.attempts && s.attempts[a].Settled?
  }

  function Leave(s: Side, a: nat): Side
    requires s.held > 0
  {
    s.(held := s.held - 1, attempts := s.attempts - {a})
  }

  function BeginSide(s: Side, slots: nat, a: nat): Side {
    if a in s.attempts || s.held >= slots then s
    else s.(held := s.held + 1, attempts := s.attempts[a := Acquired])
  }

  function GateSide(s: Side, a: nat, key: string, verdict: Verdict): Side {
    if !At(s, a, Acquired) || s.held == 0 then s
    else if verdict.Passed? then s.(pending := s.pending + {key}, attempts := s.attempts[a := Gated(key)])
    else Leave(s, a)
  }

  /** A failed dial or handshake: the key that was gated is removed, and the call returns. */
  function FailSide(s: Side, a: nat): Side {
    if !IsGated(s, a) then s
    else s.(pending := s.pending - {s.attempts[a].key}, attempts := s.attempts[a := Returning])
  }

  /**
   The start of `completeConnection`. Inbound, the key removed is the connection's address,
   the one that was gated. Outbound, it is the connection's remote address, while the gate
   recorded the string that was dialled.
   */
  function SettleSide(s: Side, inbound: bool, a: nat, remoteIP: string): Side {
    if !IsGated(s, a) then s
    else
      var removed := if inbound then s.attempts[a].key else remoteIP;
      s.(pending := s.pending - {removed}, attempts := s.attempts[a := Settled(remoteIP)])
  }

  function ReturnSide(s: Side, a: nat): Side {
    if !At(s, a, Returning) || s.held == 0 then s else Leave(s, a)
  }

  function VerdictOf(cfg: Config, n: Net, step: Step): Verdict
    requires step.Gate?
  {
    if step.inbound then GateInbound(cfg, n.mux, n.inbound.pending, step.key, step.ip, step.ban)
    else GateOutbound(cfg, n.mux, n.outbound.pending, step.id, step.key, step.ban)
  }

  function Next(cfg: Config, n: Net, step: Step): Net {
    match step
    case Begin(inbound, a) => WithSide(n, inbound, BeginSide(SideOf(n, inbound), Slots(inbound), a))
    case Gate(inbound, a, _, key, _, _) =>
      WithSide(n, inbound, GateSide(SideOf(n, inbound), a, key, VerdictOf(cfg, n, step)))
    case Fail(inbound, a) => WithSide(n, inbound, FailSide(SideOf(n, inbound), a))
    case Settle(inbound, a, remoteIP) => WithSide(n, inbound, SettleSide(SideOf(n, inbound), inbound, a, remoteIP))
    case Finish(inbound, a, id, conn, self) =>
      var s := SideOf(n, inbound);
      if !IsSettled(s, a) then n
      else
        var done := WithSide(n, inbound, s.(attempts := s.attempts[a := Returning]));
        if self then done
        else done.(mux := PeerMuxer.Next(n.mux, Opens(id, Peer(conn, inbound, s.attempts[a].ip))))
    case Return(inbound, a) => WithSide(n, inbound, ReturnSide(SideOf(n, inbound), a))
    case Drop(id) => n.(mux := Close(n.mux, id))
  }

  function Run(cfg: Config, steps: seq<Step>): Net {
    if steps == [] then Net(PeerMuxer.EMPTY, IDLE, IDLE)
    else Next(cfg, Run(cfg, steps[..|steps| - 1]), steps[|steps| - 1])
  }

  // ---------------------------------------------------------------- the caps

  /** The attempts that have passed the gate and are not yet decided. */
  function PastGate(s: Side): set<nat> {
    set a | a in s.attempts && (s.attempts[a].Gated? || s.attempts[a].Settled?)
  }

  /** The most connections a direction can reach: the configured limit, and one attempt per other slot. */
  function Cap(limit: int, slots: nat): int {
    if limit < 1 then 0 else limit + slots - 1
  }

  ghost predicate Capped(s: Side, slots: nat, limit: int, live: int) {
    && s.held == |s.attempts| <= slots
    && live + |PastGate(s)| <= Cap(limit, slots)
  }

  ghost predicate Inv(cfg: Config, n: Net) {
    && PeerMuxer.Inv(n.mux)
    && (forall inbound :: Capped(SideOf(n, inbound), Slots(inbound), Limit(cfg, inbound), Count(n.mux, inbound)))
  }

  lemma PastGateBound(s: Side)
    ensures |PastGate(s)| <= |s.attempts|
  {
    Within(PastGate(s), s.attempts.Keys);
  }

  lemma Within(a: set<nat>, b: set<nat>)
    requires a <= b
    ensures |a| <= |b|
  {
    assert b == a + (b - a);
  }

  lemma LeaveCapped(s: Side, a: nat, slots: nat, limit: int, live: int)
    requires Capped(s, slots, limit, live) && a in s.attempts
    ensures s.held > 0 && Capped(Leave(s, a), slots, limit, live)
  {
    assert |s.attempts.Keys| == |s.attempts|;
    var t := s.attempts - {a};
    assert t.Keys == s.attempts.Keys - {a};
    assert |t.Keys| == |t|;
    assert a in s.attempts.Keys;
    assert PastGate(Leave(s, a)) == PastGate(s) - {a};
  }

  lemma MoveCapped(s: Side, a: nat, stage: Stage, slots: nat, limit: int, live: int, live': int)
    requires Capped(s, slots, limit, live) && a in s.attempts
    requires live' <= live + (if a in PastGate(s) && (stage.Acquired? || stage.Returning?) then 1 else 0)
    requires stage.Gated? || stage.Settled? ==> a in PastGate(s) || 0 <= live' < limit
    ensures Capped(s.(attempts := s.attempts[a := stage]), slots, limit, live')
  {
    var t := s.(attempts := s.attempts[a := stage]);
    assert t.attempts.Keys == s.attempts.Keys;
    assert |t.attempts.Keys| == |t.attempts| && |s.attempts.Keys| == |s.attempts|;
    if stage.Gated? || stage.Settled? {
      assert PastGate(t) == PastGate(s) + {a};
      PastGateBound(t);
    } else {
      assert PastGate(t) == PastGate(s) - {a};
    }
  }

  lemma BeginCapped(s: Side, a: nat, slots: nat, limit: int, live: int)
    requires Capped(s, slots, limit, live)
    ensures Capped(BeginSide(s, slots, a), slots, limit, live)
  {
    var t := BeginSide(s, slots, a);
    if t != s {
      assert t.attempts.Keys == s.attempts.Keys + {a};
      assert |t.attempts.Keys| == |t.attempts| && |s.attempts.Keys| == |s.attempts|;
      assert PastGate(t) == PastGate(s);
    }
  }

  lemma PendingFree(s: Side, pending: set<string>, slots: nat, limit: int, live: int)
    requires Capped(s, slots, limit, live)
    ensures Capped(s.(pending := pending), slots, limit, live)
  {
  }

  /** One step keeps the side it acts on within its cap. */
  lemma StepCapped(cfg: Config, n: Net, step: Step)
    requires Inv(cfg, n) && !step.Drop?
    ensures var dir := step.inbound; var n' := Next(cfg, n, step);
            Capped(SideOf(n', dir), Slots(dir), Limit(cfg, dir), Count(n'.mux, dir))
  {
    var dir := step.inbound;
    var s, slots, limit, live := SideOf(n, dir), Slots(dir), Limit(cfg, dir), Count(n.mux, dir);
    assert Capped(s, slots, limit, live);
    match step
    case Begin(_, a) => BeginCapped(s, a, slots, limit, live);
    case Gate(_, a, _, key, _, _) =>
      if At(s, a, Acquired) {
        var verdict := VerdictOf(cfg, n, step);
        if verdict.Passed? {
          MoveCapped(s, a, Gated(key), slots, limit, live, live);
          PendingFree(s.(attempts := s.attempts[a := Gated(key)]), s.pending + {key}, slots, limit, live);
        } else {
          LeaveCapped(s, a, slots, limit, live);
        }
      }
    case Fail(_, a) =>
      if IsGated(s, a) {
        MoveCapped(s, a, Returning, slots, limit, live, live);
        PendingFree(s.(attempts := s.attempts[a := Returning]), FailSide(s, a).pending, slots, limit, live);
      }
    case Settle(_, a, ip) =>
      if IsGated(s, a) {
        MoveCapped(s, a, Settled(ip), slots, limit, live, live);
        PendingFree(s.(attempts := s.attempts[a := Settled(ip)]), SettleSide(s, dir, a, ip).pending, slots, limit, live);
      }
    case Finish(_, a, id, conn, self) =>
      if IsSettled(s, a) {
        MoveCapped(s, a, Returning, slots, limit, live, Count(Next(cfg, n, step).mux, dir));
      }
    case Return(_, a) =>
      if At(s, a, Returning) {
        LeaveCapped(s, a, slots, limit, live);
      }
  }

  lemma StepKeeps(cfg: Config, n: Net, step: Step)
    requires Inv(cfg, n)
    ensures Inv(cfg, Next(cfg, n, step))
  {
    var n' := Next(cfg, n, step);
    match step {
      case Finish(dir, a, id, conn, self) =>
        if IsSettled(SideOf(n, dir), a) && !self {
          PeerMuxer.NextKeeps(n.mux, Opens(id, Peer(conn, dir, SideOf(n, dir).attempts[a].ip)));
        }
      case Drop(id) => CloseKeeps(n.mux, id);
      case _ =>
    }
    forall dir: bool
      ensures Capped(SideOf(n', dir), Slots(dir), Limit(cfg, dir), Count(n'.mux, dir))
    {
      assert Capped(SideOf(n, dir), Slots(dir), Limit(cfg, dir), Count(n.mux, dir));
      if step.Drop? {
      } else if dir == step.inbound {
        StepCapped(cfg, n, step);
      } else if step.Finish? && IsSettled(SideOf(n, !dir), step.a) {
      }
    }
  }

  /**
   In every run, with calls interleaved in any order, the muxer's indexes agree, each
   semaphore counts the calls in flight, and the live connections of a direction together
   with the attempts past its gate never exceed the limit plus the other slots.
   */
  lemma {:induction false} ConnectionsCapped(cfg: Config, steps: seq<Step>)
    ensures Inv(cfg, Run(cfg, steps))
    decreases |steps|
  {
    if steps == [] {
      assert PastGate(IDLE) == {};
    } else {
      ConnectionsCapped(cfg, steps[..|steps| - 1]);
      StepKeeps(cfg, Run(cfg, steps[..|steps| - 1]), steps[|steps| - 1]);
    }
  }

  /** In numbers: twelve calls may be accepting and five dialling, so the limits are overshot by eleven and four at most. */
  lemma CappedInNumbers(cfg: Config, steps: seq<Step>)
    requires cfg.maxInbound >= 1 && cfg.maxOutbound >= 1
    ensures var n := Run(cfg, steps);
            && n.mux.inCount <= cfg.maxInbound + 11 && n.mux.outCount <= cfg.maxOutbound + 4
            && n.inbound.held <= 12 && n.outbound.held <= 5
  {
    ConnectionsCapped(cfg, steps);
    var n := Run(cfg, steps);
    assert Capped(SideOf(n, true), Slots(true), Limit(cfg, true), Count(n.mux, true));
    assert Capped(SideOf(n, false), Slots(false), Limit(cfg, false), Count(n.mux, false));
  }

  // ---------------------------------------------------------------- the pending tables

  ghost predicate Pending(s: Side, key: string) {
    exists a :: IsGated(s, a) && s.attempts[a].key == key
  }

  predicate OneOwner(s: Side, a: nat, b: nat) {
    IsGated(s, a) && IsGated(s, b) && s.attempts[a].key == s.attempts[b].key ==> a == b
  }

  /** The table lists the keys of the attempts between gate and cleanup, each of them once. */
  ghost predicate Exact(s: Side) {
    && (forall key :: key in s.pending <==> Pending(s, key))
    && (forall a, b :: OneOwner(s, a, b))
  }

  lemma SameGated(s: Side, t: Side)
    requires Exact(s) && t.pending == s.pending
    requires forall a :: IsGated(t, a) <==> IsGated(s, a)
    requires forall a :: IsGated(t, a) && IsGated(s, a) ==> t.attempts[a] == s.attempts[a]
    ensures Exact(t)
  {
    forall key: string
      ensures key in t.pending <==> Pending(t, key)
    {
      assert Pending(s, key) ==> exists a :: IsGated(t, a) && t.attempts[a].key == key;
      assert Pending(t, key) ==> exists a :: IsGated(s, a) && s.attempts[a].key == key;
    }
    forall a: nat, b: nat
      ensures OneOwner(t, a, b)
    {
      assert OneOwner(s, a, b);
    }
  }

  lemma GatedExact(s: Side, a: nat, key: string)
    requires Exact(s) && a in s.attempts && !IsGated(s, a) && key !in s.pending
    ensures Exact(s.(pending := s.pending + {key}, attempts := s.attempts[a := Gated(key)]))
  {
    var t := s.(pending := s.pending + {key}, attempts := s.attempts[a := Gated(key)]);
    assert IsGated(t, a);
    assert forall b :: b != a ==> (IsGated(t, b) <==> IsGated(s, b));
    forall k: string
      ensures k in t.pending <==> Pending(t, k)
    {
      if Pending(s, k) {
        var b :| IsGated(s, b) && s.attempts[b].key == k;
        assert IsGated(t, b) && t.attempts[b].key == k;
      }
      if Pending(t, k) && k != key {
        var b :| IsGated(t, b) && t.attempts[b].key == k;
        assert IsGated(s, b) && s.attempts[b].key == k;
      }
    }
    forall b: nat, c: nat
      ensures OneOwner(t, b, c)
    {
      assert OneOwner(s, b, c);
      assert !Pending(s, key);
    }
  }

  /** Ungating `a` keeps the table exact if and only if the key taken out is the key put in. */
  lemma UngatedExact(s: Side, a: nat, removed: string, stage: Stage)
    requires Exact(s) && IsGated(s, a) && !stage.Gated?
    ensures Exact(s.(pending := s.pending - {removed}, attempts := s.attempts[a := stage]))
       <==> removed == s.attempts[a].key
  {
    var key := s.attempts[a].key;
    var t := s.(pending := s.pending - {removed}, attempts := s.attempts[a := stage]);
    assert forall b :: b != a ==> (IsGated(t, b) <==> IsGated(s, b));
    assert Pending(s, key) && key in s.pending;
    forall b | IsGated(t, b)
      ensures t.attempts[b].key != key
    {
      assert IsGated(s, b) && OneOwner(s, a, b);
    }
    if removed == key {
      forall k: string
        ensures k in t.pending <==> Pending(t, k)
      {
        if Pending(s, k) && k != key {
          var b :| IsGated(s, b) && s.attempts[b].key == k;
          assert IsGated(t, b) && t.attempts[b].key == k;
        }
        if Pending(t, k) {
          var b :| IsGated(t, b) && t.attempts[b].key == k;
          assert IsGated(s, b) && s.attempts[b].key == k;
        }
      }
      forall b: nat, c: nat
        ensures OneOwner(t, b, c)
      {
        assert OneOwner(s, b, c);
      }
    } else {
      assert key in t.pending && !Pending(t, key);
    }
  }

  /** The step completes an outbound connection whose remote address is not the string that was dialled. */
  predicate Strays(n: Net, step: Step) {
    step.Settle? && !step.inbound && IsGated(n.outbound, step.a) && n.outbound.attempts[step.a].key != step.remoteIP
  }

  lemma StepExact(cfg: Config, n: Net, step: Step, dir: bool)
    requires Exact(SideOf(n, dir))
    ensures Exact(SideOf(Next(cfg, n, step), dir)) <==> dir || !Strays(n, step)
  {
    var s, t := SideOf(n, dir), SideOf(Next(cfg, n, step), dir);
    match step
    case Begin(_, a) => SameGated(s, t);
    case Gate(_, a, _, key, _, _) =>
      if step.inbound == dir && At(s, a, Acquired) && s.held > 0 && VerdictOf(cfg, n, step).Passed? {
        GatedExact(s, a, key);
      } else {
        SameGated(s, t);
      }
    case Fail(_, a) =>
      if step.inbound == dir && IsGated(s, a) {
        UngatedExact(s, a, s.attempts[a].key, Returning);
      }
    case Settle(_, a, remoteIP) =>
      if step.inbound == dir && IsGated(s, a) {
        UngatedExact(s, a, if dir then s.attempts[a].key else remoteIP, Settled(remoteIP));
      }
    case Finish(_, _, _, _, _) => SameGated(s, t);
    case Return(_, _) => SameGated(s, t);
    case Drop(_) =>
  }

  /** The inbound table always lists exactly the inbound attempts in flight, so it is empty when there are none. */
  lemma {:induction false} InboundPendingExact(cfg: Config, steps: seq<Step>)
    ensures Exact(Run(cfg, steps).inbound)
    ensures Run(cfg, steps).inbound.attempts == map[] ==> Run(cfg, steps).inbound.pending == {}
    decreases |steps|
  {
    if steps != [] {
      var n := Run(cfg, steps[..|steps| - 1]);
      InboundPendingExact(cfg, steps[..|steps| - 1]);
      StepExact(cfg, n, steps[|steps| - 1], true);
    }
    var s := Run(cfg, steps).inbound;
    assert Exact(s);
    assert forall key :: key in s.pending ==> Pending(s, key);
  }

  predicate NeverStrays(cfg: Config, steps: seq<Step>) {
    steps == [] ||
    (NeverStrays(cfg, steps[..|steps| - 1]) && !Strays(Run(cfg, steps[..|steps| - 1]), steps[|steps| - 1]))
  }

  ghost predicate AlwaysExact(cfg: Config, steps: seq<Step>) {
    Exact(Run(cfg, steps).outbound) && (steps == [] || AlwaysExact(cfg, steps[..|steps| - 1]))
  }

  /**
   The outbound table stays exact all through a run if and only if every completed dial
   reached the very address string it dialled; otherwise an entry is left behind, or one of
   an attempt still in flight is removed.
   */
  lemma {:induction false} OutboundPendingExact(cfg: Config, steps: seq<Step>)
    ensures AlwaysExact(cfg, steps) <==> NeverStrays(cfg, steps)
    decreases |steps|
  {
    if steps != [] {
      var n := Run(cfg, steps[..|steps| - 1]);
      OutboundPendingExact(cfg, steps[..|steps| - 1]);
      if AlwaysExact(cfg, steps[..|steps| - 1]) {
        StepExact(cfg, n, steps[|steps| - 1], false);
      }
    }
  }

  /** With no stray dial, the outbound table too is empty when no dial is in flight. */
  lemma OutboundEmptyWhenIdle(cfg: Config, steps: seq<Step>)
    requires NeverStrays(cfg, steps) && Run(cfg, steps).outbound.attempts == map[]
    ensures Run(cfg, steps).outbound.pending == {}
  {
    OutboundPendingExact(cfg, steps);
    var s := Run(cfg, steps).outbound;
    assert Exact(s);
    assert forall key :: key in s.pending ==> Pending(s, key);
  }

  // ---------------------------------------------------------------- a stray dial

  lemma RunSnoc(cfg: Config, steps: seq<Step>, step: Step)
    ensures Run(cfg, steps + [step]) == Next(cfg, Run(cfg, steps), step)
  {
    assert (steps + [step])[..|steps|] == steps;
  }

  /** A dial of a host name that reaches an address and connects: its call is over, its key stays pending. */
  lemma StrayLeavesKey(cfg: Config) returns (steps: seq<Step>)
    requires cfg.maxOutbound >= 1 && cfg.listenHost != "host"
    ensures steps == [Begin(false, 1), Gate(false, 1, 7, "host", "host", None), Settle(false, 1, "10.0.0.1"),
                      Finish(false, 1, 7, 1, false), Return(false, 1)]
    ensures var n := Run(cfg, steps);
            n.outbound.attempts == map[] && n.outbound.pending == {"host"} && 7 in n.mux.peers
  {
    steps := [];
    RunSnoc(cfg, steps, Begin(false, 1));
    steps := steps + [Begin(false, 1)];
    RunSnoc(cfg, steps, Gate(false, 1, 7, "host", "host", None));
    steps := steps + [Gate(false, 1, 7, "host", "host", None)];
    assert Run(cfg, steps).outbound == Side(1, {"host"}, map[1 := Gated("host")]);
    RunSnoc(cfg, steps, Settle(false, 1, "10.0.0.1"));
    steps := steps + [Settle(false, 1, "10.0.0.1")];
    RunSnoc(cfg, steps, Finish(false, 1, 7, 1, false));
    steps := steps + [Finish(false, 1, 7, 1, false)];
    RunSnoc(cfg, steps, Return(false, 1));
    steps := steps + [Return(false, 1)];
  }

  /** A key pending for no dial in flight. */
  ghost predicate Orphan(s: Side, key: string) {
    key in s.pending && !Pending(s, key)
  }

  lemma OrphanKept(cfg: Config, n: Net, step: Step, key: string)
    requires Orphan(n.outbound, key) && !(step.Settle? && !step.inbound && step.remoteIP == key)
    ensures Orphan(Next(cfg, n, step).outbound, key)
  {
    var s, t := n.outbound, Next(cfg, n, step).outbound;
    forall a | IsGated(t, a)
      ensures t.attempts[a].key != key
    {
      assert IsGated(s, a) ==> s.attempts[a].key != key;
    }
    if step.Fail? && !step.inbound && IsGated(s, step.a) {
      assert s.attempts[step.a].key != key;
    }
  }

  /** Nothing but a dial that reaches the key itself as its remote address ever takes an orphan out again. */
  lemma {:induction false} OrphanStays(cfg: Config, steps: seq<Step>, more: seq<Step>, key: string)
    requires Orphan(Run(cfg, steps).outbound, key)
    requires forall i :: 0 <= i < |more| ==> !(more[i].Settle? && !more[i].inbound && more[i].remoteIP == key)
    ensures Orphan(Run(cfg, steps + more).outbound, key)
    decreases |more|
  {
    if more == [] {
      assert steps + more == steps;
    } else {
      var front, last := more[..|more| - 1], more[|more| - 1];
      OrphanStays(cfg, steps, front, key);
      RunSnoc(cfg, steps + front, last);
      assert steps + more == steps + front + [last];
      OrphanKept(cfg, Run(cfg, steps + front), last, key);
    }
  }

  // ---------------------------------------------------------------- finding outbound connections

  /** The step puts a second outbound connection on an address that has an entry. */
  predicate Replaces(n: Net, step: Step) {
    && step.Finish? && !step.inbound && IsSettled(n.outbound, step.a) && !step.self
    && Overwrites(n.mux, Opens(step.id, Peer(step.conn, false, n.outbound.attempts[step.a].ip)))
  }

  predicate NeverReplaces(cfg: Config, steps: seq<Step>) {
    steps == [] ||
    (NeverReplaces(cfg, steps[..|steps| - 1]) && !Replaces(Run(cfg, steps[..|steps| - 1]), steps[|steps| - 1]))
  }

  ghost predicate AlwaysFound(cfg: Config, steps: seq<Step>) {
    OutComplete(Run(cfg, steps).mux) && (steps == [] || AlwaysFound(cfg, steps[..|steps| - 1]))
  }

  lemma StepFound(cfg: Config, n: Net, step: Step)
    requires PeerMuxer.Inv(n.mux) && OutComplete(n.mux)
    ensures OutComplete(Next(cfg, n, step).mux) <==> !Replaces(n, step)
  {
    match step
    case Finish(dir, a, id, conn, self) =>
      if IsSettled(SideOf(n, dir), a) && !self {
        var p := Peer(conn, dir, SideOf(n, dir).attempts[a].ip);
        if !Live(n.mux, p) && id !in n.mux.peers {
          OpenKeepsComplete(n.mux, id, p);
        }
      }
    case Drop(id) => CloseKeepsComplete(n.mux, id);
    case _ =>
  }

  /**
   Through the manager as well, outbound connections can be found by address all through a
   run if and only if none is completed to an address that has one.
   */
  lemma {:induction false} OutboundFound(cfg: Config, steps: seq<Step>)
    ensures AlwaysFound(cfg, steps) <==> NeverReplaces(cfg, steps)
    decreases |steps|
  {
    if steps != [] {
      var front := steps[..|steps| - 1];
      OutboundFound(cfg, front);
      if AlwaysFound(cfg, front) {
        ConnectionsCapped(cfg, front);
        StepFound(cfg, Run(cfg, front), steps[|steps| - 1]);
      }
    }
  }

  /**
   The gate does not prevent it, and no dial need stray: the second dial of an address passes
   while the first is cleaned up but not yet counted.
   */
  lemma DoubleDial(cfg: Config, ip: string) returns (steps: seq<Step>)
    requires cfg.maxOutbound >= 1 && cfg.listenHost != ip
    ensures steps == [Begin(false, 1), Begin(false, 2), Gate(false, 1, 1, ip, ip, None), Settle(false, 1, ip),
                      Gate(false, 2, 2, ip, ip, None), Settle(false, 2, ip),
                      Finish(false, 1, 1, 1, false), Finish(false, 2, 2, 2, false)]
    ensures var m := Run(cfg, steps).mux;
            1 in m.peers && m.peers[1] == Peer(1, false, ip) && ip in m.outByIP && m.outByIP[ip] == Peer(2, false, ip)
  {
    steps := [];
    RunSnoc(cfg, steps, Begin(false, 1));
    steps := steps + [Begin(false, 1)];
    RunSnoc(cfg, steps, Begin(false, 2));
    steps := steps + [Begin(false, 2)];
    assert Run(cfg, steps) == Net(PeerMuxer.EMPTY, IDLE, Side(2, {}, map[1 := Acquired, 2 := Acquired]));
    RunSnoc(cfg, steps, Gate(false, 1, 1, ip, ip, None));
    steps := steps + [Gate(false, 1, 1, ip, ip, None)];
    RunSnoc(cfg, steps, Settle(false, 1, ip));
    steps := steps + [Settle(false, 1, ip)];
    assert Run(cfg, steps) == Net(PeerMuxer.EMPTY, IDLE, Side(2, {}, map[1 := Settled(ip), 2 := Acquired]));
    RunSnoc(cfg, steps, Gate(false, 2, 2, ip, ip, None));
    steps := steps + [Gate(false, 2, 2, ip, ip, None)];
    RunSnoc(cfg, steps, Settle(false, 2, ip));
    steps := steps + [Settle(false, 2, ip)];
    assert Run(cfg, steps) == Net(PeerMuxer.EMPTY, IDLE, Side(2, {}, map[1 := Settled(ip), 2 := Settled(ip)]));
    RunSnoc(cfg, steps, Finish(false, 1, 1, 1, false));
    steps := steps + [Finish(false, 1, 1, 1, false)];
    assert Run(cfg, steps).mux == Open(PeerMuxer.EMPTY, 1, Peer(1, false, ip)).0;
    RunSnoc(cfg, steps, Finish(false, 2, 2, 2, false));
    steps := steps + [Finish(false, 2, 2, 2, false)];
  }

  // ---------------------------------------------------------------- the cap is reached

  /** A supply of different addresses, none of them the node's own. */
  function Addr(cfg: Config, i: nat): string {
    cfg.listenHost + seq(i + 1, _ => 'x')
  }

  function PeerNo(cfg: Config, dir: bool, i: nat): Peer {
    Peer(i, dir, Addr(cfg, i))
  }

  /** The callers below `done` are connected, and the muxer knows no others. */
  ghost predicate Connected(cfg: Config, m: Mux, dir: bool, done: nat) {
    && Count(m, dir) == done
    && (forall id: ID :: id in m.peers <==> id < done)
    && (forall id: ID :: id in m.peers ==> m.peers[id] == PeerNo(cfg, dir, id))
    && (forall i: nat :: i >= done ==> Addr(cfg, i) !in m.outByIP)
  }

  predicate CallerAt(cfg: Config, s: Side, i: nat, gone: nat, done: nat, gated: nat, begun: nat) {
    if i < gone || i >= begun then i !in s.attempts
    else if i < done then At(s, i, Returning)
    else if i < gated then At(s, i, Gated(Addr(cfg, i)))
    else At(s, i, Acquired) && Addr(cfg, i) !in s.pending
  }

  /** Callers take their steps in order: those below `begun` hold or held a slot, and so on down to `gone`. */
  ghost predicate InLine(cfg: Config, n: Net, dir: bool, gone: nat, done: nat, gated: nat, begun: nat) {
    var s := SideOf(n, dir);
    && gone <= done <= gated <= begun && s.held == begun - gone
    && Connected(cfg, n.mux, dir, done)
    && (forall i: nat :: CallerAt(cfg, s, i, gone, done, gated, begun))
    && (forall i: nat :: i >= gated ==> Addr(cfg, i) !in s.pending)
  }

  lemma BeginsNext(cfg: Config, n: Net, dir: bool, gone: nat, done: nat, gated: nat, begun: nat)
    requires InLine(cfg, n, dir, gone, done, gated, begun) && begun - gone < Slots(dir)
    ensures InLine(cfg, Next(cfg, n, Begin(dir, begun)), dir, gone, done, gated, begun + 1)
  {
    var s, t, next := SideOf(n, dir), SideOf(Next(cfg, n, Begin(dir, begun)), dir), begun + 1;
    assert CallerAt(cfg, s, begun, gone, done, gated, begun);
    forall i: nat
      ensures CallerAt(cfg, t, i, gone, done, gated, next)
    {
      assert CallerAt(cfg, s, i, gone, done, gated, begun);
    }
  }

  lemma GatesNext(cfg: Config, n: Net, dir: bool, gone: nat, done: nat, gated: nat, begun: nat)
    requires InLine(cfg, n, dir, gone, done, gated, begun) && gated < begun && done < Limit(cfg, dir)
    ensures var step := Gate(dir, gated, gated, Addr(cfg, gated), Addr(cfg, gated), None);
            InLine(cfg, Next(cfg, n, step), dir, gone, done, gated + 1, begun)
  {
    var step := Gate(dir, gated, gated, Addr(cfg, gated), Addr(cfg, gated), None);
    var s, t, next := SideOf(n, dir), SideOf(Next(cfg, n, step), dir), gated + 1;
    assert CallerAt(cfg, s, gated, gone, done, gated, begun);
    assert |Addr(cfg, gated)| > |cfg.listenHost|;
    assert VerdictOf(cfg, n, step) == Passed;
    forall i: nat | i >= next
      ensures Addr(cfg, i) !in t.pending
    {
      assert |Addr(cfg, i)| != |Addr(cfg, gated)|;
    }
    forall i: nat
      ensures CallerAt(cfg, t, i, gone, done, next, begun)
    {
      assert CallerAt(cfg, s, i, gone, done, gated, begun);
    }
  }

  lemma ConnectsNext(cfg: Config, m: Mux, dir: bool, done: nat)
    requires Connected(cfg, m, dir, done)
    ensures Connected(cfg, PeerMuxer.Next(m, Opens(done, PeerNo(cfg, dir, done))), dir, done + 1)
  {
    var p := PeerNo(cfg, dir, done);
    assert !Live(m, p);
    forall i: nat | i >= done + 1
      ensures Addr(cfg, i) !in PeerMuxer.Next(m, Opens(done, p)).outByIP
    {
      assert |Addr(cfg, i)| != |Addr(cfg, done)|;
    }
  }

  lemma AdmitsNext(cfg: Config, n: Net, dir: bool, gone: nat, done: nat, gated: nat, begun: nat)
    requires InLine(cfg, n, dir, gone, done, gated, begun) && done < gated
    ensures var n' := Next(cfg, n, Settle(dir, done, Addr(cfg, done)));
            InLine(cfg, Next(cfg, n', Finish(dir, done, done, done, false)), dir, gone, done + 1, gated, begun)
  {
    var n1 := Next(cfg, n, Settle(dir, done, Addr(cfg, done)));
    var n2 := Next(cfg, n1, Finish(dir, done, done, done, false));
    var s, t, next := SideOf(n, dir), SideOf(n2, dir), done + 1;
    assert CallerAt(cfg, s, done, gone, done, gated, begun);
    assert At(SideOf(n1, dir), done, Settled(Addr(cfg, done)));
    ConnectsNext(cfg, n.mux, dir, done);
    forall i: nat
      ensures CallerAt(cfg, t, i, gone, next, gated, begun)
    {
      assert CallerAt(cfg, s, i, gone, done, gated, begun);
    }
  }

  lemma ReturnsNext(cfg: Config, n: Net, dir: bool, gone: nat, done: nat, gated: nat, begun: nat)
    requires InLine(cfg, n, dir, gone, done, gated, begun) && gone < done
    ensures InLine(cfg, Next(cfg, n, Return(dir, gone)), dir, gone + 1, done, gated, begun)
  {
    var s, t, next := SideOf(n, dir), SideOf(Next(cfg, n, Return(dir, gone)), dir), gone + 1;
    assert CallerAt(cfg, s, gone, gone, done, gated, begun);
    forall i: nat
      ensures CallerAt(cfg, t, i, next, done, gated, begun)
    {
      assert CallerAt(cfg, s, i, gone, done, gated, begun);
    }
  }

  /** One caller after the other, each gone before the next begins. */
  lemma {:induction false} OneByOne(cfg: Config, dir: bool, k: nat) returns (steps: seq<Step>)
    requires k < Limit(cfg, dir)
    ensures InLine(cfg, Run(cfg, steps), dir, k, k, k, k)
  {
    if k == 0 {
      steps := [];
      assert Connected(cfg, PeerMuxer.EMPTY, dir, 0);
      assert forall i: nat :: CallerAt(cfg, IDLE, i, k, k, k, k);
    } else {
      steps := OneByOne(cfg, dir, k - 1);
      var i := k - 1;
      BeginsNext(cfg, Run(cfg, steps), dir, i, i, i, i);
      steps := Then(cfg, steps, Begin(dir, i));
      GatesNext(cfg, Run(cfg, steps), dir, i, i, i, k);
      steps := Then(cfg, steps, Gate(dir, i, i, Addr(cfg, i), Addr(cfg, i), None));
      AdmitsNext(cfg, Run(cfg, steps), dir, i, i, k, k);
      steps := Then(cfg, steps, Settle(dir, i, Addr(cfg, i)));
      steps := Then(cfg, steps, Finish(dir, i, i, i, false));
      ReturnsNext(cfg, Run(cfg, steps), dir, i, k, k, k);
      steps := Then(cfg, steps, Return(dir, i));
    }
  }

  lemma Then(cfg: Config, steps: seq<Step>, step: Step) returns (longer: seq<Step>)
    ensures longer == steps + [step] && Run(cfg, longer) == Next(cfg, Run(cfg, steps), step)
  {
    RunSnoc(cfg, steps, step);
    longer := steps + [step];
  }

  /** All slots are taken one connection short of the limit. */
  lemma {:induction false} AllBegin(cfg: Config, dir: bool, j: nat) returns (steps: seq<Step>)
    requires Limit(cfg, dir) >= 1 && j <= Slots(dir)
    ensures var k := Limit(cfg, dir) - 1; InLine(cfg, Run(cfg, steps), dir, k, k, k, k + j)
  {
    var k := Limit(cfg, dir) - 1;
    if j == 0 {
      steps := OneByOne(cfg, dir, k);
    } else {
      steps := AllBegin(cfg, dir, j - 1);
      BeginsNext(cfg, Run(cfg, steps), dir, k, k, k, k + j - 1);
      steps := Then(cfg, steps, Begin(dir, k + j - 1));
    }
  }

  /** All of them pass the gate before any is counted. */
  lemma {:induction false} AllGate(cfg: Config, dir: bool, j: nat) returns (steps: seq<Step>)
    requires Limit(cfg, dir) >= 1 && j <= Slots(dir)
    ensures var k := Limit(cfg, dir) - 1; InLine(cfg, Run(cfg, steps), dir, k, k, k + j, k + Slots(dir))
  {
    var k := Limit(cfg, dir) - 1;
    if j == 0 {
      steps := AllBegin(cfg, dir, Slots(dir));
    } else {
      steps := AllGate(cfg, dir, j - 1);
      GatesNext(cfg, Run(cfg, steps), dir, k, k, k + j - 1, k + Slots(dir));
      var i := k + j - 1;
      steps := Then(cfg, steps, Gate(dir, i, i, Addr(cfg, i), Addr(cfg, i), None));
    }
  }

  lemma {:induction false} AllAdmit(cfg: Config, dir: bool, j: nat) returns (steps: seq<Step>)
    requires Limit(cfg, dir) >= 1 && j <= Slots(dir)
    ensures var k := Limit(cfg, dir) - 1; InLine(cfg, Run(cfg, steps), dir, k, k + j, k + Slots(dir), k + Slots(dir))
  {
    var k := Limit(cfg, dir) - 1;
    if j == 0 {
      steps := AllGate(cfg, dir, Slots(dir));
    } else {
      steps := AllAdmit(cfg, dir, j - 1);
      var i := k + j - 1;
      AdmitsNext(cfg, Run(cfg, steps), dir, k, i, k + Slots(dir), k + Slots(dir));
      steps := Then(cfg, steps, Settle(dir, i, Addr(cfg, i)));
      steps := Then(cfg, steps, Finish(dir, i, i, i, false));
    }
  }

  /**
   The cap is exact: for every configuration with a limit of at least one, in either
   direction, some run from the empty node reaches it.
   */
  lemma CapReached(cfg: Config, dir: bool) returns (steps: seq<Step>)
    requires Limit(cfg, dir) >= 1
    ensures Count(Run(cfg, steps).mux, dir) == Cap(Limit(cfg, dir), Slots(dir))
  {
    steps := AllAdmit(cfg, dir, Slots(dir));
  }

  // ---------------------------------------------------------------- the object

  datatype Outcome = Busy | Refused(verdict: Verdict) | DialFailed | HandshakeFailed | IDMismatch | OwnID | KnownID | Joined

  function Complete(own: ID, mux: Mux, id: ID): Outcome {
    if id == own then OwnID else if id in mux.peers then KnownID else Joined
  }

  // ---------------------------------------------------------------- addresses kept out

  /** The gates pass exactly an address that is not our own, not pending and not banned, while there is room. */
  lemma InboundPasses(cfg: Config, mux: Mux, pending: set<string>, addr: string, ip: string, ban: Option<bool>)
    ensures GateInbound(cfg, mux, pending, addr, ip, ban) == Passed
       <==> ip != cfg.listenHost && addr !in pending && mux.inCount < cfg.maxInbound && ban != Some(true)
  {
  }

  /** Outbound, neither the identity nor the address may be connected already. */
  lemma OutboundPasses(cfg: Config, mux: Mux, pending: set<string>, id: ID, ip: string, ban: Option<bool>)
    ensures GateOutbound(cfg, mux, pending, id, ip, ban) == Passed
       <==> && ip != cfg.listenHost && ip !in pending && mux.outCount < cfg.maxOutbound && ban != Some(true)
            && id !in mux.peers && ip !in mux.outByIP
  {
  }

  /** The address an attempt was gated for: dialled, or the part of the remote address before the port. */
  function GatedFor(ipOf: string -> string, inbound: bool, key: string): string {
    if inbound then ipOf(key) else key
  }

  /** The gate sees the address of the connection, and the look-up of a banned one says so. */
  predicate Truthful(ipOf: string -> string, banned: set<string>, step: Step) {
    step.Gate? ==>
      && (step.inbound ==> step.ip == ipOf(step.key))
      && (GatedFor(ipOf, step.inbound, step.key) in banned ==> step.ban == Some(true))
  }

  predicate StageClean(ipOf: string -> string, out: set<string>, inbound: bool, stage: Stage) {
    && (stage.Gated? ==> GatedFor(ipOf, inbound, stage.key) !in out)
    && (stage.Settled? ==> stage.ip !in out)
  }

  predicate SideClean(ipOf: string -> string, out: set<string>, inbound: bool, s: Side) {
    forall a :: a in s.attempts ==> StageClean(ipOf, out, inbound, s.attempts[a])
  }

  /** No connection, made or in the making, is with an address in `out`. */
  predicate KeptOut(ipOf: string -> string, out: set<string>, n: Net) {
    && SideClean(ipOf, out, true, n.inbound) && SideClean(ipOf, out, false, n.outbound)
    && (forall id :: id in n.mux.peers ==> n.mux.peers[id].ip !in out)
  }

  /** A connection turns out to be with an address in `out`. */
  predicate Reaches(out: set<string>, n: Net, step: Step) {
    step.Settle? && IsGated(SideOf(n, step.inbound), step.a) && step.remoteIP in out
  }

  /** Banned addresses and our own. */
  function Out(cfg: Config, banned: set<string>): set<string> {
    banned + {cfg.listenHost}
  }

  lemma StepKeepsOut(cfg: Config, ipOf: string -> string, banned: set<string>, n: Net, step: Step)
    requires KeptOut(ipOf, Out(cfg, banned), n) && Truthful(ipOf, banned, step)
    ensures KeptOut(ipOf, Out(cfg, banned), Next(cfg, n, step)) <==> !Reaches(Out(cfg, banned), n, step)
  {
    var out, n' := Out(cfg, banned), Next(cfg, n, step);
    if Reaches(out, n, step) {
      var s' := SideOf(n', step.inbound);
      assert step.a in s'.attempts && s'.attempts[step.a] == Settled(step.remoteIP);
      assert !StageClean(ipOf, out, step.inbound, s'.attempts[step.a]);
    }
  }

  predicate AllTruthful(ipOf: string -> string, banned: set<string>, steps: seq<Step>) {
    forall i :: 0 <= i < |steps| ==> Truthful(ipOf, banned, steps[i])
  }

  predicate AlwaysKeptOut(cfg: Config, ipOf: string -> string, out: set<string>, steps: seq<Step>) {
    KeptOut(ipOf, out, Run(cfg, steps)) && (steps == [] || AlwaysKeptOut(cfg, ipOf, out, steps[..|steps| - 1]))
  }

  predicate NeverReaches(cfg: Config, out: set<string>, steps: seq<Step>) {
    steps == [] ||
    (NeverReaches(cfg, out, steps[..|steps| - 1]) && !Reaches(out, Run(cfg, steps[..|steps| - 1]), steps[|steps| - 1]))
  }

  /**
   Under every interleaving, with look-ups that work: no connection is made with a banned
   address or with ourselves if and only if none that passed the gate for another address
   ends there.
   */
  lemma {:induction false} BannedKeptOut(cfg: Config, ipOf: string -> string, banned: set<string>, steps: seq<Step>)
    requires AllTruthful(ipOf, banned, steps)
    ensures AlwaysKeptOut(cfg, ipOf, Out(cfg, banned), steps) <==> NeverReaches(cfg, Out(cfg, banned), steps)
    decreases |steps|
  {
    if steps != [] {
      var front := steps[..|steps| - 1];
      BannedKeptOut(cfg, ipOf, banned, front);
      if AlwaysKeptOut(cfg, ipOf, Out(cfg, banned), front) {
        StepKeepsOut(cfg, ipOf, banned, Run(cfg, front), steps[|steps| - 1]);
      }
    }
  }

  /** An inbound connection, and a dial of a plain address, end where they were gated for and so reach nothing. */
  lemma StraightNeverReaches(cfg: Config, ipOf: string -> string, banned: set<string>, n: Net, step: Step)
    requires KeptOut(ipOf, Out(cfg, banned), n) && step.Settle? && IsGated(SideOf(n, step.inbound), step.a)
    requires step.remoteIP == GatedFor(ipOf, step.inbound, SideOf(n, step.inbound).attempts[step.a].key)
    ensures !Reaches(Out(cfg, banned), n, step)
  {
    assert StageClean(ipOf, Out(cfg, banned), step.inbound, SideOf(n, step.inbound).attempts[step.a]);
  }

  // ---------------------------------------------------------------- one call alone

  /** Taking a slot and passing the gate; a call that does not leaves nothing behind. */
  lemma EnterAlone(cfg: Config, n: Net, gate: Step)
    requires gate.Gate? && gate.a !in SideOf(n, gate.inbound).attempts
    ensures var s := SideOf(n, gate.inbound);
            Next(cfg, Next(cfg, n, Begin(gate.inbound, gate.a)), gate)
            == if s.held < Slots(gate.inbound) && VerdictOf(cfg, n, gate).Passed?
            then WithSide(n, gate.inbound, Side(s.held + 1, s.pending + {gate.key}, s.attempts[gate.a := Gated(gate.key)]))
            else n
  {
    var s, a := SideOf(n, gate.inbound), gate.a;
    assert s.attempts[a := Acquired] - {a} == s.attempts;
    assert s.attempts[a := Acquired][a := Gated(gate.key)] == s.attempts[a := Gated(gate.key)];
  }

  /** The dial or handshake fails, and the call returns. */
  lemma FailAlone(cfg: Config, n: Net, dir: bool, a: nat)
    requires SideOf(n, dir).held > 0
    ensures var s := SideOf(n, dir);
            Next(cfg, Next(cfg, n, Fail(dir, a)), Return(dir, a))
            == if IsGated(s, a) then WithSide(n, dir, Side(s.held - 1, s.pending - {s.attempts[a].key}, s.attempts - {a}))
            else Next(cfg, n, Return(dir, a))
  {
    var s := SideOf(n, dir);
    assert s.attempts[a := Returning] - {a} == s.attempts - {a};
  }

  /** The handshake succeeds, and the call completes the connection and returns. */
  lemma CompleteAlone(cfg: Config, n: Net, dir: bool, a: nat, ip: string, id: ID, conn: nat, self: bool)
    requires SideOf(n, dir).held > 0 && IsGated(SideOf(n, dir), a) && !Live(n.mux, Peer(conn, dir, ip))
    ensures var s := SideOf(n, dir);
            var removed := if dir then s.attempts[a].key else ip;
            var n' := WithSide(n, dir, Side(s.held - 1, s.pending - {removed}, s.attempts - {a}));
            Next(cfg, Next(cfg, Next(cfg, n, Settle(dir, a, ip)), Finish(dir, a, id, conn, self)), Return(dir, a))
            == if self then n' else n'.(mux := Open(n.mux, id, Peer(conn, dir, ip)).0)
  {
    var s := SideOf(n, dir);
    var n1 := Next(cfg, n, Settle(dir, a, ip));
    assert At(SideOf(n1, dir), a, Settled(ip)) && n1.mux == n.mux;
    assert s.attempts[a := Settled(ip)][a := Returning] - {a} == s.attempts - {a};
  }

  lemma AbsentIdle(cfg: Config, n: Net, dir: bool, a: nat, ip: string, id: ID, conn: nat, self: bool)
    requires a !in SideOf(n, dir).attempts
    ensures Next(cfg, n, Fail(dir, a)) == n && Next(cfg, n, Settle(dir, a, ip)) == n
    ensures Next(cfg, n, Finish(dir, a, id, conn, self)) == n && Next(cfg, n, Return(dir, a)) == n
  {
  }

  /** The steps of one call of `AcceptPeer` with nothing in between; those past a refusal do nothing. */
  function AcceptRun(cfg: Config, own: ID, n: Net, a: nat, conn: nat, addr: string, ip: string, ban: Option<bool>, handshake: Option<ID>): Net {
    var n1 := Next(cfg, Next(cfg, n, Begin(true, a)), Gate(true, a, 0, addr, ip, ban));
    match handshake
    case None => Next(cfg, Next(cfg, n1, Fail(true, a)), Return(true, a))
    case Some(id) =>
      Next(cfg, Next(cfg, Next(cfg, n1, Settle(true, a, ip)), Finish(true, a, id, conn, id == own)), Return(true, a))
  }

  function AcceptOutcome(cfg: Config, own: ID, n: Net, addr: string, ip: string, ban: Option<bool>, handshake: Option<ID>): Outcome {
    var v := GateInbound(cfg, n.mux, n.inbound.pending, addr, ip, ban);
    if n.inbound.held >= MAX_PENDING_INBOUND then Busy
    else if !v.Passed? then Refused(v)
    else if handshake.None? then HandshakeFailed
    else Complete(own, n.mux, handshake.value)
  }

  /** A call that runs alone leaves both sides as they were, and the muxer too unless it joins. */
  lemma AcceptAlone(cfg: Config, own: ID, n: Net, a: nat, conn: nat, addr: string, ip: string, ban: Option<bool>, handshake: Option<ID>)
    requires a !in n.inbound.attempts && !Live(n.mux, Peer(conn, true, ip))
    ensures AcceptRun(cfg, own, n, a, conn, addr, ip, ban, handshake)
            == if AcceptOutcome(cfg, own, n, addr, ip, ban, handshake).Joined?
            then n.(mux := Open(n.mux, handshake.value, Peer(conn, true, ip)).0) else n
  {
    var s, gate := n.inbound, Gate(true, a, 0, addr, ip, ban);
    EnterAlone(cfg, n, gate);
    if s.held < MAX_PENDING_INBOUND && VerdictOf(cfg, n, gate).Passed? {
      var n1 := n.(inbound := Side(s.held + 1, s.pending + {addr}, s.attempts[a := Gated(addr)]));
      assert s.pending + {addr} - {addr} == s.pending && s.attempts[a := Gated(addr)] - {a} == s.attempts;
      match handshake
      case None => FailAlone(cfg, n1, true, a);
      case Some(id) => CompleteAlone(cfg, n1, true, a, ip, id, conn, id == own);
    } else {
      AbsentIdle(cfg, n, true, a, ip, handshake.GetOr(0), conn, handshake.GetOr(0) == own);
    }
  }

  /** What a dial finds: no connection, no handshake, another identity than was asked for, or a peer. */
  datatype Dialled = NoConnection | NoHandshake(remote: Peer) | Shaken(remote: Peer, theirs: ID)

  predicate Completes(id: ID, verify: bool, d: Dialled) {
    d.Shaken? && !(verify && id != d.theirs)
  }

  /** The steps of one call of `DialPeer` with nothing in between. */
  function DialRun(cfg: Config, own: ID, n: Net, a: nat, id: ID, ip: string, verify: bool, ban: Option<bool>, d: Dialled): Net {
    var n1 := Next(cfg, Next(cfg, n, Begin(false, a)), Gate(false, a, id, ip, ip, ban));
    if Completes(id, verify, d) then
      Next(cfg, Next(cfg, Next(cfg, n1, Settle(false, a, d.remote.ip)), Finish(false, a, d.theirs, d.remote.conn, d.theirs == own)), Return(false, a))
    else Next(cfg, Next(cfg, n1, Fail(false, a)), Return(false, a))
  }

  function DialOutcome(cfg: Config, own: ID, n: Net, id: ID, ip: string, verify: bool, ban: Option<bool>, d: Dialled): Outcome {
    var v := GateOutbound(cfg, n.mux, n.outbound.pending, id, ip, ban);
    if n.outbound.held >= MAX_PENDING_OUTBOUND then Busy
    else if !v.Passed? then Refused(v)
    else match d
      case NoConnection => DialFailed
      case NoHandshake(_) => HandshakeFailed
      case Shaken(_, theirs) => if verify && id != theirs then IDMismatch else Complete(own, n.mux, theirs)
  }

  /** The call got as far as `completeConnection`. */
  predicate Completed(r: Outcome) {
    r.Joined? || r.KnownID? || r.OwnID?
  }

  /**
   A dial that runs alone leaves the inbound side alone and gives its slot back; it leaves the
   pending table as it was unless it completes to another address than it dialled.
   */
  lemma DialAlone(cfg: Config, own: ID, n: Net, a: nat, id: ID, ip: string, verify: bool, ban: Option<bool>, d: Dialled)
    requires a !in n.outbound.attempts
    requires !d.NoConnection? ==> !d.remote.inbound && !Live(n.mux, d.remote)
    ensures var r, s := DialOutcome(cfg, own, n, id, ip, verify, ban, d), n.outbound;
            DialRun(cfg, own, n, a, id, ip, verify, ban, d)
            == Net(if r.Joined? then Open(n.mux, d.theirs, d.remote).0 else n.mux, n.inbound,
                s.(pending := if Completed(r) then s.pending + {ip} - {d.remote.ip} else s.pending))
  {
    var s, gate := n.outbound, Gate(false, a, id, ip, ip, ban);
    EnterAlone(cfg, n, gate);
    if s.held < MAX_PENDING_OUTBOUND && VerdictOf(cfg, n, gate).Passed? {
      var n1 := n.(outbound := Side(s.held + 1, s.pending + {ip}, s.attempts[a := Gated(ip)]));
      assert s.pending + {ip} - {ip} == s.pending && s.attempts[a := Gated(ip)] - {a} == s.attempts;
      if Completes(id, verify, d) {
        CompleteAlone(cfg, n1, false, a, d.remote.ip, d.theirs, d.remote.conn, d.theirs == own);
      } else {
        FailAlone(cfg, n1, false, a);
      }
    } else if Completes(id, verify, d) {
      AbsentIdle(cfg, n, false, a, d.remote.ip, d.theirs, d.remote.conn, d.theirs == own);
    } else {
      AbsentIdle(cfg, n, false, a, "", 0, 0, false);
    }
  }

  class Manager {
    const cfg: Config
    const peerID: ID
    const mux: Muxer
    var pendingInbound: set<string>
    var pendingOutbound: set<string>
    var inSem: nat
    var outSem: nat

    constructor (cfg: Config, peerID: ID, mux: Muxer)
      ensures this.cfg == cfg && this.peerID == peerID && this.mux == mux
      ensures pendingInbound == {} && pendingOutbound == {} && inSem == 0 && outSem == 0
    {
      this.cfg, this.peerID, this.mux := cfg, peerID, mux;
      pendingInbound, pendingOutbound, inSem, outSem := {}, {}, 0, 0;
    }

    method GateInboundPeer(addr: string, ip: string, ban: Option<bool>) returns (v: Verdict)
      modifies this`pendingInbound
      ensures v == GateInbound(cfg, mux.State(), old(pendingInbound), addr, ip, ban)
      ensures pendingInbound == old(pendingInbound) + (if v.Passed? then {addr} else {})
    {
      if ip == cfg.listenHost {
        return SelfDial;
      }
      if addr in pendingInbound {
        return AlreadyConnecting;
      }
      var inbound, _ := mux.PeerCount();
      if inbound >= cfg.maxInbound {
        return MaxPeers;
      }
      if ban == Some(true) {
        return Banned;
      }
      pendingInbound := pendingInbound + {addr};
      v := Passed;
    }

    method GateOutboundPeer(id: ID, ip: string, ban: Option<bool>) returns (v: Verdict)
      modifies this`pendingOutbound
      ensures v == GateOutbound(cfg, mux.State(), old(pendingOutbound), id, ip, ban)
      ensures pendingOutbound == old(pendingOutbound) + (if v.Passed? then {ip} else {})
    {
      if ip == cfg.listenHost {
        return SelfDial;
      }
      if ip in pendingOutbound {
        return AlreadyConnecting;
      }
      var _, outbound := mux.PeerCount();
      if outbound >= cfg.maxOutbound {
        return MaxPeers;
      }
      if id in mux.peers || ip in mux.outboundPeersByIP {
        return AlreadyConnected;
      }
      if ban == Some(true) {
        return Banned;
      }
      pendingOutbound := pendingOutbound + {ip};
      v := Passed;
    }

    method CompleteConnection(id: ID, p: Peer, addr: string) returns (r: Outcome)
      modifies this`pendingInbound, this`pendingOutbound, mux
      ensures r == Complete(peerID, old(mux.State()), id)
      ensures mux.State() == if r.Joined? then Open(old(mux.State()), id, p).0 else old(mux.State())
      ensures pendingInbound == old(pendingInbound) - (if p.inbound then {addr} else {})
      ensures pendingOutbound == old(pendingOutbound) - (if p.inbound then {} else {p.ip})
    {
      if p.inbound {
        pendingInbound := pendingInbound - {addr};
      } else {
        pendingOutbound := pendingOutbound - {p.ip};
      }
      if peerID == id {
        return OwnID;
      }
      var ok := mux.HandlePeerOpen(id, p);
      r := if ok then Joined else KnownID;
    }

    /** The manager's fields are those of the net; the calls in flight are the net's own. */
    ghost predicate Mirrors(n: Net)
      reads this, mux
    {
      && n.mux == mux.State()
      && n.inbound.held == inSem && n.inbound.pending == pendingInbound
      && n.outbound.held == outSem && n.outbound.pending == pendingOutbound
    }

    /**
     A call that runs alone does what its steps do: on every path the slot comes back and the
     pending table is as it was; the muxer changes only when the connection is accepted.
     */
    method AcceptPeer(conn: nat, addr: string, ip: string, ban: Option<bool>, handshake: Option<ID>, ghost n: Net, ghost a: nat)
      returns (r: Outcome)
      requires Mirrors(n) && a !in n.inbound.attempts && !Live(n.mux, Peer(conn, true, ip))
      modifies this, mux
      ensures r == AcceptOutcome(cfg, peerID, n, addr, ip, ban, handshake)
      ensures Mirrors(AcceptRun(cfg, peerID, n, a, conn, addr, ip, ban, handshake))
      ensures inSem == old(inSem) && pendingInbound == old(pendingInbound)
    {
      AcceptAlone(cfg, peerID, n, a, conn, addr, ip, ban, handshake);
      if inSem >= MAX_PENDING_INBOUND {
        return Busy;
      }
      inSem := inSem + 1;
      var v := GateInboundPeer(addr, ip, ban);
      if !v.Passed? {
        r := Refused(v);
      } else if handshake.None? {
        pendingInbound := pendingInbound - {addr};
        r := HandshakeFailed;
      } else {
        r := CompleteConnection(handshake.value, Peer(conn, true, ip), addr);
      }
      inSem := inSem - 1;
    }

    /**
     A dial that runs alone does what its steps do: the slot comes back, and the pending table
     is as it was, except that a dial that reaches `completeConnection` takes out the
     connection's remote address instead of the dialled one.
     */
    method DialPeer(id: ID, ip: string, verify: bool, ban: Option<bool>, d: Dialled, ghost n: Net, ghost a: nat) returns (r: Outcome)
      requires Mirrors(n) && a !in n.outbound.attempts
      requires !d.NoConnection? ==> !d.remote.inbound && !Live(n.mux, d.remote)
      modifies this, mux
      ensures r == DialOutcome(cfg, peerID, n, id, ip, verify, ban, d)
      ensures Mirrors(DialRun(cfg, peerID, n, a, id, ip, verify, ban, d))
      ensures outSem == old(outSem)
      ensures pendingOutbound == if Completed(r) then old(pendingOutbound) + {ip} - {d.remote.ip} else old(pendingOutbound)
    {
      DialAlone(cfg, peerID, n, a, id, ip, verify, ban, d);
      if outSem >= MAX_PENDING_OUTBOUND {
        return Busy;
      }
      outSem := outSem + 1;
      var v := GateOutboundPeer(id, ip, ban);
      if !v.Passed? {
        r := Refused(v);
      } else if d.NoConnection? {
        pendingOutbound := pendingOutbound - {ip};
        r := DialFailed;
      } else if d.NoHandshake? {
        pendingOutbound := pendingOutbound - {ip};
        r := HandshakeFailed;
      } else if verify && id != d.theirs {
        pendingOutbound := pendingOutbound - {ip};
        r := IDMismatch;
      } else {
        r := CompleteConnection(d.theirs, d.remote, "");
      }
      outSem := outSem - 1;
    }
  }
}
