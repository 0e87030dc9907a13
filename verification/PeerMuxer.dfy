/** The muxer's peer table and the indexes and counters kept beside it. */
module PeerMuxer {
  import opened Basics

  type ID = nat

  /** A connection; `conn` stands for its address, so distinct connections are distinct values. */
  datatype Peer = Peer(conn: nat, inbound: bool, ip: string)

  datatype Mux = Mux(
    peers: map<ID, Peer>,
    inByIP: map<string, seq<Peer>>,
    outByIP: map<string, Peer>,
    inCount: int,
    outCount: int)

  const EMPTY: Mux := Mux(map[], map[], map[], 0, 0)

  function InList(m: Mux, ip: string): seq<Peer> {
    if ip in m.inByIP then m.inByIP[ip] else []
  }

  /** The list without the first occurrence of `p`. */
  function Without(s: seq<Peer>, p: Peer): seq<Peer> {
    if s == [] then [] else if s[0] == p then s[1..] else [s[0]] + Without(s[1..], p)
  }

  /** `handlePeerOpen` */
  function Open(m: Mux, id: ID, p: Peer): (Mux, bool) {
    if id in m.peers then (m, false)
    else
      var m1 := m.(peers := m.peers[id := p]);
      (if p.inbound then m1.(inCount := m.inCount + 1, inByIP := m.inByIP[p.ip := InList(m, p.ip) + [p]])
       else m1.(outCount := m.outCount + 1, outByIP := m.outByIP[p.ip := p]),
       true)
  }

  /** `handlePeerClose` */
  function Close(m: Mux, id: ID): Mux {
    if id !in m.peers then m
    else
      var p := m.peers[id];
      var m1 := m.(peers := m.peers - {id});
      if p.inbound then
        m1.(inCount := m.inCount - 1,
            inByIP := if p.ip in m.inByIP then m.inByIP[p.ip := Without(m.inByIP[p.ip], p)] else m.inByIP)
      else m1.(outCount := m.outCount - 1, outByIP := m.outByIP - {p.ip})
  }

  // ---------------------------------------------------------------- removal in place

  lemma {:induction false} WithoutAt(s: seq<Peer>, k: nat)
    requires k < |s| && NoDups(s)
    ensures Without(s, s[k]) == s[..k] + s[k + 1..]
    decreases |s|
  {
    if k == 0 {
      assert s[..0] + s[1..] == s[1..];
    } else {
      assert s[0] != s[k] && s[1..][k - 1] == s[k];
      WithoutAt(s[1..], k - 1);
      assert [s[0]] + (s[1..][..k - 1] + s[1..][k..]) == s[..k] + s[k + 1..];
    }
  }

  lemma {:induction false} WithoutAbsent(s: seq<Peer>, p: Peer)
    requires p !in s
    ensures Without(s, p) == s
    decreases |s|
  {
    if s != [] {
      WithoutAbsent(s[1..], p);
      assert s == [s[0]] + s[1..];
    }
  }

  /** The copy behind `append(s[:i], s[i+1:]...)`: the tail moves down one cell, the last cell keeps its value. */
  method ShiftDown(a: array<Peer>, i: nat, len: nat)
    requires i < len <= a.Length
    modifies a
    ensures forall j :: 0 <= j < i ==> a[j] == old(a[j])
    ensures forall j :: i + 1 <= j < len ==> a[j - 1] == old(a[j])
    ensures forall j :: len - 1 <= j < a.Length ==> a[j] == old(a[j])
  {
    forall j | i <= j < len - 1 {
      a[j] := a[j + 1];
    }
  }

  /** The first `n` cells after element `k` of `was` has been shifted out of them. */
  predicate Shifted(now: seq<Peer>, was: seq<Peer>, k: nat) {
    && k < |was| == |now|
    && (forall j :: 0 <= j < k ==> now[j] == was[j])
    && (forall j :: k + 1 <= j < |was| ==> now[j - 1] == was[j])
    && now[|was| - 1] == was[|was| - 1]
  }

  lemma ShiftedGone(now: seq<Peer>, was: seq<Peer>, k: nat, i: nat)
    requires Shifted(now, was, k) && NoDups(was) && k < i < |was|
    ensures now[i] != was[k]
  {
    if i < |was| - 1 {
      assert now[i + 1 - 1] == was[i + 1];
    }
  }

  lemma ShiftedAt(now: seq<Peer>, was: seq<Peer>, k: nat, j: nat)
    requires Shifted(now, was, k) && j < |was| - 1
    ensures now[j] == if j < k then was[j] else was[j + 1]
  {
    if j >= k {
      assert now[j + 1 - 1] == was[j + 1];
    }
  }

  lemma ShiftedIsWithout(now: seq<Peer>, was: seq<Peer>, k: nat)
    requires Shifted(now, was, k) && NoDups(was)
    ensures now[..|was| - 1] == Without(was, was[k])
  {
    var due := was[..k] + was[k + 1..];
    WithoutAt(was, k);
    forall j | 0 <= j < |was| - 1
      ensures now[j] == due[j]
    {
      ShiftedAt(now, was, k, j);
    }
    assert now[..|was| - 1] == due;
  }

  /**
   `removeInboundPeerByIP`: the loop ranges over the slice it is shifting and keeps going
   after the match. On a list without duplicates it still removes exactly the one element.
   */
  method RemoveInPlace(a: array<Peer>, n: nat, p: Peer) returns (len: nat)
    requires n <= a.Length && NoDups(a[..n])
    modifies a
    ensures len <= n && a[..len] == Without(old(a[..n]), p)
  {
    ghost var was := a[..n];
    ghost var k := n;
    len := n;
    var i := 0;
    while i < n
      invariant 0 <= i <= n && k <= n
      invariant k == n ==> len == n && a[..n] == was && p !in was[..i]
      invariant k < n ==> k < i && was[k] == p && len == n - 1 && Shifted(a[..n], was, k)
    {
      assert a[..n][i] == a[i];
      if k < n {
        ShiftedGone(a[..n], was, k, i);
      }
      if a[i] == p {
        k := i;
        ShiftDown(a, i, len);
        assert Shifted(a[..n], was, k);
        len := len - 1;
      }
      i := i + 1;
    }
    if k < n {
      ShiftedIsWithout(a[..n], was, k);
      assert a[..n][..n - 1] == a[..len];
    } else {
      assert was[..n] == was;
      WithoutAbsent(was, p);
    }
  }

  // ---------------------------------------------------------------- the indexes agree

  function IDs(peers: map<ID, Peer>, inbound: bool): set<ID> {
    set id | id in peers && peers[id].inbound == inbound
  }

  predicate Live(m: Mux, p: Peer) {
    exists id :: id in m.peers && m.peers[id] == p
  }

  /** The list of an address holds its live inbound connections, each once. */
  ghost predicate ListExact(m: Mux, ip: string) {
    NoDups(InList(m, ip)) && forall p :: p in InList(m, ip) <==> Live(m, p) && p.inbound && p.ip == ip
  }

  predicate OutLive(m: Mux, ip: string) {
    ip in m.outByIP ==> var p := m.outByIP[ip]; Live(m, p) && !p.inbound && p.ip == ip
  }

  /** No connection is registered under two identities. */
  predicate Single(m: Mux, a: ID, b: ID) {
    a in m.peers && b in m.peers && m.peers[a] == m.peers[b] ==> a == b
  }

  ghost predicate Inv(m: Mux) {
    && m.inCount == |IDs(m.peers, true)| && m.outCount == |IDs(m.peers, false)|
    && (forall ip :: ListExact(m, ip))
    && (forall ip :: OutLive(m, ip))
    && (forall a, b :: Single(m, a, b))
  }

  lemma LiveAfterOpen(m: Mux, id: ID, p: Peer, q: Peer)
    requires id !in m.peers
    ensures Live(Open(m, id, p).0, q) <==> Live(m, q) || q == p
  {
    var m' := Open(m, id, p).0;
    if Live(m, q) {
      var x :| x in m.peers && m.peers[x] == q;
      assert x in m'.peers && m'.peers[x] == q;
    }
    if q == p {
      assert id in m'.peers && m'.peers[id] == q;
    }
    if Live(m', q) {
      var x :| x in m'.peers && m'.peers[x] == q;
      assert x != id ==> x in m.peers && m.peers[x] == q;
    }
  }

  lemma OpenCounts(peers: map<ID, Peer>, id: ID, p: Peer)
    requires id !in peers
    ensures |IDs(peers[id := p], p.inbound)| == |IDs(peers, p.inbound)| + 1
    ensures IDs(peers[id := p], !p.inbound) == IDs(peers, !p.inbound)
  {
    assert IDs(peers[id := p], p.inbound) == IDs(peers, p.inbound) + {id};
  }

  lemma ListAfterOpen(m: Mux, id: ID, p: Peer, ip: string)
    requires ListExact(m, ip) && id !in m.peers && !Live(m, p)
    ensures ListExact(Open(m, id, p).0, ip)
  {
    var m' := Open(m, id, p).0;
    forall q: Peer
      ensures q in InList(m', ip) <==> Live(m', q) && q.inbound && q.ip == ip
    {
      LiveAfterOpen(m, id, p, q);
      assert q in InList(m, ip) <==> Live(m, q) && q.inbound && q.ip == ip;
    }
    assert p !in InList(m, ip);
  }

  /** A new connection, under an identity already present or not, keeps the indexes exact. */
  lemma OpenKeeps(m: Mux, id: ID, p: Peer)
    requires Inv(m) && !Live(m, p)
    ensures Inv(Open(m, id, p).0)
  {
    var m' := Open(m, id, p).0;
    if id !in m.peers {
      OpenCounts(m.peers, id, p);
      forall ip: string
        ensures ListExact(m', ip) && OutLive(m', ip)
      {
        assert ListExact(m, ip) && OutLive(m, ip);
        ListAfterOpen(m, id, p, ip);
        if ip in m'.outByIP {
          LiveAfterOpen(m, id, p, m'.outByIP[ip]);
        }
      }
      forall a: ID, b: ID
        ensures Single(m', a, b)
      {
        assert Single(m, a, b);
        assert a in m.peers ==> Live(m, m.peers[a]);
        assert b in m.peers ==> Live(m, m.peers[b]);
      }
    }
  }

  lemma LiveAfterClose(m: Mux, id: ID, q: Peer)
    requires Inv(m) && id in m.peers
    ensures Live(Close(m, id), q) <==> Live(m, q) && q != m.peers[id]
  {
    var m' := Close(m, id);
    if Live(m', q) {
      var x :| x in m'.peers && m'.peers[x] == q;
      assert x in m.peers && m.peers[x] == q && x != id;
      assert Single(m, x, id);
    }
    if Live(m, q) && q != m.peers[id] {
      var x :| x in m.peers && m.peers[x] == q;
      assert x in m'.peers && m'.peers[x] == q;
    }
  }

  lemma CloseCounts(peers: map<ID, Peer>, id: ID)
    requires id in peers
    ensures |IDs(peers - {id}, peers[id].inbound)| == |IDs(peers, peers[id].inbound)| - 1
    ensures IDs(peers - {id}, !peers[id].inbound) == IDs(peers, !peers[id].inbound)
  {
    assert IDs(peers, peers[id].inbound) == IDs(peers - {id}, peers[id].inbound) + {id};
  }

  lemma {:induction false} WithoutMember(s: seq<Peer>, p: Peer, q: Peer)
    requires NoDups(s)
    ensures q in Without(s, p) <==> q in s && q != p
    decreases |s|
  {
    if s != [] && s[0] != p {
      WithoutMember(s[1..], p, q);
      assert q in s <==> q == s[0] || q in s[1..];
    } else if s != [] {
      assert q in s <==> q == s[0] || q in s[1..];
      assert s[0] !in s[1..];
    }
  }

  lemma {:induction false} WithoutNoDups(s: seq<Peer>, p: Peer)
    requires NoDups(s)
    ensures NoDups(Without(s, p))
    decreases |s|
  {
    if s != [] && s[0] != p {
      WithoutNoDups(s[1..], p);
      WithoutMember(s[1..], p, s[0]);
      assert s[0] !in s[1..];
    }
  }

  lemma ListAfterClose(m: Mux, id: ID, ip: string)
    requires Inv(m) && id in m.peers
    ensures ListExact(Close(m, id), ip)
  {
    var m', p := Close(m, id), m.peers[id];
    assert ListExact(m, ip);
    assert Live(m, p);
    forall q: Peer
      ensures q in InList(m', ip) <==> Live(m', q) && q.inbound && q.ip == ip
    {
      LiveAfterClose(m, id, q);
      assert q in InList(m, ip) <==> Live(m, q) && q.inbound && q.ip == ip;
      WithoutMember(InList(m, ip), p, q);
    }
    WithoutNoDups(InList(m, ip), p);
  }

  lemma CloseKeeps(m: Mux, id: ID)
    requires Inv(m)
    ensures Inv(Close(m, id))
  {
    if id in m.peers {
      var m' := Close(m, id);
      CloseCounts(m.peers, id);
      forall ip: string
        ensures ListExact(m', ip) && OutLive(m', ip)
      {
        ListAfterClose(m, id, ip);
        assert OutLive(m, ip);
        if ip in m'.outByIP {
          LiveAfterClose(m, id, m'.outByIP[ip]);
        }
      }
      forall a: ID, b: ID
        ensures Single(m', a, b)
      {
        assert Single(m, a, b);
      }
    }
  }

  // ---------------------------------------------------------------- runs

  datatype Step = Opens(id: ID, peer: Peer) | Closes(id: ID)

  /** Each connection object is handed to the muxer once, before it is live. */
  function Next(m: Mux, step: Step): Mux {
    match step
    case Opens(id, p) => if (exists x :: x in m.peers && m.peers[x] == p) then m else Open(m, id, p).0
    case Closes(id) => Close(m, id)
  }

  lemma NextKeeps(m: Mux, step: Step)
    requires Inv(m)
    ensures Inv(Next(m, step))
  {
    match step
    case Opens(id, p) =>
      if !Live(m, p) {
        OpenKeeps(m, id, p);
      }
    case Closes(id) => CloseKeeps(m, id);
  }

  function Run(steps: seq<Step>): Mux {
    if steps == [] then EMPTY else Next(Run(steps[..|steps| - 1]), steps[|steps| - 1])
  }

  /**
   In every reachable state the counters count the peers of each direction, the inbound
   lists partition the live inbound connections by address, and every outbound entry is a
   live outbound connection of its address.
   */
  lemma {:induction false} IndexesAgree(steps: seq<Step>)
    ensures Inv(Run(steps))
    decreases |steps|
  {
    if steps == [] {
    } else {
      IndexesAgree(steps[..|steps| - 1]);
      NextKeeps(Run(steps[..|steps| - 1]), steps[|steps| - 1]);
    }
  }

  /** Every live outbound connection can be found by its address. */
  ghost predicate OutComplete(m: Mux) {
    forall id :: id in m.peers && !m.peers[id].inbound ==>
      m.peers[id].ip in m.outByIP && m.outByIP[m.peers[id].ip] == m.peers[id]
  }

  /** Opening keeps that exactly when the address of a new outbound connection had no entry yet. */
  lemma OpenKeepsComplete(m: Mux, id: ID, p: Peer)
    requires Inv(m) && OutComplete(m) && !Live(m, p) && id !in m.peers
    ensures OutComplete(Open(m, id, p).0) <==> (p.inbound || p.ip !in m.outByIP)
  {
    var m' := Open(m, id, p).0;
    if !p.inbound && p.ip in m.outByIP {
      assert OutLive(m, p.ip);
      var q := m.outByIP[p.ip];
      var x :| x in m.peers && m.peers[x] == q;
      assert x in m'.peers && m'.peers[x] == q && q != p;
    } else {
      forall x | x in m'.peers && !m'.peers[x].inbound
        ensures m'.peers[x].ip in m'.outByIP && m'.outByIP[m'.peers[x].ip] == m'.peers[x]
      {
        assert x != id ==> x in m.peers && m.peers[x] == m'.peers[x];
      }
    }
  }

  lemma CloseKeepsComplete(m: Mux, id: ID)
    requires Inv(m) && OutComplete(m)
    ensures OutComplete(Close(m, id))
  {
    var m' := Close(m, id);
    forall x | x in m'.peers && !m'.peers[x].inbound
      ensures m'.peers[x].ip in m'.outByIP && m'.outByIP[m'.peers[x].ip] == m'.peers[x]
    {
      assert x in m.peers && m.peers[x] == m'.peers[x];
      if id in m.peers {
        assert Single(m, x, id);
      }
    }
  }

  /** The step puts a second outbound connection on an address that has an entry. */
  predicate Overwrites(m: Mux, step: Step) {
    && step.Opens? && !step.peer.inbound && step.id !in m.peers && step.peer.ip in m.outByIP
    && !exists x :: x in m.peers && m.peers[x] == step.peer
  }

  predicate NeverOverwrites(steps: seq<Step>) {
    steps == [] ||
    (NeverOverwrites(steps[..|steps| - 1]) && !Overwrites(Run(steps[..|steps| - 1]), steps[|steps| - 1]))
  }

  /** Every state the run goes through is complete. */
  ghost predicate AlwaysComplete(steps: seq<Step>) {
    OutComplete(Run(steps)) && (steps == [] || AlwaysComplete(steps[..|steps| - 1]))
  }

  /**
   Looking an outbound connection up by address works all through a run if and only if no
   second outbound connection is ever opened to an address that has one.
   */
  lemma {:induction false} OutboundFoundUnlessOverwritten(steps: seq<Step>)
    ensures AlwaysComplete(steps) <==> NeverOverwrites(steps)
    decreases |steps|
  {
    if steps != [] {
      var before := steps[..|steps| - 1];
      OutboundFoundUnlessOverwritten(before);
      IndexesAgree(before);
      var m := Run(before);
      if AlwaysComplete(before) {
        match steps[|steps| - 1]
        case Opens(id, p) =>
          if !Live(m, p) && id !in m.peers {
            OpenKeepsComplete(m, id, p);
          }
        case Closes(id) => CloseKeepsComplete(m, id);
      }
    }
  }

  /** Two connections to one address, the first one closed: the second is live and cannot be found. */
  lemma SecondOutboundLost()
    ensures var p, q := Peer(1, false, "10.0.0.1"), Peer(2, false, "10.0.0.1");
            var m := Run([Opens(1, p), Opens(2, q), Closes(1)]);
            2 in m.peers && m.peers[2] == q && q.ip !in m.outByIP
  {
    var p, q := Peer(1, false, "10.0.0.1"), Peer(2, false, "10.0.0.1");
    var steps := [Opens(1, p), Opens(2, q), Closes(1)];
    assert steps[..2][..1][..0] == [];
    assert Run(steps[..2][..1]) == Next(EMPTY, Opens(1, p)) == Open(EMPTY, 1, p).0;
    assert Run(steps[..2]) == Next(Run(steps[..2][..1]), Opens(2, q)) == Open(Run(steps[..2][..1]), 2, q).0;
    assert Run(steps) == Close(Run(steps[..2]), 1);
  }

  // ---------------------------------------------------------------- the object

  class Muxer {
    var peers: map<ID, Peer>
    var inboundPeersByIP: map<string, seq<Peer>>
    var outboundPeersByIP: map<string, Peer>
    var inboundCount: int
    var outboundCount: int

    ghost function State(): Mux
      reads this
    {
      Mux(peers, inboundPeersByIP, outboundPeersByIP, inboundCount, outboundCount)
    }

    constructor ()
      ensures State() == EMPTY
    {
      peers, inboundPeersByIP, outboundPeersByIP, inboundCount, outboundCount := map[], map[], map[], 0, 0;
    }

    method PeerCount() returns (inbound: int, outbound: int)
      ensures inbound == State().inCount && outbound == State().outCount
    {
      inbound, outbound := inboundCount, outboundCount;
    }

    method HandlePeerOpen(id: ID, p: Peer) returns (ok: bool)
      modifies this
      ensures (State(), ok) == Open(old(State()), id, p)
      ensures old(Inv(State()) && !Live(State(), p)) ==> Inv(State())
    {
      if Inv(State()) && !Live(State(), p) {
        OpenKeeps(State(), id, p);
      }
      if id in peers {
        return false;
      }
      if p.inbound {
        inboundCount := inboundCount + 1;
        var list := if p.ip in inboundPeersByIP then inboundPeersByIP[p.ip] else [];
        inboundPeersByIP := inboundPeersByIP[p.ip := list + [p]];
      } else {
        outboundCount := outboundCount + 1;
        outboundPeersByIP := outboundPeersByIP[p.ip := p];
      }
      peers := peers[id := p];
      ok := true;
    }

    method HandlePeerClose(id: ID)
      requires Inv(State())
      modifies this
      ensures State() == Close(old(State()), id) && Inv(State())
    {
      CloseKeeps(State(), id);
      if id !in peers {
        return;
      }
      var p := peers[id];
      if p.inbound {
        inboundCount := inboundCount - 1;
        if p.ip in inboundPeersByIP {
          var list := inboundPeersByIP[p.ip];
          assert ListExact(old(State()), p.ip);
          var slice := new Peer[|list|](i requires 0 <= i < |list| => list[i]);
          assert slice[..] == list && slice[..|list|] == list;
          var len := RemoveInPlace(slice, |list|, p);
          inboundPeersByIP := inboundPeersByIP[p.ip := slice[..len]];
        }
      } else {
        outboundCount := outboundCount - 1;
        outboundPeersByIP := outboundPeersByIP - {p.ip};
      }
      peers := peers - {id};
    }
  }
}
