/**
 A publishing session among everything else that happens on the node: exactly when client
 and server stay in step, and so exactly when an honest commit is accepted.
 */
module SessionRuns {
  import opened Basics
  import opened HashChain
  import BlobTx
  import opened HeaderStore
  import opened Publisher
  import opened StoreRuns

  /** The client writes a sector, or anything else happens on the node. */
  datatype Event = Mine(data: seq<Byte>, fault: BlobTx.WriteFault) | Theirs(step: Step)

  /** The client, the node, and the sector the client has just sent, if any. */
  datatype Scene = Scene(c: Writer, s: NodeState, sent: seq<Sector>)

  function PlayOne(w: World, c: Writer, s: NodeState, event: Event): Scene {
    match event
    case Mine(data, fault) =>
      var r := ClientWrite(c, s.host, data, fault);
      Scene(r.0, s.(host := r.1), if r.2 then [ToSector(data)] else [])
    case Theirs(step) => Scene(c, Next(w, s, step), [])
  }

  /** `sent` collects the sectors whose writes the server reported as done. */
  function Play(w: World, c: Writer, s: NodeState, events: seq<Event>): Scene {
    if events == [] then Scene(c, s, [])
    else
      var before := Play(w, c, s, events[..|events| - 1]);
      var after := PlayOne(w, before.c, before.s, events[|events| - 1]);
      after.(sent := before.sent + after.sent)
  }

  /** The step leaves the session as it is: it writes, commits and expires others. */
  predicate Leaves(w: World, s: NodeState, step: Step, id: nat) {
    && Known(s.host, id) && Known(Next(w, s, step).host, id)
    && SessionOf(Next(w, s, step).host, id) == SessionOf(s.host, id)
  }

  predicate Apart(w: World, c: Writer, s: NodeState, events: seq<Event>) {
    events == [] ||
    (&& Apart(w, c, s, events[..|events| - 1])
     && (events[|events| - 1].Theirs? ==>
           && WritesSucceed(events[|events| - 1].step)
           && Leaves(w, Play(w, c, s, events[..|events| - 1]).s, events[|events| - 1].step, c.txID)))
  }

  /** The session has its own copy of the blob. */
  predicate Cloned(n: Host, id: nat) {
    Known(n, id) && SessionOf(n, id).tx.initialized
  }

  /**
   The blob started with the content that was checked out when the session copied it; or
   starts with it now, if there is no copy yet.
   */
  predicate Intact(w: World, c: Writer, s: NodeState, name: string, content: seq<Sector>, events: seq<Event>) {
    if events == [] then Cloned(s.host, c.txID) || content <= BlobOf(s.host, name).sectors
    else if Cloned(Play(w, c, s, events[..|events| - 1]).s.host, c.txID) then
      Intact(w, c, s, name, content, events[..|events| - 1])
    else content <= BlobOf(Play(w, c, s, events).s.host, name).sectors
  }

  // ---------------------------------------------------------------- in step or astray

  /** Past its counters, in step or astray, with `all` sectors of which the first `stem` were checked out. */
  predicate Standing(c: Writer, n: Host, all: seq<Sector>, stem: nat, intact: bool) {
    if |all| >= 65536 then Overrun(c, n, all) else if intact then Lockstep(c, n, all) else Astray(c, n, all, stem)
  }

  lemma WriteStanding(c: Writer, n: Host, all: seq<Sector>, stem: nat, intact: bool, data: seq<Byte>, fault: BlobTx.WriteFault)
    requires Standing(c, n, all, stem, intact)
    ensures var r := ClientWrite(c, n, data, fault);
            Standing(r.0, r.1, if r.2 then all + [ToSector(data)] else all, stem, intact)
  {
    if |all| >= 65536 {
      WriteStaysOverrun(c, n, all, data, fault);
    } else if intact {
      WriteInStep(c, n, all, data, fault);
    } else {
      WriteStaysAstray(c, n, all, stem, data, fault);
    }
  }

  /** Where the session stands, which is decided once it has its copy. */
  predicate Placed(c: Writer, n: Host, id: nat, name: string, content: seq<Sector>, sent: seq<Sector>, intact: bool) {
    && c.txID == id && Known(n, id) && SessionOf(n, id).name == name
    && Standing(c, n, content + sent, |content|, intact)
    && (!Cloned(n, id) ==> sent == [] && (intact <==> content <= BlobOf(n, name).sectors))
  }

  /** A write changes its own transaction only, and one that is done has made the copy. */
  lemma WriteKeeps(c: Writer, n: Host, data: seq<Byte>, fault: BlobTx.WriteFault)
    requires Known(n, c.txID)
    ensures var r := ClientWrite(c, n, data, fault);
            && r.0.txID == c.txID && Known(r.1, c.txID) && SessionOf(r.1, c.txID).name == SessionOf(n, c.txID).name
            && r.1.blobs == n.blobs && (r.2 || Cloned(n, c.txID) ==> Cloned(r.1, c.txID))
  {
  }

  lemma PlacedAfter(c: Writer, n: Host, c': Writer, n': Host, id: nat, name: string, content: seq<Sector>, sent: seq<Sector>,
                    more: seq<Sector>, intact: bool)
    requires Placed(c, n, id, name, content, sent, intact) && c'.txID == id && Known(n', id) && SessionOf(n', id).name == name
    requires Standing(c', n', content + sent + more, |content|, intact)
    requires n'.blobs == n.blobs && (more != [] || Cloned(n, id) ==> Cloned(n', id))
    ensures Placed(c', n', id, name, content, sent + more, intact) && BlobOf(n', name) == BlobOf(n, name)
  {
    assert content + (sent + more) == content + sent + more;
  }

  lemma MinePlaced(c: Writer, n: Host, id: nat, name: string, content: seq<Sector>, sent: seq<Sector>, intact: bool,
                   data: seq<Byte>, fault: BlobTx.WriteFault)
    requires Placed(c, n, id, name, content, sent, intact)
    ensures var r := ClientWrite(c, n, data, fault);
            && Placed(r.0, r.1, id, name, content, sent + (if r.2 then [ToSector(data)] else []), intact)
            && BlobOf(r.1, name) == BlobOf(n, name)
  {
    var r := ClientWrite(c, n, data, fault);
    WriteStanding(c, n, content + sent, |content|, intact, data, fault);
    WriteKeeps(c, n, data, fault);
    assert content + sent + [] == content + sent;
    PlacedAfter(c, n, r.0, r.1, id, name, content, sent, if r.2 then [ToSector(data)] else [], intact);
  }

  lemma TheirsPlaced(c: Writer, n: Host, n': Host, id: nat, name: string, content: seq<Sector>, sent: seq<Sector>, intact: bool)
    requires Placed(c, n, id, name, content, sent, intact) && Known(n', id) && SessionOf(n', id) == SessionOf(n, id)
    requires BlobSized(n', name) && |content| <= MAX_SECTORS
    ensures Placed(c, n', id, name, content, sent, if Cloned(n, id) then intact else content <= BlobOf(n', name).sectors)
  {
    if !Cloned(n, id) {
      assert content + [] == content;
    }
  }

  /** What one event does to a session in its place. */
  lemma EventPlaced(w: World, c: Writer, s: NodeState, id: nat, name: string, content: seq<Sector>, sent: seq<Sector>,
                    intact: bool, event: Event)
    requires Shape(s) && Placed(c, s.host, id, name, content, sent, intact) && |content| <= MAX_SECTORS
    requires event.Theirs? ==> WritesSucceed(event.step) && Leaves(w, s, event.step, id)
    ensures var e := PlayOne(w, c, s, event);
            && Shape(e.s)
            && Placed(e.c, e.s.host, id, name, content, sent + e.sent,
                      if Cloned(s.host, id) then intact else content <= BlobOf(e.s.host, name).sectors)
  {
    match event
    case Mine(data, fault) =>
      MinePlaced(c, s.host, id, name, content, sent, intact, data, fault);
      WriteShape(w, s, WriteOne(id, data, fault));
    case Theirs(step) =>
      StepShape(w, s, step);
      assert BlobSized(Next(w, s, step).host, name) && sent + [] == sent;
      TheirsPlaced(c, s.host, Next(w, s, step).host, id, name, content, sent, intact);
  }

  lemma {:induction false} SessionPlaced(w: World, c: Writer, s: NodeState, name: string, content: seq<Sector>, events: seq<Event>)
    requires Shape(s) && Lockstep(c, s.host, content) && SessionOf(s.host, c.txID).name == name
    requires |content| <= MAX_SECTORS && Apart(w, c, s, events)
    ensures var e := Play(w, c, s, events);
            Shape(e.s) && Placed(e.c, e.s.host, c.txID, name, content, e.sent, Intact(w, c, s, name, content, events))
    decreases |events|
  {
    if events == [] {
      assert content + [] == content;
    } else {
      var front := events[..|events| - 1];
      SessionPlaced(w, c, s, name, content, front);
      var e := Play(w, c, s, front);
      EventPlaced(w, e.c, e.s, c.txID, name, content, e.sent, Intact(w, c, s, name, content, front), events[|events| - 1]);
    }
  }

  /** The name is locked by another commit, or has readers. */
  predicate Busy(s: NodeState, name: string, readers: bool) {
    Locked(s, name) || readers
  }

  /**
   Whatever else the node does between the client's calls, client and server end in step
   exactly when the blob still started with the checked-out content at the moment the
   session copied it, and the sectors number fewer than 65536. Then, and only then, an honest
   commit is accepted, provided that it fits a blob and finds its name free.
   */
  lemma HonestSession(w: World, c: Writer, s: NodeState, name: string, content: seq<Sector>, events: seq<Event>,
                      sig: Signature, now: Time, readers: bool)
    requires Shape(s) && Lockstep(c, s.host, content) && SessionOf(s.host, c.txID).name == name
    requires |content| <= MAX_SECTORS && Apart(w, c, s, events)
    requires var e := Play(w, c, s, events);
             name in e.s.host.db.keys && w.verify(e.s.host.db.keys[name], sig, Seal(name, e.c.epoch, e.c.size, e.c.tip, Zero))
    ensures var e := Play(w, c, s, events);
            var intact := Intact(w, c, s, name, content, events);
            && (Lockstep(e.c, e.s.host, content + e.sent) <==> intact && |content| + |e.sent| < 65536)
            && (OnCommit(w, e.s.host, HonestReq(e.c, sig), now, AllPut, Busy(e.s, name, readers)).1
                <==> intact && |content| + |e.sent| <= MAX_SECTORS && !Busy(e.s, name, readers))
  {
    SessionPlaced(w, c, s, name, content, events);
    var e := Play(w, c, s, events);
    var busy := Busy(e.s, name, readers);
    assert BlobSized(e.s.host, name);
    if |content| + |e.sent| >= 65536 {
      OverrunRefused(w, e.c, e.s.host, content + e.sent, sig, now, busy);
    } else if Intact(w, c, s, name, content, events) {
      HonestCommit(w, e.c, e.s.host, content + e.sent, sig, now, busy);
    } else {
      AstrayRefused(w, e.c, e.s.host, content + e.sent, |content|, sig, now, busy);
    }
  }

  // ---------------------------------------------------------------- the steps of a commit

  /** With nothing in between, the three steps of a commit do what the commit does, and leave no commit behind. */
  lemma CommitInSteps(w: World, s: NodeState, req: CommitReq, now: Time, readers: bool)
    requires Shape(s) && Known(s.host, req.txID)
    ensures var s' := Next(w, Next(w, Next(w, s, CheckOne(req)), PutOne(s.calls, now, readers)), PublishOne(s.calls));
            && s'.host == OnCommit(w, s.host, req, now, AllPut, Busy(s, SessionOf(s.host, req.txID).name, readers)).0
            && s'.flights == s.flights
  {
    var a := s.host.txStore[req.txID];
    var name := s.host.txs[a].name;
    assert FlightSound(s, s.calls);
    var s1 := Next(w, s, CheckOne(req));
    if CheckAt(w, s.host, a, req).1.Some? {
      assert Locked(s1, name) <==> Locked(s, name) by {
        forall call: nat
          ensures Holds(s1, call, name) <==> Holds(s, call, name)
        {
        }
      }
      if Busy(s, name, readers) {
        assert Next(w, s1, PutOne(s.calls, now, readers)).flights == s.flights;
      } else {
        var s2 := Next(w, s1, PutOne(s.calls, now, readers));
        assert s2.flights - {s.calls} == s.flights;
      }
    }
  }

  // ---------------------------------------------------------------- starting over

  lemma {:induction false} PlayKeepsEpoch(w: World, c: Writer, s: NodeState, events: seq<Event>)
    ensures var e := Play(w, c, s, events); e.c.txID == c.txID && e.c.epoch == c.epoch
    decreases |events|
  {
    if events != [] {
      PlayKeepsEpoch(w, c, s, events[..|events| - 1]);
    }
  }

  /** The epoch a session that starts over writes under. */
  function EpochAfter(db: Db, name: string, cur: U16): U16 {
    AddU16(if name in db.headers then db.headers[name].epoch else cur, 1)
  }

  predicate Unmoved(db: Db, db': Db, name: string) {
    name in db.headers && name in db'.headers && db'.headers[name] == db.headers[name]
  }

  /**
   A session that starts the blob over, whatever else happens on the node until it commits:
   an accepted commit stores the epoch after the one that was checked out, which is strictly
   higher than that of a header that has not moved since, unless the epochs are used up.
   */
  lemma StartingOverMovesOn(w: World, s: NodeState, name: string, cur: U16, events: seq<Event>, sig: Signature, now: Time, busy: bool)
    requires OnCheckout(s.host, name, true, cur).1.Some?
    requires var c, s1 := OpenWriter(OnCheckout(s.host, name, true, cur).1.value), Next(w, s, CheckOut(name, true, cur));
             var e := Play(w, c, s1, events);
             && Known(e.s.host, c.txID) && SessionOf(e.s.host, c.txID).name == name
             && OnCommit(w, e.s.host, HonestReq(e.c, sig), now, AllPut, busy).1
    ensures var c, s1 := OpenWriter(OnCheckout(s.host, name, true, cur).1.value), Next(w, s, CheckOut(name, true, cur));
            var e := Play(w, c, s1, events);
            var db' := OnCommit(w, e.s.host, HonestReq(e.c, sig), now, AllPut, busy).0.db;
            && name in db'.headers && db'.headers[name].epoch == EpochAfter(s.host.db, name, cur)
            && (Unmoved(s.host.db, e.s.host.db, name) && s.host.db.headers[name].epoch < 65535 ==>
                  db'.headers[name].epoch > e.s.host.db.headers[name].epoch)
  {
    var c, s1 := OpenWriter(OnCheckout(s.host, name, true, cur).1.value), Next(w, s, CheckOut(name, true, cur));
    PlayKeepsEpoch(w, c, s1, events);
    var e := Play(w, c, s1, events);
    StoredEpoch(w, e.s.host, HonestReq(e.c, sig), now, busy);
  }

  /** An accepted commit stores the request's epoch, size, tip and signature under its session's name. */
  lemma StoredEpoch(w: World, n: Host, req: CommitReq, now: Time, busy: bool)
    requires OnCommit(w, n, req, now, AllPut, busy).1
    ensures Known(n, req.txID)
    ensures var name := SessionOf(n, req.txID).name;
            OnCommit(w, n, req, now, AllPut, busy).0.db.headers
            == n.db.headers[name := Header(name, req.epoch, req.size, req.tip, req.sig, Zero, now)]
  {
  }
}
