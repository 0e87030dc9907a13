/** Replica convergence: a response from a consistent server makes the client's copy equal to it. */
module Convergence {
  import opened Basics
  import opened HashChain
  import opened BlobTx
  import opened BlobHash
  import opened HeaderStore
  import opened Syncer
  import opened SectorServer
  import opened Updater
  import opened StoredContent
  import Epoch

  // ---------------------------------------------------------------- an accepted response is stored

  lemma {:induction false} HandleAllConcat(
    w: World, opts: SyncOpts, base: File, now: Time, s: SyncState, a: seq<Delivery>, b: seq<Delivery>)
    ensures HandleAll(w, opts, base, now, s, a + b)
         == HandleAll(w, opts, base, now, HandleAll(w, opts, base, now, s, a), b)
    decreases |b|
  {
    if b == [] {
      assert a + b == a;
    } else {
      assert (a + b)[..|a + b| - 1] == a + b[..|b| - 1];
      HandleAllConcat(w, opts, base, now, s, a, b[..|b| - 1]);
    }
  }

  predicate AllSkipped(opts: SyncOpts, ds: seq<Delivery>) {
    forall i :: 0 <= i < |ds| ==> Skipped(opts, {}, ds[i].msg)
  }

  lemma {:induction false} SkippedLeaveNothing(w: World, opts: SyncOpts, base: File, now: Time, s: SyncState, ds: seq<Delivery>)
    requires s.received == {} && AllSkipped(opts, ds)
    ensures HandleAll(w, opts, base, now, s, ds) == s
    decreases |ds|
  {
    if ds != [] {
      SkippedLeaveNothing(w, opts, base, now, s, ds[..|ds| - 1]);
      assert Skipped(opts, {}, ds[|ds| - 1].msg);
    }
  }

  lemma {:induction false} WrittenStays(
    w: World, opts: SyncOpts, base: File, now: Time, s0: SyncState, s: SyncState, d: Delivery, ds: seq<Delivery>)
    requires WroteOne(w, opts, base, s0, s, d)
    ensures var s' := HandleAll(w, opts, base, now, s, ds);
            WroteOne(w, opts, base, s0, s', d) && s.events <= s'.events
    decreases |ds|
  {
    if ds != [] {
      var m := |ds| - 1;
      WrittenStays(w, opts, base, now, s0, s, d, ds[..m]);
      HandleWritten(w, opts, base, now, s0, HandleAll(w, opts, base, now, s, ds[..m]), d, ds[m]);
    }
  }

  /** The first acceptable response wins, whatever is skipped before it and whatever follows. */
  lemma FirstAcceptedWins(
    w: World, opts: SyncOpts, base: File, now: Time, tx: Tx, db: Db, pre: seq<Delivery>, d: Delivery, post: seq<Delivery>)
    requires AllSkipped(opts, pre) && Accepted(w, opts, db, d.msg)
    ensures var s := HandleAll(w, opts, base, now, Start(tx, db), pre + [d] + post);
            && s.tx == WriteAll(tx, base, d.msg.payload, d.faults)
            && SameRecords(s.db, db)
            && Picked(s.events, 0) == Synced(UpdateOf(d.msg))
  {
    var s0 := Start(tx, db);
    HandleAllConcat(w, opts, base, now, s0, pre + [d], post);
    HandleAllConcat(w, opts, base, now, s0, pre, [d]);
    SkippedLeaveNothing(w, opts, base, now, s0, pre);
    var s1 := Handle(w, opts, base, now, s0, d);
    assert HandleAll(w, opts, base, now, s0, [d]) == s1 by {
      assert [d][..0] == [];
    }
    HandleWaiting(w, opts, base, now, s0, s0, d);
    WrittenStays(w, opts, base, now, s0, s1, d, post);
  }

  /**
   The first response that is not passed over decides what a caller that takes the first
   event gets: an error for a bad signature, an error for a wrong previous hash, or the
   update. Only a conflict about a name without a header goes by in silence.
   */
  lemma FirstDecides(
    w: World, opts: SyncOpts, base: File, now: Time, tx: Tx, db: Db, pre: seq<Delivery>, d: Delivery, post: seq<Delivery>)
    requires AllSkipped(opts, pre) && !Skipped(opts, {}, d.msg)
    requires d.msg.prevHash == opts.prevHash || d.msg.epoch > opts.epoch || opts.name in db.headers || opts.name in db.proofs
    ensures var r := Picked(HandleAll(w, opts, base, now, Start(tx, db), pre + [d] + post).events, 0);
            r == if !ValidUpdate(w, db, ResSeal(d.msg), d.msg.sig) then SyncFailed(InvalidSignature)
                 else if d.msg.prevHash != opts.prevHash then SyncFailed(PayloadEquivocation)
                 else Synced(UpdateOf(d.msg))
  {
    var s0 := Start(tx, db);
    HandleAllConcat(w, opts, base, now, s0, pre + [d], post);
    HandleAllConcat(w, opts, base, now, s0, pre, [d]);
    SkippedLeaveNothing(w, opts, base, now, s0, pre);
    var s1 := Handle(w, opts, base, now, s0, d);
    assert HandleAll(w, opts, base, now, s0, [d]) == s1 by {
      assert [d][..0] == [];
    }
    EventsKept(w, opts, base, now, s1, post);
  }

  /** The one conflict that goes by in silence: nothing is recorded and the caller hears nothing. */
  lemma UnknownConflictSilent(w: World, opts: SyncOpts, base: File, now: Time, s: SyncState, d: Delivery)
    requires d.msg.prevHash != opts.prevHash && d.msg.epoch == opts.epoch
    requires opts.name !in s.db.headers && opts.name !in s.db.proofs
    requires d.msg.name == opts.name ==> ValidUpdate(w, s.db, ResSeal(d.msg), d.msg.sig)
    ensures Handle(w, opts, base, now, s, d) == s
  {
  }

  /** An update whose first response is bad fails with that error and stores nothing. */
  lemma BadResponseAborts(
    w: World, db: Db, base: File, item: Item, env: Env, pre: seq<Delivery>, d: Delivery, post: seq<Delivery>)
    requires Admits(w, db, item, env.now) && (item.name in db.headers ==> db.headers[item.name].size <= MAX_SECTORS)
    requires env.pick == 0 && env.ds == pre + [d] + post
    requires AllSkipped(Wanted(db, item), pre) && !Skipped(Wanted(db, item), {}, d.msg)
    requires !Accepted(w, Wanted(db, item), db, d.msg) && (item.name in db.headers || item.name in db.proofs)
    ensures var a := Update(w, db, base, item, env);
            && a.out == SyncAborted(if ValidUpdate(w, db, ResSeal(d.msg), d.msg.sig) then PayloadEquivocation else InvalidSignature)
            && a.base == base && a.db.headers == db.headers && a.db.tables == db.tables
  {
    var opts, reset := Wanted(db, item), StartsOver(db, item);
    GateExact(w, db, item, env.now);
    assert Prepared(opts, reset).out == Done;
    FirstDecides(w, opts, base, env.now, Prepared(opts, reset).tx, db, pre, d, post);
    var k := OnePayload(w, opts, base, env.now, Start(Prepared(opts, reset).tx, db), env.ds);
  }

  /** An update to which nobody answers, over a copy that re-hashes, ends in the nil result of the time-out. */
  lemma SilenceCrashes(w: World, db: Db, base: File, item: Item, env: Env)
    requires Admits(w, db, item, env.now) && Sized(base.sectors) && (item.name in db.headers ==> db.headers[item.name].size <= MAX_SECTORS)
    requires AllSkipped(Wanted(db, item), env.ds) && env.readFaults == NO_FAULTS
    ensures Update(w, db, base, item, env) == After(db, base, if item.size <= MAX_SECTORS then Crashed else HashError)
  {
    var opts, reset := Wanted(db, item), StartsOver(db, item);
    GateExact(w, db, item, env.now);
    assert Prepared(opts, reset).out == Done;
    SkippedLeaveNothing(w, opts, base, env.now, Start(Prepared(opts, reset).tx, db), env.ds);
    PreparedView(opts, reset, base);
  }

  lemma {:induction false} EventsKept(w: World, opts: SyncOpts, base: File, now: Time, s: SyncState, ds: seq<Delivery>)
    ensures s.events <= HandleAll(w, opts, base, now, s, ds).events
    decreases |ds|
  {
    if ds != [] {
      EventsKept(w, opts, base, now, s, ds[..|ds| - 1]);
    }
  }

  /** No storage fault of any kind, and the caller takes the first event. */
  predicate Calm(env: Env) {
    env.pick == 0 && env.readFaults == NO_FAULTS && env.putFault == AllPut
  }

  /** Writing the payload without faults leaves prefix plus payload in view. */
  lemma WrittenView(opts: SyncOpts, reset: bool, base: File, prefix: seq<Sector>, payload: seq<Sector>)
    requires Sized(base.sectors) && opts.size == |prefix| && |prefix| + |payload| <= MAX_SECTORS
    requires if reset then prefix == [] else prefix <= base.sectors
    ensures Prepared(opts, reset).out == Done
    ensures var t := WriteAll(Prepared(opts, reset).tx, base, payload, []);
            var size := |prefix| + |payload|;
            Open(t) && Sized(View(t, base)) && View(t, base)[..size] == prefix + payload
  {
    PreparedView(opts, reset, base);
    var t0 := Prepared(opts, reset).tx;
    AllLand(t0, base, payload);
    WriteAllFills(t0, base, payload, []);
    WriteAllSized(t0, base, payload, []);
    assert View(t0, base)[..opts.size] == prefix;
  }

  /** An accepted response for the advertised size is stored, and the blob becomes prefix plus payload. */
  lemma AcceptedIsStored(
    w: World, db: Db, base: File, item: Item, opts: SyncOpts, reset: bool, env: Env,
    prefix: seq<Sector>, pre: seq<Delivery>, msg: BlobRes, post: seq<Delivery>)
    requires Sized(base.sectors) && AnchoredAt(opts, prefix) && |prefix| <= MAX_SECTORS
    requires reset ==> opts.epoch <= AddU16(CurrentFor(w, item.name, env.now), 1) && prefix == []
    requires !reset ==> prefix <= base.sectors
    requires Calm(env) && env.ds == pre + [Delivery(msg, [])] + post
    requires AllSkipped(opts, pre) && Accepted(w, opts, db, msg) && WireBounded(msg)
    requires item.size == PayloadSize(msg)
    ensures var a := Attempt(w, db, base, item, opts, reset, env);
            && a.out == Stored(NewHeader(item, reset, env.now, UpdateOf(msg)))
            && Sized(a.base.sectors) && a.base.sectors[..item.size] == prefix + msg.payload
  {
    PayloadSizeExact(msg);
    WrittenView(opts, reset, base, prefix, msg.payload);
    FirstAcceptedWins(w, opts, base, env.now, Prepared(opts, reset).tx, db, pre, Delivery(msg, []), post);
    FoldAppend(Zero, prefix, msg.payload);
    var s := HandleAll(w, opts, base, env.now, Start(Prepared(opts, reset).tx, db), env.ds);
    FinishStores(base, item, reset, env, s, UpdateOf(msg), prefix + msg.payload);
  }

  lemma FinishStores(base: File, item: Item, reset: bool, env: Env, s: SyncState, u: SyncUpdate, content: seq<Sector>)
    requires Sized(base.sectors) && Calm(env) && Picked(s.events, 0) == Synced(u)
    requires Open(s.tx) && Sized(View(s.tx, base)) && item.size == |content| <= MAX_SECTORS
    requires View(s.tx, base)[..item.size] == content && u.tip == Fold(Zero, content)
    ensures var a := Finish(base, item, reset, env, s);
            && a.out == Stored(NewHeader(item, reset, env.now, u))
            && Sized(a.base.sectors) && a.base.sectors[..item.size] == content
  {
    assert HashOp(s.tx, base, item.size, NO_FAULTS).1.Ok?;
    HashOpOk(s.tx, base, item.size, NO_FAULTS);
    HashedIsPublished(s.tx, base, item.size, NO_FAULTS);
  }

  // ---------------------------------------------------------------- from server to client

  /** A server's record of a name: signed with a zero reserved root and indexing its blob. */
  predicate GoodReplica(w: World, db: Db, base: File, name: string) {
    && name in db.headers && name in db.tables
    && db.headers[name].name == name && db.headers[name].root == Zero
    && Consistent(db.headers[name], db.tables[name], base.sectors)
    && SelfVerifying(w, db, db.headers[name])
  }

  /** The two nodes know the same key, and the client has not banned the name. */
  predicate SameKey(server: Db, client: Db, name: string) {
    name in server.keys && name in client.keys && server.keys[name] == client.keys[name] && name !in client.bannedNames
  }

  /** The same blob under the same header: size, tip, signature and every sector below the size. */
  predicate SameReplica(server: Db, sbase: File, client: Db, cbase: File, name: string) {
    && name in server.headers && name in client.headers
    && var sh, ch := server.headers[name], client.headers[name];
       && ch.epoch == sh.epoch && ch.size == sh.size && ch.tip == sh.tip && ch.sig == sh.sig && ch.root == sh.root
       && sh.size <= |sbase.sectors| && ch.size <= |cbase.sectors|
       && cbase.sectors[..ch.size] == sbase.sectors[..sh.size]
  }

  /**
   The client's copy can be extended to the server's: it starts over, or the hash the server
   has at the client's size is the client's tip.
   */
  predicate Extends(server: Db, opts: SyncOpts, reset: bool, name: string) {
    reset || (opts.size > 0 ==> LookupHash(server, name, opts.size - 1) == Found(opts.prevHash))
  }

  /** The client's side of an exchange: it wants the update, and its copy can be extended. */
  predicate Exchange(w: World, server: Db, client: Db, cbase: File, item: Item, now: Time) {
    && Indexes(client, item.name, cbase.sectors) && SameKey(server, client, item.name)
    && item.name in server.headers
    && item.epoch == server.headers[item.name].epoch && item.size == server.headers[item.name].size && item.size > 0
    && Admits(w, client, item, now)
    && Extends(server, Wanted(client, item), StartsOver(client, item), item.name)
  }

  function Request(opts: SyncOpts): BlobReq {
    BlobReq(opts.name, opts.epoch, opts.size)
  }

  /** A good server replies to the client's request, and the reply passes every check the client makes. */
  lemma ReplyPasses(w: World, server: Db, sbase: File, client: Db, cbase: File, item: Item, now: Time) returns (msg: BlobRes)
    requires GoodReplica(w, server, sbase, item.name) && Exchange(w, server, client, cbase, item, now)
    ensures var opts := Wanted(client, item);
            && Serve(server, sbase, Request(opts)) == SectorReply(msg)
            && Accepted(w, opts, client, msg)
            && WireBounded(msg) && PayloadSize(msg) == item.size
            && opts.size <= |sbase.sectors|
            && sbase.sectors[..opts.size] + msg.payload == sbase.sectors[..item.size]
            && UpdateOf(msg) == SyncUpdate(server.headers[item.name].tip, Zero, server.headers[item.name].sig)
  {
    var opts := Wanted(client, item);
    ClientPrefix(w, server, sbase, client, cbase, item, now);
    ServedTail(server, sbase, Request(opts));
    msg := Serve(server, sbase, Request(opts)).res;
  }

  /** The update the client computes stores the server's header over the server's sectors. */
  lemma ReplyStored(
    w: World, server: Db, sbase: File, client: Db, cbase: File, item: Item, env: Env,
    pre: seq<Delivery>, msg: BlobRes, post: seq<Delivery>)
    requires GoodReplica(w, server, sbase, item.name) && Exchange(w, server, client, cbase, item, env.now)
    requires Calm(env) && env.ds == pre + [Delivery(msg, [])] + post
    requires AllSkipped(Wanted(client, item), pre) && Serve(server, sbase, Request(Wanted(client, item))) == SectorReply(msg)
    ensures var a, reset, sh := Update(w, client, cbase, item, env), StartsOver(client, item), server.headers[item.name];
            && a == Attempt(w, client, cbase, item, Wanted(client, item), reset, env)
            && a.out == Stored(NewHeader(item, reset, env.now, SyncUpdate(sh.tip, Zero, sh.sig)))
            && Sized(a.base.sectors) && a.base.sectors[..item.size] == sbase.sectors[..item.size]
  {
    var opts, reset := Wanted(client, item), StartsOver(client, item);
    GateExact(w, client, item, env.now);
    var reply := ReplyPasses(w, server, sbase, client, cbase, item, env.now);
    ClientPrefix(w, server, sbase, client, cbase, item, env.now);
    AcceptedIsStored(w, client, cbase, item, opts, reset, env, sbase.sectors[..opts.size], pre, msg, post);
  }

  /**
   Convergence. A client that wants the size and epoch a good server advertises, and whose
   copy the server's extends, stores the server's response, whatever it skips
   before and receives after. It then holds the server's header and sectors, and is itself
   a good replica.
   */
  lemma ReplicaConverges(
    w: World, server: Db, sbase: File, client: Db, cbase: File, item: Item, env: Env,
    pre: seq<Delivery>, msg: BlobRes, post: seq<Delivery>)
    requires GoodReplica(w, server, sbase, item.name) && Exchange(w, server, client, cbase, item, env.now)
    requires Calm(env) && env.ds == pre + [Delivery(msg, [])] + post
    requires AllSkipped(Wanted(client, item), pre) && Serve(server, sbase, Request(Wanted(client, item))) == SectorReply(msg)
    ensures var a := Update(w, client, cbase, item, env);
            && a.out.Stored?
            && SameReplica(server, sbase, a.db, a.base, item.name)
            && GoodReplica(w, a.db, a.base, item.name)
            && SameKey(a.db, server, item.name) == (item.name !in server.bannedNames)
  {
    ReplyStored(w, server, sbase, client, cbase, item, env, pre, msg, post);
    var opts, reset := Wanted(client, item), StartsOver(client, item);
    UpdateKeepsIndex(w, client, cbase, item, opts, reset, env);
    KeysKept(w, client, cbase, item, opts, reset, env);
  }

  lemma KeysKept(w: World, db: Db, base: File, item: Item, opts: SyncOpts, reset: bool, env: Env)
    ensures var a := Attempt(w, db, base, item, opts, reset, env);
            a.db.keys == db.keys && a.db.bannedNames == db.bannedNames
  {
    var s0 := Start(Prepared(opts, reset).tx, db);
    var k := OnePayload(w, opts, base, env.now, s0, env.ds);
    FinishRecords(base, item, reset, env, HandleAll(w, opts, base, env.now, s0, env.ds));
  }

  /** Equal hashes at the client's size mean equal sectors up to there. */
  lemma ClientPrefix(w: World, server: Db, sbase: File, client: Db, cbase: File, item: Item, now: Time)
    requires GoodReplica(w, server, sbase, item.name) && Exchange(w, server, client, cbase, item, now)
    ensures var opts := Wanted(client, item);
            && opts.size < item.size && opts.size <= |sbase.sectors|
            && AnchoredAt(opts, sbase.sectors[..opts.size])
            && (!StartsOver(client, item) ==> sbase.sectors[..opts.size] <= cbase.sectors)
  {
    var n := Wanted(client, item).size;
    if n > 0 {
      PrevHashServed(server, BlobReq(item.name, item.epoch, n), sbase.sectors[..item.size]);
      assert sbase.sectors[..item.size][..n] == sbase.sectors[..n];
      ChainInjective(cbase.sectors[..n], sbase.sectors[..n]);
    }
  }

  // ---------------------------------------------------------------- relaying

  /**
   A node that knows only the name's key asks any good server from sector zero, and one
   response makes it a replica.
   */
  lemma NewNodeConverges(w: World, server: Db, sbase: File, client: Db, cbase: File, name: string, now: Time) returns (msg: BlobRes)
    requires GoodReplica(w, server, sbase, name) && server.headers[name].size > 0
    requires SameKey(server, client, name) && name !in client.headers && Sized(cbase.sectors)
    ensures Serve(server, sbase, BlobReq(name, 0, 0)) == SectorReply(msg)
    ensures var sh := server.headers[name];
            var a := Update(w, client, cbase, Item(name, sh.epoch, sh.size), Env(now, [Delivery(msg, [])], 0, NO_FAULTS, AllPut));
            a.out.Stored? && SameReplica(server, sbase, a.db, a.base, name) && GoodReplica(w, a.db, a.base, name)
  {
    var item := Item(name, server.headers[name].epoch, server.headers[name].size);
    msg := ReplyPasses(w, server, sbase, client, cbase, item, now);
    var env := Env(now, [Delivery(msg, [])], 0, NO_FAULTS, AllPut);
    assert env.ds == [] + [Delivery(msg, [])] + [];
    ReplicaConverges(w, server, sbase, client, cbase, item, env, [], msg, []);
  }

  datatype Replica = Replica(db: Db, base: File)

  /** One node syncing from another: its state before, and everything its update is given. */
  datatype Hop = Hop(before: Replica, env: Env, pre: seq<Delivery>, msg: BlobRes, post: seq<Delivery>)

  predicate GoodHop(w: World, item: Item, server: Replica, hop: Hop) {
    && Exchange(w, server.db, hop.before.db, hop.before.base, item, hop.env.now)
    && Calm(hop.env) && hop.env.ds == hop.pre + [Delivery(hop.msg, [])] + hop.post
    && var opts := Wanted(hop.before.db, item);
       AllSkipped(opts, hop.pre) && Serve(server.db, server.base, Request(opts)) == SectorReply(hop.msg)
  }

  /** The last node of a relay: each node syncs from the one before it. */
  function Relay(w: World, item: Item, origin: Replica, hops: seq<Hop>): Replica {
    if hops == [] then origin
    else
      var hop := hops[|hops| - 1];
      var a := Update(w, hop.before.db, hop.before.base, item, hop.env);
      Replica(a.db, a.base)
  }

  predicate GoodRelay(w: World, item: Item, origin: Replica, hops: seq<Hop>) {
    hops == [] || (
      var m := |hops| - 1;
      GoodRelay(w, item, origin, hops[..m]) && GoodHop(w, item, Relay(w, item, origin, hops[..m]), hops[m]))
  }

  /** However many nodes a blob is relayed through, the last one holds the first one's header and sectors. */
  lemma {:induction false} RelayConverges(w: World, item: Item, origin: Replica, hops: seq<Hop>)
    requires GoodReplica(w, origin.db, origin.base, item.name)
    requires GoodRelay(w, item, origin, hops)
    ensures var last := Relay(w, item, origin, hops);
            && GoodReplica(w, last.db, last.base, item.name)
            && SameReplica(origin.db, origin.base, last.db, last.base, item.name)
    decreases |hops|
  {
    if hops != [] {
      var m := |hops| - 1;
      RelayConverges(w, item, origin, hops[..m]);
      var server, hop := Relay(w, item, origin, hops[..m]), hops[m];
      ReplicaConverges(w, server.db, server.base, hop.before.db, hop.before.base, item, hop.env, hop.pre, hop.msg, hop.post);
    }
  }

  // ---------------------------------------------------------------- a header that does not verify

  /**
   A response at a later epoch than the queue item is stored under the item's epoch, and
   the stored header then fails its own signature check.
   */
  lemma LaterEpochStoredUnverified(sig: Signature, key: PubKey)
    ensures var w := World((k, s, seal: Seal) => seal.epoch == 1, n => true, n => []);
            var db := EMPTY_DB.(keys := map["a" := key]);
            var msg := BlobRes("a", 1, 0, Zero, Zero, [ZeroSector()], sig);
            var env := Env(Epoch.EPOCH_DATE, [Delivery(msg, [])], 0, NO_FAULTS, AllPut);
            var a := Update(w, db, File(Zeros(MAX_SECTORS), true), Item("a", 0, 1), env);
            a.out.Stored? && !SelfVerifying(w, a.db, a.out.header)
  {
    var w := World((k, s, seal: Seal) => seal.epoch == 1, n => true, n => []);
    var db := EMPTY_DB.(keys := map["a" := key]);
    var msg := BlobRes("a", 1, 0, Zero, Zero, [ZeroSector()], sig);
    var env := Env(Epoch.EPOCH_DATE, [Delivery(msg, [])], 0, NO_FAULTS, AllPut);
    var item := Item("a", 0, 1);
    var opts := SyncOpts("a", 0, 0, Zero);
    assert PlanFor(w, db, item, env.now) == Proceed(opts, true);
    assert env.ds == [] + [Delivery(msg, [])] + [];
    AcceptedIsStored(w, db, File(Zeros(MAX_SECTORS), true), item, opts, true, env, [], [], msg, []);
  }
}
