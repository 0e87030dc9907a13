/** What is in the store after `UpdateBlob` writes a header: signed content, consistently indexed. */
module StoredContent {
  import opened Basics
  import opened HashChain
  import opened BlobTx
  import opened BlobHash
  import opened HeaderStore
  import opened Syncer
  import opened Updater
  import opened PutFaults

  /** The transaction's view once the payload of `d` has been written to it. */
  function Written(base: File, opts: SyncOpts, reset: bool, d: Delivery): Tx {
    WriteAll(Prepared(opts, reset).tx, base, d.msg.payload, d.faults)
  }

  /** A prepared transaction sees the base, or zeros after a reset, with the cursor at the requested size. */
  lemma PreparedView(opts: SyncOpts, reset: bool, base: File)
    requires Sized(base.sectors) && Prepared(opts, reset).out == Done
    ensures opts.size <= MAX_SECTORS
    ensures var t := Prepared(opts, reset).tx;
            && Open(t) && t.cursor == opts.size
            && View(t, base) == (if reset then Zeros(MAX_SECTORS) else base.sectors)
            && Sized(View(t, base))
  {
  }

  /** A stored header comes from one accepted response, and the re-hash of the view agrees with it. */
  lemma StoredFrom(w: World, db: Db, base: File, item: Item, opts: SyncOpts, reset: bool, env: Env) returns (k: nat)
    requires Attempt(w, db, base, item, opts, reset, env).out.Stored?
    ensures k < |env.ds| && Prepared(opts, reset).out == Done
    ensures var d := env.ds[k];
            var t := Written(base, opts, reset, d);
            var a := Attempt(w, db, base, item, opts, reset, env);
            var s := HandleAll(w, opts, base, env.now, Start(Prepared(opts, reset).tx, db), env.ds);
            && Accepted(w, opts, db, d.msg)
            && a.out == Stored(NewHeader(item, reset, env.now, UpdateOf(d.msg)))
            && HashOp(t, base, item.size, env.readFaults).1.Ok?
            && item.size <= MAX_SECTORS && item.size <= |View(t, base)|
            && Fold(Zero, View(t, base)[..item.size]) == PayloadTip(d.msg)
            && SameRecords(s.db, db)
            && a.db == PutHeader(s.db, a.out.header, Table(View(t, base)[..item.size]), env.putFault).0
            && a.base == CommitOp(HashOp(t, base, item.size, env.readFaults).0, base).0
  {
    var s0 := Start(Prepared(opts, reset).tx, db);
    k := PickedIsWritten(w, opts, base, env.now, s0, env.ds, env.pick);
    HashOpOk(Written(base, opts, reset, env.ds[k]), base, item.size, env.readFaults);
  }

  lemma StoredPublishes(w: World, db: Db, base: File, item: Item, opts: SyncOpts, reset: bool, env: Env) returns (k: nat)
    requires Sized(base.sectors)
    requires Attempt(w, db, base, item, opts, reset, env).out.Stored?
    ensures k < |env.ds| && Accepted(w, opts, db, env.ds[k].msg) && Prepared(opts, reset).out == Done
    ensures var d := env.ds[k];
            var t := Written(base, opts, reset, d);
            var a := Attempt(w, db, base, item, opts, reset, env);
            && a.out == Stored(NewHeader(item, reset, env.now, UpdateOf(d.msg)))
            && item.size <= MAX_SECTORS && Sized(a.base.sectors) && item.size <= |View(t, base)|
            && a.base.sectors[..item.size] == View(t, base)[..item.size]
            && a.base.present == base.present
            && Fold(Zero, a.base.sectors[..item.size]) == a.out.header.tip
            && (exists db1 :: SameRecords(db1, db)
                              && a.db == PutHeader(db1, a.out.header, Table(a.base.sectors[..item.size]), env.putFault).0)
  {
    k := StoredFrom(w, db, base, item, opts, reset, env);
    PreparedView(opts, reset, base);
    WriteAllSized(Prepared(opts, reset).tx, base, env.ds[k].msg.payload, env.ds[k].faults);
    HashedIsPublished(Written(base, opts, reset, env.ds[k]), base, item.size, env.readFaults);
  }

  /** What a stored update leaves in the database and the file. */
  predicate Indexed(db: Db, a: After, name: string)
    requires a.out.Stored?
  {
    && name in a.db.tables
    && Consistent(a.out.header, a.db.tables[name], a.base.sectors)
    && a.db.headers == db.headers[name := a.out.header]
    && a.db.tables == db.tables[name := a.db.tables[name]]
    && (db.count == |db.headers| ==> a.db.count == |a.db.headers|)
  }

  predicate SameIndex(db: Db, base: File, a: After) {
    a.base == base && a.db.headers == db.headers && a.db.tables == db.tables && a.db.count == db.count
  }

  lemma StoredIsIndexed(w: World, db: Db, base: File, item: Item, opts: SyncOpts, reset: bool, env: Env)
    requires Sized(base.sectors) && env.putFault == AllPut
    requires Attempt(w, db, base, item, opts, reset, env).out.Stored?
    ensures Indexed(db, Attempt(w, db, base, item, opts, reset, env), item.name)
  {
    var k := StoredPublishes(w, db, base, item, opts, reset, env);
    var a := Attempt(w, db, base, item, opts, reset, env);
    var table := Table(a.base.sectors[..item.size]);
    var db1 :| SameRecords(db1, db) && a.db == PutHeader(db1, a.out.header, table, AllPut).0;
    if db.count == |db.headers| {
      CountFollows(db1, a.out.header, table);
    }
  }

  lemma UnstoredIsUnchanged(w: World, db: Db, base: File, item: Item, opts: SyncOpts, reset: bool, env: Env)
    requires env.putFault == AllPut
    requires !Attempt(w, db, base, item, opts, reset, env).out.Stored?
    ensures SameIndex(db, base, Attempt(w, db, base, item, opts, reset, env))
  {
    var k := OnePayload(w, opts, base, env.now, Start(Prepared(opts, reset).tx, db), env.ds);
  }

  /**
   One update, from any plan however stale, any messages and any write or read faults:
   when the database writes succeed, the header and table it stores index the blob it
   publishes, and an update that stores nothing changes neither.
   */
  lemma UpdateKeepsIndex(w: World, db: Db, base: File, item: Item, opts: SyncOpts, reset: bool, env: Env)
    requires Sized(base.sectors) && env.putFault == AllPut
    ensures var a := Attempt(w, db, base, item, opts, reset, env);
            && Sized(a.base.sectors) && a.base.present == base.present
            && (if a.out.Stored? then Indexed(db, a, item.name) else SameIndex(db, base, a))
  {
    if Attempt(w, db, base, item, opts, reset, env).out.Stored? {
      StoredIsIndexed(w, db, base, item, opts, reset, env);
      var k := StoredPublishes(w, db, base, item, opts, reset, env);
    } else {
      UnstoredIsUnchanged(w, db, base, item, opts, reset, env);
    }
  }

  /**
   Database faults are where an update can break the index; it survives in exactly the cases
   of `Survives`.
   */
  lemma FaultsBreakIndex(base: File, item: Item, reset: bool, env: Env, db: Db, tx: Tx, u: SyncUpdate)
    requires Indexes(db, item.name, base.sectors)
    requires Open(tx) && tx.initialized && Sized(tx.f) && item.size <= MAX_SECTORS
    requires u.tip == Fold(Zero, tx.f[..item.size])
    ensures var a := Conclude(base, item, reset, env, db, tx, Table(tx.f[..item.size]), u);
            Indexes(a.db, item.name, a.base.sectors)
            <==> Survives(db, item.name, env.putFault, base.sectors, tx.f[..item.size], tx.f)
  {
    SurvivesExactly(db, NewHeader(item, reset, env.now, u), base.sectors, tx.f[..item.size], tx.f, env.putFault);
  }

  /** The request's previous hash is the chain hash of `prefix`, and its position is its length. */
  predicate AnchoredAt(opts: SyncOpts, prefix: seq<Sector>) {
    opts.size == |prefix| && opts.prevHash == Fold(Zero, prefix)
  }

  predicate AllBounded(ds: seq<Delivery>) {
    forall i :: 0 <= i < |ds| ==> WireBounded(ds[i].msg)
  }

  /**
   Whenever a header is written, the blob holds exactly the known prefix followed by the
   accepted payload, whatever writes failed on the way. The signature covers the stored
   size and tip, and no other sector list has that tip.
   */
  lemma SignedContentOnly(w: World, db: Db, base: File, item: Item, opts: SyncOpts, reset: bool, env: Env, prefix: seq<Sector>)
    returns (msg: BlobRes)
    requires Sized(base.sectors) && AnchoredAt(opts, prefix) && AllBounded(env.ds)
    requires Attempt(w, db, base, item, opts, reset, env).out.Stored?
    ensures var a := Attempt(w, db, base, item, opts, reset, env);
            var h := a.out.header;
            && (exists k :: 0 <= k < |env.ds| && env.ds[k].msg == msg)
            && Accepted(w, opts, db, msg)
            && h.size == item.size == |prefix| + |msg.payload| <= MAX_SECTORS
            && Sized(a.base.sectors)
            && a.base.sectors[..h.size] == prefix + msg.payload
            && ValidUpdate(w, db, Seal(opts.name, msg.epoch, h.size, h.tip, h.root), h.sig)
            && (forall ss: seq<Sector> :: Fold(Zero, ss) == h.tip <==> ss == a.base.sectors[..h.size])
  {
    var k := StoredPublishes(w, db, base, item, opts, reset, env);
    msg := env.ds[k].msg;
    var a := Attempt(w, db, base, item, opts, reset, env);
    var kept := a.base.sectors[..item.size];
    assert kept == prefix + msg.payload by {
      FoldFromPrefix(prefix, msg.payload, kept);
    }
    assert WireBounded(msg);
    PreparedView(opts, reset, base);
    PayloadSizeExact(msg);
    TipNamesContent(kept);
  }

  /** The tip of a list is the tip of no other list. */
  lemma {:induction false} TipNamesContent(content: seq<Sector>)
    ensures forall ss: seq<Sector> :: Fold(Zero, ss) == Fold(Zero, content) <==> ss == content
  {
    forall ss: seq<Sector>
      ensures Fold(Zero, ss) == Fold(Zero, content) <==> ss == content
    {
      if Fold(Zero, ss) == Fold(Zero, content) {
        ChainInjective(ss, content);
      }
    }
  }

  /** A plan made from a header that indexes some file is anchored in that file, or at the empty list. */
  lemma PlanAnchored(w: World, db: Db, file: seq<Sector>, item: Item, now: Time)
    requires Indexes(db, item.name, file)
    requires PlanFor(w, db, item, now).Proceed?
    ensures var p := PlanFor(w, db, item, now);
            && p.opts.name == item.name
            && (if p.reset then AnchoredAt(p.opts, []) else p.opts.size <= |file| && AnchoredAt(p.opts, file[..p.opts.size]))
  {
  }

  /** Each signature fits one seal only. */
  ghost predicate Binding(w: World) {
    forall k, s, a, b :: w.verify(k, s, a) && w.verify(k, s, b) ==> a == b
  }

  /**
   The stored epoch is the queue item's while the signature was checked at the response's,
   so the stored header verifies when the two agree, and with binding signatures only then.
   */
  lemma StoredVerifiesWhenEpochsAgree(
    w: World, db: Db, base: File, item: Item, opts: SyncOpts, reset: bool, env: Env, prefix: seq<Sector>)
    returns (msg: BlobRes)
    requires Sized(base.sectors) && AnchoredAt(opts, prefix) && AllBounded(env.ds) && env.putFault == AllPut
    requires opts.name == item.name
    requires Attempt(w, db, base, item, opts, reset, env).out.Stored?
    ensures Accepted(w, opts, db, msg) && (exists k :: 0 <= k < |env.ds| && env.ds[k].msg == msg)
    ensures var a := Attempt(w, db, base, item, opts, reset, env);
            && (msg.epoch == item.epoch ==> SelfVerifying(w, a.db, a.out.header))
            && (Binding(w) ==> (SelfVerifying(w, a.db, a.out.header) <==> msg.epoch == item.epoch))
  {
    msg := SignedContentOnly(w, db, base, item, opts, reset, env, prefix);
    var a := Attempt(w, db, base, item, opts, reset, env);
    var n := OnePayload(w, opts, base, env.now, Start(Prepared(opts, reset).tx, db), env.ds);
    assert a.db.keys == db.keys && a.db.bannedNames == db.bannedNames;
  }
}
