/** The RPC server and the client writer as objects, over the database, blob and transaction objects. */
module Rpc {
  import opened Basics
  import opened HashChain
  import opened BlobTx
  import opened BlobHash
  import opened HeaderStore
  import opened Publisher
  import NameLocker

  /** `awaitingTx`: a transaction and the name of its blob. */
  datatype Awaiting = Awaiting(name: string, tx: Transaction)

  /** The name of the transaction is locked by someone. */
  predicate Busy(n: Host, id: nat, locks: NameLocker.Table) {
    Known(n, id) && NameLocker.Apply(locks, NameLocker.TryLock(SessionOf(n, id).name)).1 != NameLocker.Granted
  }

  /**
   `rpc.Server`. The handlers panic on an unknown transaction; here they change nothing.
   `heap` lists every transaction opened so far, and `addr` says where the store's are;
   `sessions` and `files` are what the transaction and blob objects hold, and `pos` and
   `owner` find them again.
   */
  class RpcServer {
    const db: Database
    var pool: map<string, BlobFile>
    var txStore: map<nat, Awaiting>
    var lastTxID: nat
    ghost var heap: seq<Transaction>
    ghost var pos: map<Transaction, nat>
    ghost var owner: map<BlobFile, string>
    ghost var addr: map<nat, nat>
    ghost var sessions: seq<Session>
    ghost var files: map<string, File>

    ghost function State(): Host
      reads this, db
    {
      Host(db.State(), files, sessions, addr, lastTxID)
    }

    /** The transaction at this position holds what `sessions` says, and works on its name's blob. */
    ghost predicate TxMirrored(i: nat)
      reads this, pos.Keys
    {
      && i < |heap| && i < |sessions| && heap[i] in pos && pos[heap[i]] == i
      && sessions[i].name in pool && heap[i].blob == pool[sessions[i].name] && sessions[i].tx == heap[i].State()
    }

    ghost predicate BlobMirrored(name: string)
      reads this, owner.Keys
    {
      && name in pool && name in files && pool[name] in owner && owner[pool[name]] == name
      && files[name] == pool[name].State()
    }

    ghost predicate Stored(id: nat)
      reads this
    {
      id in txStore && id in addr && addr[id] < |heap| == |sessions|
      && txStore[id] == Awaiting(sessions[addr[id]].name, heap[addr[id]])
    }

    ghost predicate Valid()
      reads this, pos.Keys, owner.Keys
    {
      && |sessions| == |heap| && addr.Keys == txStore.Keys && files.Keys == pool.Keys
      && (forall id {:trigger Stored(id)} :: id in txStore ==> Stored(id))
      && (forall i {:trigger TxMirrored(i)} :: 0 <= i < |heap| ==> TxMirrored(i))
      && (forall name {:trigger BlobMirrored(name)} :: name in pool ==> BlobMirrored(name))
    }

    /** Nothing that validity is about has changed. */
    twostate lemma StillValid()
      requires old(Valid())
      requires unchanged(this`pool, this`heap, this`pos, this`owner, this`sessions, this`files)
      requires unchanged(pos.Keys) && unchanged(owner.Keys) && addr.Keys == txStore.Keys
      requires forall id {:trigger Stored(id)} :: id in txStore ==> Stored(id)
      ensures Valid()
    {
      forall i | 0 <= i < |heap|
        ensures TxMirrored(i)
      {
        assert old(TxMirrored(i));
      }
      forall k | k in pool
        ensures BlobMirrored(k)
      {
        assert old(BlobMirrored(k));
      }
    }

    /** Only the transaction at this position has changed, so everything else is still mirrored. */
    twostate lemma OthersMirrored(a: nat)
      requires old(Valid()) && a < |heap| && unchanged(this) && unchanged(owner.Keys)
      requires forall tx :: tx in pos && tx != heap[a] ==> unchanged(tx)
      ensures forall i {:trigger TxMirrored(i)} :: 0 <= i < |heap| && i != a ==> TxMirrored(i)
      ensures forall k {:trigger BlobMirrored(k)} :: k in pool ==> BlobMirrored(k)
      ensures forall id {:trigger Stored(id)} :: id in txStore ==> Stored(id)
    {
      assert old(TxMirrored(a));
      forall i | 0 <= i < |heap| && i != a
        ensures TxMirrored(i)
      {
        assert old(TxMirrored(i));
      }
      forall k | k in pool
        ensures BlobMirrored(k)
      {
        assert old(BlobMirrored(k));
      }
      forall id | id in txStore
        ensures Stored(id)
      {
        assert old(Stored(id));
      }
    }

    constructor (db: Database)
      ensures Valid() && State() == Host(db.State(), map[], [], map[], 0) && this.db == db
    {
      this.db := db;
      pool, txStore, lastTxID := map[], map[], 0;
      heap, pos, owner, addr, sessions, files := [], map[], map[], map[], [], map[];
    }

    /** `Store.Open` through the pool: one blob object per name. */
    method Open(name: string) returns (bl: BlobFile)
      requires Valid()
      modifies this`pool, this`files, this`owner
      ensures Valid() && name in pool && pool[name] == bl
      ensures State() == old(State()).(blobs := old(files)[name := BlobOf(old(State()), name)])
    {
      if name in pool {
        assert BlobMirrored(name);
        bl := pool[name];
      } else {
        bl := new BlobFile();
        pool := pool[name := bl];
        files := files[name := bl.State()];
        owner := owner[bl := name];
        forall k | k in pool
          ensures BlobMirrored(k)
        {
          assert k != name ==> old(BlobMirrored(k));
        }
        forall i | 0 <= i < |heap|
          ensures TxMirrored(i)
        {
          assert old(TxMirrored(i));
        }
        forall id | id in txStore
          ensures Stored(id)
        {
          assert old(Stored(id));
        }
      }
    }

    static method Start(bl: BlobFile, reset: bool, size: U16) returns (tx: Transaction, out: Outcome)
      ensures fresh(tx) && tx.blob == bl && Step(tx.State(), out) == Started(reset, size)
    {
      tx := new Transaction(bl);
      if reset {
        var truncated := tx.Truncate();
      }
      out := tx.Seek(size * SECTOR_BYTES, SeekStart);
    }

    /** A new transaction object, not yet in the store. */
    ghost method Grow(name: string, tx: Transaction)
      requires Valid() && name in pool && tx.blob == pool[name] && tx !in pos
      modifies this`heap, this`sessions, this`pos
      ensures Valid() && pos.Keys == old(pos.Keys) + {tx} && heap == old(heap) + [tx]
      ensures sessions == old(sessions) + [Session(name, tx.State())]
    {
      heap := heap + [tx];
      pos := pos[tx := |heap| - 1];
      sessions := sessions + [Session(name, tx.State())];
      forall i | 0 <= i < |heap|
        ensures TxMirrored(i)
      {
        assert i < |heap| - 1 ==> old(TxMirrored(i));
      }
      forall k | k in pool
        ensures BlobMirrored(k)
      {
        assert old(BlobMirrored(k));
      }
      forall id | id in txStore
        ensures Stored(id)
      {
        assert old(Stored(id));
      }
    }

    /** `txStore.Set` */
    method Put(txID: nat, name: string, tx: Transaction)
      requires Valid() && name in pool && tx.blob == pool[name] && tx !in pos
      modifies this`txStore, this`heap, this`addr, this`sessions, this`pos
      ensures Valid() && pos.Keys == old(pos.Keys) + {tx}
      ensures State() == old(State()).(
                txs := old(sessions) + [Session(name, tx.State())],
                txStore := old(addr)[txID := |old(sessions)|])
    {
      Grow(name, tx);
      label Grown:
      addr := addr[txID := |heap| - 1];
      txStore := txStore[txID := Awaiting(name, tx)];
      forall id | id in txStore
        ensures Stored(id)
      {
        assert id != txID ==> old@Grown(Stored(id));
      }
      StillValid@Grown();
    }

    /** Make `sessions` follow a transaction that has just changed, alone. */
    ghost method Follow(a: nat)
      requires a < |heap| == |sessions| && addr.Keys == txStore.Keys && files.Keys == pool.Keys
      requires forall i {:trigger TxMirrored(i)} :: 0 <= i < |heap| && i != a ==> TxMirrored(i)
      requires heap[a] in pos && pos[heap[a]] == a && sessions[a].name in pool && heap[a].blob == pool[sessions[a].name]
      requires forall k {:trigger BlobMirrored(k)} :: k in pool ==> BlobMirrored(k)
      requires forall id {:trigger Stored(id)} :: id in txStore ==> Stored(id)
      modifies this`sessions
      ensures Valid() && sessions == old(sessions)[a := Session(old(sessions)[a].name, heap[a].State())]
    {
      sessions := sessions[a := Session(sessions[a].name, heap[a].State())];
      forall i | 0 <= i < |heap|
        ensures TxMirrored(i)
      {
        assert i != a ==> old(TxMirrored(i));
      }
      forall k | k in pool
        ensures BlobMirrored(k)
      {
        assert old(BlobMirrored(k));
      }
      forall id | id in txStore
        ensures Stored(id)
      {
        assert old(Stored(id));
      }
    }

    method WriteSector(id: nat, data: seq<Byte>, fault: WriteFault) returns (r: WriteRes)
      requires Valid()
      modifies this`sessions, pos.Keys
      ensures Valid() && (State(), r) == OnWriteSector(old(State()), id, data, fault)
    {
      if id !in txStore {
        return NoSession;
      }
      var awaiting := txStore[id];
      assert Stored(id) && TxMirrored(addr[id]) && BlobMirrored(awaiting.name);
      var out := awaiting.tx.WriteSector(ToSector(data), fault);
      OthersMirrored(addr[id]);
      Follow(addr[id]);
      r := if out.Done? then Wrote else WriteErr;
    }

    method Checkout(name: string, reset: bool, cur: U16) returns (res: Option<CheckoutRes>)
      requires Valid()
      modifies this
      ensures Valid()
      ensures State() == OnCheckout(old(State()), name, reset, cur).0 && res == OnCheckout(old(State()), name, reset, cur).1
    {
      Number(name);
      res := CheckoutOpen(name, reset, cur);
    }

    /** Take the next number and open the blob. */
    method Number(name: string)
      requires Valid()
      modifies this`lastTxID, this`pool, this`files, this`owner
      ensures Valid() && name in pool
      ensures State() == Numbered(old(State()), name)
    {
      Count(NextID(lastTxID));
      var bl := Open(name);
    }

    method CheckoutOpen(name: string, reset: bool, cur: U16) returns (res: Option<CheckoutRes>)
      requires Valid() && name in pool
      modifies this`txStore, this`heap, this`addr, this`sessions, this`pos
      ensures Valid()
      ensures State() == CheckedOut(old(State()), name, reset, cur).0 && res == CheckedOut(old(State()), name, reset, cur).1
    {
      var epochHeight, sectorSize: U16, sectorTipHash := cur, 0, Zero;
      var header := db.GetHeader(name);
      if header.Some? {
        epochHeight := header.value.epoch;
        sectorSize := header.value.size;
        sectorTipHash := header.value.tip;
      }
      if reset {
        if epochHeight > cur {
          return None;
        }
        epochHeight := AddU16(epochHeight, 1);
        sectorSize := 0;
        sectorTipHash := Zero;
      }
      var ok := Begin(lastTxID, name, reset, sectorSize);
      res := if ok then Some(CheckoutRes(lastTxID, epochHeight, sectorSize, sectorTipHash)) else None;
    }

    /** A new transaction on the blob, kept if its cursor can be set. */
    method Begin(txID: nat, name: string, reset: bool, size: U16) returns (ok: bool)
      requires Valid() && name in pool
      modifies this`txStore, this`heap, this`addr, this`sessions, this`pos
      ensures Valid() && ok == Started(reset, size).out.Done?
      ensures State() == if ok then
                           old(State()).(
                             txs := old(sessions) + [Session(name, Started(reset, size).tx)],
                             txStore := old(addr)[txID := |old(sessions)|])
                         else old(State())
    {
      var tx, sought := Start(pool[name], reset, size);
      ok := sought.Done?;
      if ok {
        Put(txID, name, tx);
      }
    }

    method Count(txID: nat)
      requires Valid()
      modifies this`lastTxID
      ensures Valid() && State() == old(State()).(lastTxID := txID)
    {
      lastTxID := txID;
      forall id | id in txStore
        ensures Stored(id)
      {
        assert old(Stored(id));
      }
      StillValid();
    }

    /** Re-hash a transaction from the start. */
    method Rehash(id: nat, size: U16) returns (hashes: Result<seq<Hash>, TxError>)
      requires Valid() && id in txStore
      modifies this`sessions, pos.Keys
      ensures Valid() && Known(old(State()), id)
      ensures var s := SessionOf(old(State()), id);
              var r := HashOp(s.tx, BlobOf(old(State()), s.name), size, NO_FAULTS);
              hashes == r.1 && State() == SetTx(old(State()), old(addr)[id], r.0)
    {
      var awaiting := txStore[id];
      assert Stored(id) && TxMirrored(addr[id]) && BlobMirrored(awaiting.name);
      var br := new Reader(awaiting.tx);
      hashes := SerialHash(br, size, NO_FAULTS);
      OthersMirrored(addr[id]);
      Follow(addr[id]);
    }

    /** The checks a commit makes before it takes the name lock. */
    method Check(w: World, req: CommitReq) returns (r: Option<seq<Hash>>)
      requires Valid() && req.txID in txStore
      modifies this`sessions, pos.Keys
      ensures Valid() && Known(old(State()), req.txID)
      ensures (State(), r) == CheckAt(w, old(State()), old(addr)[req.txID], req)
    {
      var awaiting := txStore[req.txID];
      assert Stored(req.txID) && Known(State(), req.txID);
      if awaiting.name !in db.keys {
        return None;
      }
      var hashes := Rehash(req.txID, req.size);
      if hashes.Err? {
        return None;
      }
      var tip := Tip(hashes.value);
      if tip != req.tip {
        return None;
      }
      if !w.verify(db.keys[awaiting.name], req.sig, Seal(awaiting.name, req.epoch, req.size, req.tip, Zero)) {
        return None;
      }
      r := Some(hashes.value);
    }

    /** Under the name lock: the header goes into the database. */
    method PutHeaderOf(req: CommitReq, hashes: seq<Hash>, now: Time, fault: PutFault) returns (ok: bool)
      requires Valid() && req.txID in txStore
      modifies db
      ensures Valid() && Known(old(State()), req.txID)
      ensures State() == PutAt(old(State()), addr[req.txID], req, hashes, now, fault).0
      ensures ok == PutAt(old(State()), addr[req.txID], req, hashes, now, fault).1
    {
      var awaiting := txStore[req.txID];
      assert Stored(req.txID);
      ok := db.SetHeader(Header(awaiting.name, req.epoch, req.size, req.tip, req.sig, Zero, now), hashes, fault);
    }

    /** Make `files` and `sessions` follow a transaction and its blob that have just changed, alone. */
    ghost method FollowBoth(a: nat, name: string)
      requires a < |heap| == |sessions| && addr.Keys == txStore.Keys && files.Keys == pool.Keys && name in pool
      requires forall i {:trigger TxMirrored(i)} :: 0 <= i < |heap| && i != a ==> TxMirrored(i)
      requires heap[a] in pos && pos[heap[a]] == a && sessions[a].name == name && heap[a].blob == pool[name]
      requires forall k {:trigger BlobMirrored(k)} :: k in pool && k != name ==> BlobMirrored(k)
      requires pool[name] in owner && owner[pool[name]] == name
      requires forall id {:trigger Stored(id)} :: id in txStore ==> Stored(id)
      modifies this`sessions, this`files
      ensures Valid() && sessions == old(sessions)[a := Session(name, heap[a].State())]
      ensures files == old(files)[name := pool[name].State()]
    {
      sessions := sessions[a := Session(name, heap[a].State())];
      files := files[name := pool[name].State()];
      forall i | 0 <= i < |heap|
        ensures TxMirrored(i)
      {
        assert i != a ==> old(TxMirrored(i));
      }
      forall k | k in pool
        ensures BlobMirrored(k)
      {
        assert k != name ==> old(BlobMirrored(k));
      }
      forall id | id in txStore
        ensures Stored(id)
      {
        assert old(Stored(id));
      }
    }

    /** Commit the transaction. */
    method CommitTx(id: nat) returns (out: Outcome)
      requires Valid() && id in txStore
      modifies this`sessions, this`files, pos.Keys, owner.Keys
      ensures Valid() && Known(old(State()), id)
      ensures var s := SessionOf(old(State()), id);
              var r := CommitOp(s.tx, BlobOf(old(State()), s.name));
              && out == r.1.out
              && State() == SetTx(old(State()), addr[id], r.1.tx).(blobs := old(files)[s.name := r.0])
    {
      var awaiting := txStore[id];
      assert Stored(id) && TxMirrored(addr[id]) && BlobMirrored(awaiting.name);
      out := awaiting.tx.Commit();
      forall i | 0 <= i < |heap| && i != addr[id]
        ensures TxMirrored(i)
      {
        assert old(TxMirrored(i));
      }
      forall k | k in pool && k != awaiting.name
        ensures BlobMirrored(k)
      {
        assert old(BlobMirrored(k));
      }
      forall k | k in txStore
        ensures Stored(k)
      {
        assert old(Stored(k));
      }
      FollowBoth(addr[id], awaiting.name);
    }

    /** `txStore.Del` */
    method Del(id: nat)
      requires Valid()
      modifies this`txStore, this`addr
      ensures Valid() && State() == old(State()).(txStore := old(addr) - {id})
    {
      txStore := txStore - {id};
      addr := addr - {id};
      forall k | k in txStore
        ensures Stored(k)
      {
        assert old(Stored(k));
      }
      StillValid();
    }

    /** The reaper: roll the transaction back and forget its number. */
    method Reap(id: nat)
      requires Valid()
      modifies this`sessions, this`txStore, this`addr, pos.Keys
      ensures Valid() && State() == ExpireTx(old(State()), id)
    {
      if id !in txStore {
        return;
      }
      assert Stored(id) && TxMirrored(addr[id]);
      var out := txStore[id].tx.Rollback();
      OthersMirrored(addr[id]);
      Follow(addr[id]);
      Del(id);
    }

    /** Still under the name lock: publish and forget the transaction. */
    method Publish(txID: nat) returns (ok: bool)
      requires Valid() && txID in txStore
      modifies this`sessions, this`files, this`txStore, this`addr, pos.Keys, owner.Keys
      ensures Valid() && Known(old(State()), txID)
      ensures State() == PublishAt(old(State()), old(addr)[txID], txID).0
      ensures ok == PublishAt(old(State()), old(addr)[txID], txID).1
    {
      var out := CommitTx(txID);
      ok := out == Done;
      if ok {
        Del(txID);
      }
    }

    method StoreAndPublish(req: CommitReq, hashes: seq<Hash>, now: Time, fault: PutFault) returns (ok: bool)
      requires Valid() && req.txID in txStore
      modifies this`sessions, this`files, this`txStore, this`addr, db, pos.Keys, owner.Keys
      ensures Valid() && Known(old(State()), req.txID)
      ensures State() == StoreAt(old(State()), old(addr)[req.txID], req, hashes, now, fault).0
      ensures ok == StoreAt(old(State()), old(addr)[req.txID], req, hashes, now, fault).1
    {
      ok := PutHeaderOf(req, hashes, now, fault);
      if ok {
        ok := Publish(req.txID);
      }
    }

    method Release(locker: NameLocker.MultiLocker, name: string)
      requires Valid()
      modifies locker
      ensures Valid() && State() == old(State())
      ensures locker.inUse == NameLocker.Apply(old(locker.inUse), NameLocker.Unlock(name)).0
    {
      var panics := locker.Unlock(name);
    }

    /** With the name lock taken: store, publish, and give the lock back. */
    method StoreThenUnlock(req: CommitReq, hashes: seq<Hash>, name: string, locker: NameLocker.MultiLocker, now: Time, fault: PutFault)
      returns (ok: bool)
      requires Valid() && req.txID in txStore
      modifies this`sessions, this`files, this`txStore, this`addr, db, pos.Keys, owner.Keys, locker
      ensures Valid() && Known(old(State()), req.txID)
      ensures locker.inUse == NameLocker.Apply(old(locker.inUse), NameLocker.Unlock(name)).0
      ensures State() == StoreAt(old(State()), old(addr)[req.txID], req, hashes, now, fault).0
      ensures ok == StoreAt(old(State()), old(addr)[req.txID], req, hashes, now, fault).1
    {
      ok := StoreAndPublish(req, hashes, now, fault);
      Release(locker, name);
    }

    /** Under the name lock, if it is free. */
    method Conclude(req: CommitReq, hashes: Option<seq<Hash>>, name: string, locker: NameLocker.MultiLocker, now: Time, fault: PutFault)
      returns (ok: bool)
      requires Valid() && req.txID in txStore && NameLocker.Clean(locker.inUse)
      modifies this`sessions, this`files, this`txStore, this`addr, db, pos.Keys, owner.Keys, locker
      ensures Valid() && Known(old(State()), req.txID) && locker.inUse == old(locker.inUse)
      ensures var busy := NameLocker.Apply(old(locker.inUse), NameLocker.TryLock(name)).1 != NameLocker.Granted;
              var r := Concluded(old(State()), old(addr)[req.txID], req, hashes, now, fault, busy);
              State() == r.0 && ok == r.1
    {
      assert Stored(req.txID);
      if hashes.None? {
        return false;
      }
      NameLocker.LockUnlock(locker.inUse, name);
      ok := locker.TryLock(name);
      if ok {
        ok := StoreThenUnlock(req, hashes.value, name, locker, now, fault);
      }
    }

    method Commit(
      w: World, locker: NameLocker.MultiLocker,
      txID: nat, epoch: nat, size: nat, tip: Hash, sig: Signature, now: Time, fault: PutFault)
      returns (ok: bool)
      requires Valid() && NameLocker.Clean(locker.inUse)
      modifies this`sessions, this`files, this`txStore, this`addr, db, pos.Keys, owner.Keys, locker
      ensures Valid() && locker.inUse == old(locker.inUse)
      ensures var n := old(State());
              var r := OnCommit(w, n, Narrow(txID, epoch, size, tip, sig), now, fault, Busy(n, txID, old(locker.inUse)));
              State() == r.0 && ok == r.1
    {
      if txID !in txStore {
        return false;
      }
      var req := CommitReq(txID, ToU16(epoch), ToU16(size), tip, sig);
      assert Stored(txID);
      var name := txStore[txID].name;
      var hashes := Check(w, req);
      ok := Conclude(req, hashes, name, locker, now, fault);
    }
  }

  /** `BlobWriter`, the client's mirror of one server transaction. */
  class BlobWriter {
    const name: string
    const resetEpoch: bool
    var txID: nat
    var epochHeight: U16
    var sectorSize: U16
    var sectorTipHash: Hash
    var isOpen: bool
    var isCommitted: bool

    ghost function State(): Writer
      reads this
    {
      Writer(txID, epochHeight, sectorSize, sectorTipHash, isOpen, isCommitted)
    }

    constructor (name: string, resetEpoch: bool)
      ensures this.name == name && this.resetEpoch == resetEpoch && !isOpen && !isCommitted
    {
      this.name, this.resetEpoch := name, resetEpoch;
      txID, epochHeight, sectorSize, sectorTipHash, isOpen, isCommitted := 0, 0, 0, Zero, false, false;
    }

    method Open(srv: RpcServer, cur: U16) returns (ok: bool)
      requires !isOpen && !isCommitted && srv.Valid()
      modifies this, srv
      ensures srv.Valid()
      ensures var r := OnCheckout(old(srv.State()), name, resetEpoch, cur);
              && srv.State() == r.0 && ok == r.1.Some?
              && State() == if ok then OpenWriter(r.1.value) else old(State())
    {
      var res := srv.Checkout(name, resetEpoch, cur);
      if res.None? {
        return false;
      }
      Adopt(res.value);
      ok := true;
    }

    method Adopt(res: CheckoutRes)
      modifies this
      ensures State() == OpenWriter(res).(isCommitted := old(isCommitted))
    {
      txID := res.txID;
      epochHeight := res.epoch;
      sectorSize := res.size;
      sectorTipHash := res.tip;
      isOpen := true;
    }

    method WriteSector(srv: RpcServer, p: seq<Byte>, fault: WriteFault) returns (ok: bool)
      requires isOpen && !isCommitted && srv.Valid()
      modifies this, srv`sessions, srv.pos.Keys
      ensures srv.Valid()
      ensures (State(), srv.State(), ok) == ClientWrite(old(State()), old(srv.State()), p, fault)
    {
      var sector := ToSector(p);
      var r := srv.WriteSector(txID, p, fault);
      if r != Wrote {
        return false;
      }
      sectorSize := AddU16(sectorSize, 1);
      sectorTipHash := SerialHashSector(sector, sectorTipHash);
      ok := true;
    }

    method Commit(w: World, srv: RpcServer, locker: NameLocker.MultiLocker, sign: Seal -> Signature, now: Time)
      returns (ok: bool)
      requires isOpen && !isCommitted && srv.Valid() && NameLocker.Clean(locker.inUse)
      modifies this, srv, srv.db, srv.pos.Keys, srv.owner.Keys, locker
      ensures srv.Valid() && locker.inUse == old(locker.inUse)
      ensures State() == old(State()).(isCommitted := ok)
      ensures var n, sig := old(srv.State()), sign(Seal(name, old(epochHeight), old(sectorSize), old(sectorTipHash), Zero));
              var r := OnCommit(w, n, HonestReq(old(State()), sig), now, AllPut, Busy(n, old(txID), old(locker.inUse)));
              srv.State() == r.0 && ok == r.1
    {
      var sig := sign(Seal(name, epochHeight, sectorSize, sectorTipHash, Zero));
      assert Narrow(txID, epochHeight, sectorSize, sectorTipHash, sig) == HonestReq(State(), sig);
      ok := srv.Commit(w, locker, txID, epochHeight, sectorSize, sectorTipHash, sig, now, AllPut);
      Mark(ok, srv);
    }

    method Mark(ok: bool, srv: RpcServer)
      requires srv.Valid()
      modifies this`isCommitted
      ensures srv.Valid() && srv.State() == old(srv.State()) && isCommitted == (old(isCommitted) || ok)
    {
      if ok {
        isCommitted := true;
      }
    }
  }
}
