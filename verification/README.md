# Footnote blobs: a verified model

A Footnote node keeps, for every name, an append-only blob of at most 4096 sectors of 256
bytes. Each sector hash covers the sector and the hash before it; the owner signs name,
epoch, size and tip. Nodes announce sizes to each other, fetch the sectors they miss,
re-hash what they hold and store the signed header next to a table of all prefix hashes.
An owner publishes through an RPC session that mirrors the node's transaction.

The Dafny modules here model that machinery and prove what it is for:

- **Content** (`HashChain`, `BlobTx`, `BlobHash`, `HeaderStore`, `PutFaults`): the hash chain, lazily
  cloned transactions over a shared file, re-hashing, and the header store with its partial writes.
- **Replication** (`Syncer`, `SectorServer`, `Updater`, `StoredContent`, `Convergence`,
  `Equivocation`): one payload per sync, signed content only, convergence of replicas along any
  relay, and exactly which equivocation proofs convict.
- **Epochs** (`Epoch`, `EpochLog`, `EpochRules`, `RolloverBurst`, `QueueBans`): epoch arithmetic, the progress
  measure, ban penalties and the rollover rate over whole runs, with the family of runs that
  escapes the rate; and what a ban means together with the queue.
- **Publishing** (`Publisher`, `Rpc`, `SessionRuns`, `SessionRaces`): sessions, commits and the client's mirror of them;
  exactly when client and server stay in step while the rest of the node goes on, and the runs in
  which an honest commit fails.
- **The store over time** (`StoreRuns`, `StoreIndex`, `StoreRaces`, `HeaderRuns`): every handler in every interleaving,
  exactly when the index agrees with the blob, and the runs in which it does not.
- **Concurrent tables** (`NameLocker`, `UpdateQueue`, `PeerMuxer`, `PeerManager`): each a state
  machine at lock granularity with its bounds under all interleavings.
- **Names** (`NameImporter`, `NameGaps`): importing name keys block by block, with every write able to fail.

Objects that the daemon updates in place are classes whose methods are proved against functions
on their state; the theorems about runs are about those functions.

How the outside world enters: a hash is a free term `Node(previous, sector)`, so it is never zero and
has one history; signature checks, name validation and name hashing are functions of a `World`
value; time is Unix seconds, read once per `UpdateBlob`; 16-bit and 32-bit arithmetic wraps
explicitly; storage and network failures are parameters.

`dafny verify dfyconfig.toml` checks the whole project.

## Where code and documentation differ

The model follows the code.

- `UpdateBlob` returns no error on a tip mismatch (protocol/updater.go:261-266); results are stated as
  "a header was stored".
- The stored epoch is the queue item's, the signature was checked at the response's
  (protocol/syncer.go:171, protocol/updater.go:288); `StoredVerifiesWhenEpochsAgree` says when that matters.
- An append stores a zero start time (protocol/updater.go:280-283), so the throttle that comments describe as
  one or two epochs a week does not hold across appends; see `ThrottledUnlessAppended` and `RolloverBurst`.
- A database transaction whose callback fails is committed all the same, and a failing commit is not
  reported (store/store.go:21-39).
- A conflict found during a rollover is recorded against the header of the older epoch
  (protocol/syncer.go:204-224). The proof's two epochs differ, and every node refuses it
  (protocol/sector_server.go:201-204); see `RolloverProofFails`.
- The receiver of a proof checks both signatures but not that the two chains part (protocol/sector_server.go:231-266), so
  two seals of one growing blob pass as well; see `AcceptedProofReal`.
- A ban is meant to cost a week and an epoch (protocol/updater.go:161-176), but bans are never deleted and the queue
  refuses banned names (protocol/update_queue.go:223-229), so only announcements let in before the ban can still take
  effect; see `FrozenOnceDrained`.
- Without a local header the check against future epochs is skipped (protocol/updater.go:159-193); see `RunTimely` and
  `FarFutureSticks`.
- Client and server count sectors in 16 bits and do not stop writing at the blob size; see `WritesInStep` and
  `CountersWrap`.
- The queue compares sizes before epochs (protocol/update_queue.go:155-184), so a newer epoch with fewer sectors
  does not replace a pending entry.
- The name importer logs the confirmed height as its end but stops one block before it
  (protocol/name_importer.go:110-112).
- The RPC handlers of one transaction are not serialised (rpc/server.go:276-370), so a commit can be undercut
  between its check and its publication; see `StoreConsistent` and the runs in `StoreRaces`.
- Committing copies the clone over the base without cutting it (blob/blob.go:87-100), so a longer base keeps its
  tail; see `CommitPublishesView`.

## Model

| member | source | states |
|---|---|---|
| `HashChain.FoldAppend` | blob/hash.go:68-90 | Hashing on from the tip of a prefix reaches the tip of the whole list, so the incremental fold of a payload equals the full re-hash. |
| `HashChain.FoldInjective` | blob/hash.go:68-76 | Equal tips over equally long lists force equal starting hashes and equal sectors. |
| `HashChain.ChainInjective` | blob/hash.go:79-90 | From the zero hash a tip determines the whole list, length included. |
| `HashChain.FoldFromPrefix` | protocol/syncer.go:162-165 | A payload folded from the tip of `prefix` reaches the tip of `whole` if and only if `whole` is `prefix` followed by the payload. |
| `HashChain.Tip` | blob/hash.go:55-66 | The scan returns the entry before the first zero one, or zero for an empty table. |
| `HashChain.TipOfTable` | blob/hash.go:55-90 | The tip of the table built from a list is the chain hash of exactly that list. |
| `HashChain.TableInjective` | blob/hash.go:79-90 | Two lists of at most MaxSectors sectors have equal tables if and only if they are equal. |
| `HashChain.DiffWith` | blob/hash.go:41-53 | Returns -1 exactly for equal tables, otherwise the first index at which they differ. |
| `HashChain.TablesPart` | blob/hash.go:41-53 | On tables of two blobs the first differing entry is the first sector at which the blobs part. |
| `BlobTx.ReadBlobAt` | blob/io.go:12-26 | A sector read succeeds exactly below the blob size and inside the file; at and past the size it is end of file. |
| `BlobTx.WriteFills` | blob/transaction.go:96-113 | One write, torn, refused or done, leaves everything below the cursor as it was and appends the sector only when it reports success; the cursor moves by one modulo 65536. |
| `BlobTx.WriteAllFills` | protocol/syncer.go:235-240 | Of a list of writes carried on past failures, the k that succeed fill exactly sectors cursor to cursor+k-1. |
| `BlobTx.CommitPublishesView` | blob/transaction.go:153-179 | Commit publishes the clone; the file equals the clone if and only if the base was not longer. |
| `BlobTx.LastPublisherWins` | blob/blob.go:71-109 | After any interleaving of operations on any number of transactions, the base holds what the last publishing commit saw (or is removed), and nothing after that commit published; without one it is untouched. |
| `BlobTx.BaseChangesOnlyWhenPublished` | blob/transaction.go:45-231 | No operation but a commit of an open transaction that was initialised or removed changes the base. |
| `BlobTx.SnapshotIsolation` | blob/transaction.go:220-231 | Whatever other transactions do, an idle transaction keeps its state and, once initialised, its view. |
| `BlobTx.PublishesOnce` | blob/transaction.go:153-179 | In any run a transaction publishes at most once. |
| `BlobTx.SeekExactly` | blob/transaction.go:45-64 | Which offsets a seek accepts, which error the others get, and that only a seek from the start moves the cursor. |
| `BlobTx.ReadExactly` | blob/transaction.go:81-94 | A read of an open transaction returns the sector in view exactly below the blob size and inside the file, and leaves the clone behind. |
| `BlobTx.FailedWrite` | blob/transaction.go:96-113 | A torn write leaves the cursor and changes at most the sector under it; a failed clone changes nothing. |
| `BlobTx.ClosedRefuses` | blob/transaction.go:81-218 | A closed transaction refuses reads, writes, commit, rollback and removal; truncation fails only if it had a clone. |
| `BlobTx.RemovedRefuses` | blob/transaction.go:81-218 | A removed transaction refuses reads, writes and truncation, and its commit removes the file. |
| `BlobTx.OpenEnds` | blob/transaction.go:130-218 | What truncation, rollback and removal do to an open transaction. |
| `BlobTx.Transaction.Seek` | blob/transaction.go:45-64 | Refuses misaligned offsets, offsets below the cursor and offsets past the blob size; only seeking from the start moves the cursor. |
| `BlobTx.Transaction.LazyInitialize` | blob/transaction.go:220-231 | Clones the base once; a failed clone changes nothing. |
| `BlobTx.Transaction.ReadAt` | blob/transaction.go:81-94 | Reads see the clone, which is made on the first read; closed and removed transactions refuse. |
| `BlobTx.Transaction.WriteSector` | blob/transaction.go:96-113 | Writes at the cursor and advances it by one (16 bits, wrapping) only on success. |
| `BlobTx.Transaction.Truncate` | blob/transaction.go:130-151 | Leaves a zero-filled clone, the cursor unmoved, and never looks at the closed flag of an uninitialised transaction. |
| `BlobTx.Transaction.Commit` | blob/transaction.go:153-179 | The new base and transaction state in every case, with the panic on a missing file. |
| `BlobTx.Transaction.Rollback` | blob/transaction.go:181-199 | Closes the transaction once; the base is not in its frame. |
| `BlobTx.Transaction.Remove` | blob/transaction.go:201-218 | Marks the transaction removed; a second removal of an initialised one panics. |
| `BlobTx.BlobFile.constructor` | blob/store.go:45-70 | A new blob file is created zero-filled at full size. |
| `BlobTx.BlobFile.ReadAt` | blob/blob.go:50-54 | Reads of the base have the bounds of `ReadBlobAt`. |
| `BlobHash.Reader.Read` | blob/io.go:66-83 | Reads the next sector and advances by one sector on success; past the blob size there is only end of file and nothing is touched. |
| `BlobHash.SerialHash` | blob/hash.go:79-90 | The loop builds the table of exactly the requested sectors or fails; no index leaves the table because the reader ends first. |
| `BlobHash.HashOpOk` | blob/io.go:66-83 | A size that hashes is at most MaxSectors, and its table and tip are those of the first `size` sectors in view. |
| `BlobHash.HashExactly` | blob/io.go:66-83 | A size hashes if and only if it is zero, or the transaction is open, the size fits blob and view, and no read of it fails. |
| `BlobHash.HashedIsPublished` | protocol/updater.go:253-302 | Committing after a successful re-hash publishes the very sectors that were hashed. |
| `NameLocker.RunRefines` | util/multi_locker.go:30-86 | In every run whose releases match earlier grants no key has a writer together with anyone else, and exactly the held keys have a record, counting their holds. |
| `NameLocker.RunAnswers` | util/multi_locker.go:30-86 | After every such run each call is answered as a reader-writer lock would, and it panics if and only if the release is unmatched. |
| `NameLocker.RefinesClean` | util/multi_locker.go:30-86 | Every table such a run reaches holds records of held keys only, which is what the handlers below rely on. |
| `NameLocker.LockUnlock` | util/multi_locker.go:30-63 | Taking and releasing a free key, or being refused, restores the table. |
| `NameLocker.RLockRUnlock` | util/multi_locker.go:41-76 | The same for a shared hold. |
| `NameLocker.MultiLocker.GetLocker` | util/multi_locker.go:78-86 | The key's record, created empty if missing; no other key changes. |
| `NameLocker.MultiLocker.TryLock` | util/multi_locker.go:30-39 | Granted exactly when the key has neither readers nor writers; the record is created either way. |
| `NameLocker.MultiLocker.TryRLock` | util/multi_locker.go:41-50 | Granted exactly when the key has no writer. |
| `NameLocker.MultiLocker.Unlock` | util/multi_locker.go:52-63 | Drops the record, or panics when there is not exactly one writer. |
| `NameLocker.MultiLocker.RUnlock` | util/multi_locker.go:65-76 | Lowers the reader count, drops the record at the last one, panics when there is none. |
| `HeaderStore.Database.ValidateBlobUpdate` | protocol/syncer.go:56-77 | True exactly for a valid, unbanned, known name whose key made the signature over the seal. |
| `HeaderStore.Database.SetHeader` | store/headers.go:192-213 | The new store for each point at which a write can fail: the writes before the failure are kept, and a failed commit goes unreported. |
| `HeaderStore.CountFollows` | store/headers.go:120-131 | The header count stays the number of headers when all writes succeed. |
| `PutFaults.SurvivesExactly` | store/store.go:21-39 | For each way the header write can fail, the index of the name survives the store and the publication if and only if a stated condition on old file, new content and clone holds. |
| `PutFaults.FaultsStrike` | store/headers.go:192-213 | A concrete store for each of the three faults after which the index no longer fits the blob. |
| `Epoch.ModBuffer` | protocol/epoch.go:20-28 | For every buffer and n > 0 the running remainder is the big-endian value modulo n. |
| `Epoch.CurrentEpoch` | protocol/epoch.go:30-36 | The method computes the epoch function that `EpochRule` and `EpochBefore` determine. |
| `Epoch.EpochRule` | protocol/epoch.go:30-36 | A name whose hash is r modulo 168 is in epoch k from k weeks and r hours after 1 January 2020 on, until Go durations saturate at 15250. |
| `Epoch.EpochBefore` | protocol/epoch.go:30-36 | Before its start the quotient is cut toward zero and wraps: epoch 0 in the last week, 65535 in the one before. |
| `Epoch.StartDate` | protocol/epoch.go:30-36 | A name's epochs start less than a week after the epoch date. |
| `Epoch.CurrentBounded` | protocol/epoch.go:30-36 | After the start date the 16-bit result is the true quotient, at most 15250, and adding one does not wrap. |
| `Epoch.CurrentMonotone` | protocol/epoch.go:30-36 | The epoch does not fall as the clock advances. |
| `Epoch.CurrentWeekly` | protocol/epoch.go:30-36 | A week later the epoch is exactly one higher, until Go durations saturate. |
| `Epoch.CurrentWithinWeek` | protocol/epoch.go:30-36 | Within a week it rises by at most one. |
| `Syncer.SyncSectors` | protocol/syncer.go:88-275 | The message loop leaves the transaction, database and result that handling the messages one by one leaves. |
| `Syncer.FoldPayload` | protocol/syncer.go:162-165 | The loop computes the chain hash of the payload from its claimed previous hash. |
| `Syncer.WritePayload` | protocol/syncer.go:235-240 | Every sector is attempted; failed writes are passed over. |
| `Syncer.RecordEquivocation` | protocol/syncer.go:183-234 | Which conflicts are reported, and when a ban and a proof are recorded. |
| `Syncer.OnePayload` | protocol/syncer.go:101-251 | Over every finite sequence of messages one call writes at most one payload; that one has the requested name, position and previous hash, fits in MaxSectors and is validly signed; every other message leaves the transaction as it was. |
| `Syncer.PickedIsWritten` | protocol/syncer.go:253-275 | Whichever success the caller picks up describes the payload that was written. |
| `Syncer.PayloadSizeExact` | protocol/syncer.go:150-159 | With 5 MiB packets the 16-bit sum of position and payload length does not wrap. |
| `SectorServer.OnBlobReq` | protocol/sector_server.go:67-171 | The answer is what the store holds, unless the name is locked by a writer; the lock table is as before, except that a granted read lock is kept exactly when the look-up of the previous hash fails. |
| `SectorServer.PrevHashServed` | store/headers.go:143-152 | On a table that indexes a list, the look-up for a request of size n gives the chain hash of the first n sectors. |
| `SectorServer.ReadTail` | protocol/sector_server.go:154-168 | The loop returns exactly the sectors from the requested one to the header's size, or nothing if they reach past the blob. |
| `SectorServer.TailExactly` | protocol/sector_server.go:152-166 | Which ranges are read, and that each sector comes from its place in the blob. |
| `SectorServer.ServedTail` | protocol/sector_server.go:120-181 | A consistent store serves the requested tail with the chain hash of everything before it, so hashing on reaches its tip and its size. |
| `SectorServer.Unanswered` | protocol/sector_server.go:75-90 | A store without a header for the name, or with one of an earlier epoch than asked for, does not answer. |
| `SectorServer.ProofServed` | protocol/sector_server.go:92-116 | A request at the blob size is answered with the proof on record, if there is one. |
| `SectorServer.ServedPastEnd` | protocol/sector_server.go:123-171 | At and past its size a consistent store answers with an empty payload and the tip or the zero hash, except for the one size that panics. |
| `SectorServer.FailsLockedWhen` | store/headers.go:143-152 | The previous-hash look-up fails if and only if the name has no table or one that ends right before the sector. |
| `SectorServer.OnEquivocationProof` | protocol/sector_server.go:193-281 | Bans the name and keeps the proof exactly when every check passes, otherwise changes nothing. |
| `SectorServer.ProofJudged` | protocol/sector_server.go:193-281 | A proof bans the name and is kept if and only if the name's key signed both seals, written out, they meet in one epoch at one size, the stored header is not ahead, and no ban stands in the way; otherwise nothing changes. |
| `Updater.UpdateBlob` | protocol/updater.go:121-302 | The whole call against its specification: gate, lock, transaction, sync, re-hash, header write and commit; the lock table is restored on every path. |
| `Updater.CheckGate` | protocol/updater.go:125-199 | The refusals in the order the code makes them, or the request to send. |
| `Updater.GateExact` | protocol/updater.go:125-199 | An update goes ahead if and only if it is a first header, more sectors of the same epoch, or a later epoch whose ban, throttle and schedule conditions hold; and what it then asks for. |
| `Updater.RefusalExact` | protocol/updater.go:125-199 | The reason given for each refused update. |
| `Updater.AheadRefused` | protocol/updater.go:221-224 | Under the lock a reset is refused, with nothing changed, if and only if its epoch is more than one ahead of the clock. |
| `Updater.SyncAndStore` | protocol/updater.go:206-302 | The part under the lock, for a plan made from any header, current or stale. |
| `StoredContent.UpdateKeepsIndex` | protocol/updater.go:253-302 | From any plan, messages and sector faults: what an update stores is a header and table that index the blob it publishes, and an update that stores nothing changes neither. |
| `StoredContent.SignedContentOnly` | protocol/syncer.go:162-240 | Whenever a header is written, the blob holds exactly the known prefix followed by the accepted payload, the accepted signature covers the stored size and tip, and no other sector list has that tip. |
| `StoredContent.TipNamesContent` | blob/hash.go:79-90 | A tip is the tip of one list only. |
| `StoredContent.PlanAnchored` | protocol/updater.go:137-199 | The previous hash a plan asks for is the chain hash of the client's own prefix, or zero with a reset. |
| `StoredContent.FaultsBreakIndex` | protocol/updater.go:284-302 | An update's index survives a database fault if and only if the condition of `SurvivesExactly` for that fault holds. |
| `StoredContent.StoredVerifiesWhenEpochsAgree` | protocol/updater.go:284-295 | The stored header verifies if the response's epoch is the queue item's, and with binding signatures only then. |
| `Convergence.FirstAcceptedWins` | protocol/syncer.go:119-251 | The first acceptable response decides, whatever is skipped before it and whatever follows. |
| `Convergence.FirstDecides` | protocol/syncer.go:120-276 | The first response that is not passed over decides what the caller gets: a signature error, an equivocation error or the update. |
| `Convergence.UnknownConflictSilent` | protocol/syncer.go:195-200 | A conflict about a name without a header and proof is passed over without an event. |
| `Convergence.BadResponseAborts` | protocol/updater.go:226-260 | An update whose first response is bad fails with that error and changes no header, table or blob. |
| `Convergence.SilenceCrashes` | protocol/syncer.go:243-276 | An update that nobody answers ends in the nil result of the time-out, or in a failed re-hash for an oversized item. |
| `Convergence.ReplyPasses` | protocol/sector_server.go:120-181 | A good server's reply to the client's request passes every check the client makes and completes the client's prefix to the server's blob. |
| `Convergence.ReplicaConverges` | protocol/updater.go:121-302 | The client stores the server's header and every sector below its size, and becomes a good replica itself. |
| `Convergence.NewNodeConverges` | protocol/updater.go:137-145 | A node that knows only the key becomes a good replica of any good server from one response. |
| `Convergence.RelayConverges` | protocol/updater.go:121-302 | Relayed through any number of nodes, the last one holds the first one's header and sectors. |
| `Convergence.LaterEpochStoredUnverified` | protocol/syncer.go:139-178 | A concrete exchange after which the stored header fails its own signature check. |
| `Equivocation.ProofComesFrom` | protocol/syncer.go:183-224 | A proof that a sync adds is made from the local header and one conflicting message. |
| `Equivocation.ConflictRecorded` | protocol/syncer.go:183-224 | A sync records a ban and a proof if and only if a response conflicts before any is accepted, and then from the first such response and the local header. |
| `Equivocation.UpdateRecords` | protocol/syncer.go:183-224 | The same for a whole update, append or rollover. |
| `Equivocation.RecordedOnce` | protocol/syncer.go:189-194 | With a proof on record nothing further is recorded. |
| `Equivocation.ConflictIsReal` | protocol/syncer.go:183-224 | No append-only history contains both signed chains of such a conflict. |
| `Equivocation.RecordedProofConvicts` | protocol/sector_server.go:201-266 | Every recorded proof carries two valid signatures, passes all checks of any node able to judge it if and only if the update was an append, and is then irreconcilable. |
| `Equivocation.RolloverProofFails` | protocol/syncer.go:183-224 | A concrete rollover that bans its name and keeps and serves a proof which no node, in whatever state, accepts. |
| `Equivocation.AcceptedProofReal` | protocol/sector_server.go:231-266 | The two chains of an accepted proof are irreconcilable if and only if the remote payload does not follow the local tip, which the receiver does not check. |
| `Equivocation.GrowthPasses` | protocol/sector_server.go:231-266 | A concrete pair of seals of one growing blob that passes as a proof. |
| `Equivocation.ConvictionSpreads` | protocol/sector_server.go:90-113 | A convinced node has banned the name and serves the proof to whoever asks; headers and tables are untouched. |
| `EpochLog.WritesProgress` | protocol/updater.go:133-199 | Header writes of a log that keeps the gate's rules are strictly ordered by epoch and then size. |
| `EpochLog.WritesBounded` | protocol/updater.go:133-199 | However long the log, it has no more writes than there are (epoch, size) ranks. |
| `EpochLog.BanPenalty` | protocol/updater.go:161-176 | Every rollover after a ban waits a week from it and skips an epoch. |
| `EpochLog.FourChangesSpanAWeek` | protocol/updater.go:178-193 | Four epoch changes without an append among them span at least a week. |
| `EpochLog.AtMostThreeChanges` | protocol/updater.go:178-199 | In any window of such a log shorter than a week and free of appends at most three epoch changes are accepted. |
| `EpochLog.TimelyIffFirst` | protocol/updater.go:159-193 | All epochs a log stores are at most one ahead of the clock's if and only if the name's first header is. |
| `EpochRules.LogLinked` | protocol/updater.go:121-302 | Every run of updates and received proofs on one name, with a clock that does not go back, leaves a log that keeps the gate's rules. |
| `EpochRules.RunProgress` | protocol/updater.go:133-199 | The progress measure for whole runs of `UpdateBlob`. |
| `EpochRules.RunBanPenalty` | protocol/updater.go:161-176 | The ban penalty for whole runs: at least seven days later and at least two epochs up. |
| `EpochRules.RolloverRate` | protocol/updater.go:178-199 | In any window of a run shorter than a week and free of appends at most three epoch changes are accepted. |
| `EpochRules.ThrottledUnlessAppended` | protocol/updater.go:280-283 | Within a week of an epoch change an update to an epoch not above the current one is throttled if and only if no append was accepted since. |
| `EpochRules.RunTimely` | protocol/updater.go:159-193 | The same for whole runs: the check against future epochs is missing for the first header, and only there. |
| `RolloverBurst.EveryEpochEntered` | protocol/updater.go:280-294 | With appends in between the rate limit fails: every epoch up to the one after the current is entered in the same second. |
| `RolloverBurst.BurstRuns` | protocol/updater.go:121-302 | Those steps are a run in the sense of the rate limit, with the clock standing still. |
| `RolloverBurst.BurstIsPrefix` | protocol/updater.go:121-302 | Epoch e is entered at step 2e of the run, after the steps through all epochs before it. |
| `RolloverBurst.ThreeInAWeek` | protocol/updater.go:178-199 | A run without appends that enters three epochs within two seconds, so the rate is exact. |
| `RolloverBurst.FarFutureSticks` | protocol/updater.go:159-193 | A first header of epoch 65535 is stored at any time, and no run from there ever enters another epoch. |
| `QueueBans.BanKeepsOut` | protocol/update_queue.go:212-231 | Over any run of announcements, workers and proofs a banned name stays banned, no announcement of it is let in, and its header is the old one or that of an announcement let in before. |
| `QueueBans.FrozenOnceDrained` | protocol/update_queue.go:223-229 | Once nothing of a banned name is pending, peers never change its header again. |
| `QueueBans.LetInAtTheDoor` | protocol/update_queue.go:87-150 | An announcement is let in if and only if there is room, the import is complete, it has sectors, its name is valid, known and unbanned, and it is news. |
| `Publisher.OpenInStep` | rpc/blob_writer.go:35-59 | Checking out a consistent blob, or starting it over, puts client and server in step. |
| `Publisher.CheckoutAnswers` | rpc/server.go:221-274 | What a checkout answers: the stored epoch, size and tip or the current epoch; starting over, the epoch after that, and a refusal exactly when the stored epoch is ahead of the clock. |
| `Publisher.SectorBytes` | rpc/server.go:283-284 | Byte i of a written sector is byte i of the data, or zero past its end. |
| `Publisher.WritesInStep` | rpc/blob_writer.go:61-87 | Over any sequence of writes, failing or not, the client's size and tip are the server transaction's cursor and the chain hash of what it holds below it, if and only if the sectors number fewer than 65536. |
| `Publisher.InStepAfterOthers` | blob/transaction.go:220-231 | Whatever others have done since, a session they did not touch is in step if and only if it has its clone already or the blob still starts with its content. |
| `Publisher.AstrayRefused` | rpc/server.go:315-322 | The commit of a client whose server copy starts differently is refused, whatever it signs. |
| `Publisher.OverrunRefused` | rpc/server.go:315-322 | Nor is any commit accepted of a client that has written 65536 sectors or more: its size has wrapped and its tip covers them all. |
| `Publisher.WriteStaysAstray` | rpc/server.go:276-291 | Further writes do not bring such a client back in step; the one that wraps its counters takes it among those of `OverrunRefused`. |
| `SessionRuns.HonestSession` | rpc/server.go:221-345 | With arbitrary other steps between the client's calls, client and server end in step if and only if the blob still started with the checked-out content when the session cloned it and the sectors number fewer than 65536; an honest commit is accepted if and only if besides it fits a blob and its name is free of locks and readers. |
| `SessionRuns.CommitInSteps` | rpc/server.go:293-350 | With nothing in between, the check, store and publish steps of the interleaved model do what the whole commit does, on a busy name and on a free one. |
| `SessionRuns.StartingOverMovesOn` | rpc/server.go:247-257 | An accepted commit of a session that started over stores the epoch after the one checked out, strictly above that of a header that has not moved since. |
| `Publisher.CommitAcceptsExactly` | rpc/server.go:293-350 | The server accepts a sealed list if and only if it fits in a blob, the server's copy starts with it, the name's key signed it, and it finds the name free. |
| `Publisher.HonestCommit` | rpc/blob_writer.go:89-116 | A client in step is accepted if and only if its content is at most MaxSectors and it commits on a free name, and then exactly that content is published and indexed. |
| `Publisher.CommitPublishes` | rpc/server.go:315-350 | Any commit accepted on a free name leaves a header and table that index the published blob. |
| `Publisher.PublishExactly` | rpc/server.go:351-358 | Publishing succeeds if and only if the transaction is open, and only then is its number forgotten. |
| `Publisher.ExpireExactly` | rpc/server.go:77-88 | An expired number is forgotten and its transaction closed; store and blobs stay as they are. |
| `Publisher.NarrowExactly` | rpc/server.go:308-309 | Epochs and sizes of a commit request are cut to 16 bits. |
| `Rpc.RpcServer.Checkout` | rpc/server.go:221-274 | On the database, blob and transaction objects: session, cursor and answer for each case, with the 32-bit counter; a reused number displaces the older session. |
| `Rpc.RpcServer.Open` | blob/store.go:30-70 | One blob object per name; a missing blob is created zero-filled and an existing one is unchanged. |
| `Rpc.RpcServer.WriteSector` | rpc/server.go:276-291 | Data is cut or zero-filled to one sector and written by the session's transaction object; no other transaction changes. |
| `Rpc.RpcServer.Rehash` | rpc/server.go:315-318 | Hashing through a reader object gives the table of what the transaction shows, cloning it if need be. |
| `Rpc.RpcServer.Check` | rpc/server.go:300-329 | The re-hash, tip comparison and seal check made before the name lock. |
| `Rpc.RpcServer.StoreAndPublish` | rpc/server.go:336-357 | Header write, commit of the transaction object and removal of its number, with each failure. |
| `Rpc.RpcServer.Commit` | rpc/server.go:293-370 | Checks, then lock, then store and publish; a busy name leaves only the re-hash's effect; the lock table is restored. |
| `Rpc.RpcServer.Reap` | rpc/server.go:77-88 | An expired transaction is rolled back and its number forgotten. |
| `Rpc.BlobWriter.Open` | rpc/blob_writer.go:35-59 | The client takes over the server's transaction, epoch, size and tip. |
| `Rpc.BlobWriter.WriteSector` | rpc/blob_writer.go:61-87 | The client advances its size and tip exactly when the server reports success. |
| `Rpc.BlobWriter.Commit` | rpc/blob_writer.go:89-116 | The client seals its own size and tip and is committed exactly when the server accepts, on a free name or a busy one. |
| `StoreRuns.CheckSound` | rpc/server.go:309-329 | A commit that passes its checks holds the table of what its transaction shows. |
| `StoreRuns.StepShape` | rpc/server.go:221-370 | Every handler, in any interleaving, keeps blobs at full size, commits under way tied to what they hashed, names held by one commit at a time, and the header count. |
| `StoreIndex.PublishExact` | rpc/server.go:336-350 | Publishing a stored commit leaves the name indexed if and only if the transaction, or the blob if the transaction is closed, still starts with what was checked. |
| `StoreIndex.StoreConsistent` | rpc/server.go:221-370 | Over every interleaving of syncs, proofs, checkouts, writes, checks, stores, publications, expiry and imports, headers and tables index their blobs throughout if and only if no commit is published that no longer stands. |
| `StoreIndex.StandsUnlessDisturbed` | rpc/server.go:276-350 | A commit under way stops standing at exactly these steps: a write below its size that leaves another sector, its transaction's expiry over a blob that starts differently, or another publication once it is closed. |
| `StoreIndex.CarefulRunsConsistent` | rpc/server.go:276-350 | If clients commit no more than they have written and the cursor does not wrap, the index agrees throughout any run if and only if no commit is published after its transaction was closed over another blob. |
| `StoreIndex.CommitFaultsBreakIndex` | rpc/server.go:336-350 | The database faults of a local commit break the index in the same cases as an update's; nothing is rolled back and the session stays. |
| `StoreRaces.EveryRunIndexed` | store/headers.go:192-213 | After every such run from an empty node each header fits a blob, its tip is the chain hash of exactly that many sectors, and its table holds every prefix hash below and zeros above, unless the name's commit is between storing and publishing. |
| `StoreRaces.WriteUnderCommit` | rpc/server.go:276-350 | A concrete run in which a write between check and store leaves a header the blob does not match. |
| `StoreRaces.ExpiryUnderCommit` | rpc/server.go:77-88 | A concrete run in which the transaction expires under its commit and the header is stored without its sectors. |
| `HeaderRuns.EveryHeaderDescribes` | store/headers.go:192-213 | After every run with successful database writes, races included, each header and its table describe exactly one list of sectors, of at most MaxSectors. |
| `HeaderRuns.ShutStaysEmpty` | protocol/syncer.go:56-77 | Over every run, as long as no signature of a name can pass (invalid, listed as banned, unknown, or a key that signed nothing), peers bring it no header, table, ban or proof. |
| `SessionRaces.HonestCommitRefused` | rpc/server.go:221-322 | A concrete run in which a client in step at checkout is refused, because another session published before its first write. |
| `SessionRaces.BusyNameRefused` | rpc/server.go:331-334 | A concrete run that ends with a client in step and its commit refused because another commit holds the name; on a free name it is accepted. |
| `SessionRaces.CountersWrap` | rpc/blob_writer.go:61-87 | A client whose 65536 writes all succeed is back at size zero with the tip of them all, out of step, and can commit nothing. |
| `UpdateQueue.QueueInvariant` | protocol/update_queue.go:87-203 | After any interleaving: the counter is the length, the queue lists exactly the pending names once each, names leave in order of first arrival, a dequeue yields the oldest, reaping is a no-op, and with K callers at most MaxLen+K-1 names are queued. |
| `UpdateQueue.CapacityReached` | protocol/update_queue.go:87-188 | For every limit and number of callers some run fills the queue to that bound. |
| `UpdateQueue.ReapIsNoop` | protocol/update_queue.go:233-246 | No pending entry is ever disposed. |
| `UpdateQueue.SizeNeverFalls` | protocol/update_queue.go:152-188 | While a name is pending its announced size never falls. |
| `UpdateQueue.NewerKeptUnlessAtOdds` | protocol/update_queue.go:152-188 | The newer of entry and announcement is kept if and only if epoch and size do not disagree about which is newer. |
| `UpdateQueue.LetInExactly` | protocol/update_queue.go:87-150 | The screening passes exactly announcements with sectors, of a valid and known name, that are newer than the header. |
| `UpdateQueue.TurnedAwayFor` | protocol/update_queue.go:87-150 | The reason each other announcement is turned away for. |
| `UpdateQueue.InsertExactly` | protocol/update_queue.go:152-188 | Under the lock an outdated announcement changes nothing; any other leaves its sender among the peers of the pending entry, alone if it is new or larger. |
| `UpdateQueue.PeersDistinct` | protocol/update_queue.go:152-188 | After any interleaving every pending name has at least one peer, and none twice. |
| `UpdateQueue.PendingUpdates.Enqueue` | protocol/update_queue.go:87-188 | The length check, the screening in the order the code makes it, and the insertion. |
| `UpdateQueue.PendingUpdates.Put` | protocol/update_queue.go:152-188 | A larger announcement replaces the entry in its place; an equal one adds the peer. |
| `UpdateQueue.PendingUpdates.Dequeue` | protocol/update_queue.go:190-203 | Takes the head of the queue, its entry and its count. |
| `UpdateQueue.PendingUpdates.ReapDequeued` | protocol/update_queue.go:233-246 | The collect-then-delete loops remove exactly the disposed entries. |
| `PeerMuxer.RemoveInPlace` | p2p/peer_muxer.go:257-263 | The loop over the slice it is shifting removes exactly the one element and keeps the order of the rest. |
| `PeerMuxer.ShiftDown` | p2p/peer_muxer.go:257-263 | The copy behind the append moves the tail down one cell and leaves the last cell. |
| `PeerMuxer.IndexesAgree` | p2p/peer_muxer.go:208-263 | In every reachable state the counters count the peers of each direction, the inbound lists partition the live inbound connections by address without duplicates, and every outbound entry is a live outbound connection of its address. |
| `PeerMuxer.OutboundFoundUnlessOverwritten` | p2p/peer_muxer.go:231-250 | Looking up an outbound connection by address works throughout a run if and only if no second outbound connection is opened to an address that has one. |
| `PeerMuxer.SecondOutboundLost` | p2p/peer_muxer.go:208-250 | A concrete run that leaves a live outbound connection without an entry. |
| `PeerMuxer.Muxer.HandlePeerOpen` | p2p/peer_muxer.go:231-250 | Refuses a known identity; otherwise updates table, list or entry, and counter, and keeps the indexes exact. |
| `PeerMuxer.Muxer.HandlePeerClose` | p2p/peer_muxer.go:208-229 | Ignores an unknown identity; otherwise undoes the connection's own entries and keeps the indexes exact. |
| `PeerManager.ConnectionsCapped` | p2p/peer_manager.go:138-315 | Under every interleaving of accepts, dials, failures, completions and closes, live connections plus attempts past the gate never exceed limit + slots - 1 (none for a limit below one), and each semaphore counts the calls in flight. |
| `PeerManager.CappedInNumbers` | p2p/peer_manager.go:138-315 | In numbers: at most maxInbound + 11 inbound and maxOutbound + 4 outbound connections, with 12 and 5 calls in flight. |
| `PeerManager.CapReached` | p2p/peer_manager.go:138-315 | The cap is exact: for every configuration with a limit of at least one, in either direction, some run from the empty node reaches it. |
| `PeerManager.InboundPendingExact` | p2p/peer_manager.go:174-201 | The inbound table always lists exactly the inbound attempts between gate and cleanup, so it is empty when none is in flight. |
| `PeerManager.OutboundPendingExact` | p2p/peer_manager.go:243-287 | The outbound table stays exact throughout a run if and only if every completed dial reached the very address string it dialled. |
| `PeerManager.OutboundEmptyWhenIdle` | p2p/peer_manager.go:243-287 | With no such stray dial the outbound table is empty when no dial is in flight. |
| `PeerManager.StrayLeavesKey` | p2p/peer_manager.go:278-287 | A concrete run: a dial by host name connects, its call is over and its key is still pending. |
| `PeerManager.OrphanStays` | p2p/peer_manager.go:243-287 | Such a key stays pending through every further run, unless a dial reaches the key itself as its remote address. |
| `PeerManager.OutboundFound` | p2p/peer_manager.go:278-315 | Through the manager, outbound connections can be found by address throughout a run if and only if none is completed to an address that has one. |
| `PeerManager.DoubleDial` | p2p/peer_manager.go:243-315 | A run without a stray dial in which the second dial of an address passes the gate and hides the first connection. |
| `PeerManager.BannedKeptOut` | p2p/peer_manager.go:174-270 | Under every interleaving no connection is made with a banned address or our own, if and only if none that passed the gate for another address ends there. |
| `PeerManager.StraightNeverReaches` | p2p/peer_manager.go:138-241 | Inbound connections and dials of plain addresses end where they were gated for, so they never do. |
| `PeerManager.InboundPasses` | p2p/peer_manager.go:174-195 | Exactly which inbound addresses pass the gate. |
| `PeerManager.OutboundPasses` | p2p/peer_manager.go:243-270 | Exactly which dials pass the gate. |
| `PeerManager.UngatedExact` | p2p/peer_manager.go:278-287 | Cleaning up one attempt keeps a table exact if and only if the key removed is the key recorded. |
| `PeerManager.Manager.GateInboundPeer` | p2p/peer_manager.go:174-195 | The refusals in order; the address becomes pending exactly when it passes; a failed ban lookup lets it pass. |
| `PeerManager.Manager.GateOutboundPeer` | p2p/peer_manager.go:243-270 | The refusals in order; the dialled string becomes pending exactly when it passes. |
| `PeerManager.Manager.CompleteConnection` | p2p/peer_manager.go:278-315 | Cleans up first, then refuses the node's own identity or a known one, or opens the connection. |
| `PeerManager.AcceptAlone` | p2p/peer_manager.go:138-172 | The steps of one accept with nothing in between leave both sides as they were, and the muxer too unless the peer joins. |
| `PeerManager.DialAlone` | p2p/peer_manager.go:203-241 | The steps of one dial give its slot back and leave the pending table as it was, unless it completes to another address than it dialled. |
| `PeerManager.Manager.AcceptPeer` | p2p/peer_manager.go:138-172 | The method does what the steps of the state machine do for one call, with the outcome for each path; slot and pending table are as before. |
| `PeerManager.Manager.DialPeer` | p2p/peer_manager.go:203-241 | The same for one dial; the pending table changes only when completion removes another address than the dialled one. |
| `NameImporter.NoteRecords` | protocol/name_importer.go:204-215 | The first loop keeps the latest record of each hash and the hashes in order of first appearance. |
| `NameImporter.ExtractRecords` | protocol/name_importer.go:204-221 | The two loops return the latest record of each hash in that order. |
| `NameImporter.ExtractExact` | protocol/name_importer.go:204-221 | Writing the extracted list leaves the same names as writing all records, on every block, if and only if no two hashes name the same name. |
| `NameImporter.SharedNameBreaks` | protocol/name_importer.go:204-221 | A concrete block, for any two hashes of one name, on which the extracted list leaves the stale key. |
| `NameImporter.ImportFollows` | protocol/name_importer.go:124-157 | Importing the next block, stopped by any failure but a lost commit, leaves every name at its value at the stored height or at the next block and raises the height by at most one; on success by exactly one, with every name at its value there. |
| `NameImporter.BatchesAreSequential` | protocol/name_importer.go:112-160 | Importing in batches is importing one block at a time up to some block, and all the way, for every batch size, when no fetch fails. |
| `NameImporter.NamesFollowChain` | protocol/name_importer.go:75-163 | After any number of calls stopped anywhere, every name has its value at the stored height or already the one the next block gives it. |
| `NameImporter.CleanSyncCatchesUp` | protocol/name_importer.go:75-163 | A call in which nothing fails brings names, height and completion flag exactly to the last block before the confirmed height. |
| `NameImporter.CompleteExactly` | protocol/name_importer.go:144-148 | A call completes the initial import if and only if it imports the last block before its confirmed height and the flag is written. |
| `NameImporter.FailureKeepsWrites` | store/store.go:21-39 | A failing write takes nothing back: the records before it stay, under the old height, and the importer stops. |
| `NameImporter.UnresolvedStops` | protocol/name_importer.go:126-136 | A failing name look-up or transaction stops the importer before anything is written; a block without records needs no look-up. |
| `NameImporter.LostCommitsLeaveGaps` | store/store.go:21-39 | However many commits are lost without an error, the loop goes on, and the names are right at the end if and only if for every name the last block that gives it was not lost. |
| `NameGaps.TryExact` | protocol/name_importer.go:124-158 | One import, failing in any way, leaves no name behind the stored height if and only if it does not move the height past a value the store never got. |
| `NameGaps.NextSkipsNone` | protocol/name_importer.go:111-158 | The block right above the stored height never does that. |
| `NameGaps.GapsOverRuns` | protocol/name_importer.go:75-163 | Any number of calls with any failures, lost commits among them: no name ever falls behind the stored height if and only if no import skips one. |
| `NameGaps.LostForGood` | store/store.go:21-39 | A concrete lost commit: the height moves past the block, and whatever later calls do, its record never arrives. |
| `NameImporter.WorkersMoveOn` | protocol/name_importer.go:112-118 | An iteration of the loop advances if and only if there is at least one worker. |
| `NameImporter.Importer.ImportBlock` | protocol/name_importer.go:126-152 | The loop over the records in one transaction, committed on every path unless the commit is lost. |
| `NameImporter.Importer.ImportBatch` | protocol/name_importer.go:124-158 | The loop over a batch stops at the first block that reports an error. |
| `NameImporter.Importer.DoSync` | protocol/name_importer.go:75-163 | The outer loop over batches, which ends for at least one worker. |

## Left out

- Wire codecs, envelope hashing and the byte layout of seals and stored tables: thin calls into libraries.
- Handshake, sockets, pinger, heartbeats, listener, DNS seeds, peer refilling and outbound bans after failed dials: timers and I/O around the admission machinery that is modelled.
- BLAKE2b, secp256k1 and LevelDB internals: a free term, a function and maps stand for them.
- The sector server's response cache: the uncached path is modelled.
- Gossip of updates and proofs: outgoing messages are not part of the state.
- Paged streams, timed cache reaping, RPC reads and listings, CLI, configuration and logging: easy members.
- Ban-list ingestion and blob removal: they delete blobs without their headers and are not steps of the store's runs.
- A crash between header write and blob commit: no recovery is promised, and runs do not contain it.
- Byte-granular reads and writes inside a transaction (`WriteAt`, `ReadSector`): the sync and publish paths are sector by sector.
- The previous-hash parameter of `SerialHash`: every caller passes the zero hash.
- ParseFNRecord and the covenant decoding of a transaction's outputs: a block is given as its list of key records per transaction.
- Reorganisations below the confirmation depth, and import heights past 2^31 (the store panics there): the confirmed chain is fixed.
- SectorServer.OnBlobReq: the one index at which `GetSectorHash` panics is an outcome of its own, and the response cache is off.
- Updater.UpdateBlob: reads the clock once where the code reads it several times, and takes a timed-out sync, on which the code dereferences nil, as the outcome `Crashed`; messages handled after the caller has picked its result count as handled before it.
- Updater.SyncAndStore: leaves out failures to open the blob or its transaction, which change nothing.
- Syncer.RecordEquivocation: the database writes of ban and proof do not fail.
- BlobTx.Transaction.Truncate: failures to create or size the temporary file are not modelled.
- BlobTx.Transaction.Commit: copying the clone either happens or not; a copy torn half-way, on which the code panics, is not modelled.
- HeaderStore.Database.SetHeader: after a commit that failed, the next database transaction is taken to open as usual; in the LevelDB library a failed commit leaves its transaction open, and what the next one then does is not part of this model.
- NameImporter.LostCommitsLeaveGaps: the same holds for the importer's next block. One call whose imports succeed or are lost; all calls and failures are `GapsOverRuns`.
- Rpc.RpcServer.WriteSector: an unknown transaction, on which the handler panics, changes nothing here.
- Rpc.RpcServer.Commit: the same holds for an unknown transaction here.
- StoreIndex.StoreConsistent: database writes succeed (their failures are `SurvivesExactly`), and a commit's re-hash is one step, although a write may fall between two of its reads; below the cursor that makes no difference.
- SessionRuns.HonestSession: the client's own commit runs with nothing in between its steps (`CommitInSteps`); what can happen there is `StandsUnlessDisturbed`.
- EpochRules.RolloverRate: updates of one name are serial and the clock is past the name's start date.
- QueueBans.BanKeepsOut: local commits, which do not look at bans, are not among its steps.
- PeerMuxer.Muxer.HandlePeerClose: closing the socket and telling observers is not modelled.
- NameImporter.Importer.DoSync: needs at least one worker, since with none the loop does not end (`WorkersMoveOn`); fetching a batch in parallel is one step that succeeds or fails.
