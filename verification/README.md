# NmFS: a verified model

NmFS is a distributed file system over RADOS. A manager leases directories to clients; a client caches the directories
it has leased, edits them in memory and writes the changes back through a journal. This project models the four parts
whose correctness depends on more than one function, and proves what they promise. `dafny verify dfyconfig.toml` checks
all of it.

**Striped object store** (`ObjectNames`, `Striping`, `RadosIo`, `StoreRuns`, `StoreBytes`). A logical file is cut into
4 MiB objects. Every method of `rados_io` is a method of the class `Store`, with the original's cursor loops, backward
size search and removal loops, proved against one flat byte sequence per (category, key); over whole runs, every byte
read is the last word on that byte. RADOS is a map from object names to bytes: a read past the end returns fewer
bytes, truncating an absent object does nothing, there are no I/O errors.

**Journal pipeline** (`Transactions`, `Batching`, `Stages`, `JournalRuns`, `JournalContents`, `Threads`,
`Checkpointing`, `Lanes`, `DentryTables`, `WriteBack`, `WriteBackRuns`, `WriteBackStreams`, `WriteBackFiles`,
`StaleRename`, `LateCalls`, `LocalOps`, `DurableBytes`). Operations on a directory are squashed into an overlay; a
commit thread swaps the map of live overlays, freezes each and routes it to one of eight queues; checkpoint threads
apply them to durable objects. The classes and loops are in `Transactions`, `DentryTables`, `Threads`, `LocalOps` and,
over the object store itself, `Checkpointing`. The interleavings of callers, commit thread and checkpoint threads are
step systems: `JournalRuns` has the calls (two-phase lookup, record, find frozen and retry) and the stations a
transaction passes; `WriteBackRuns` puts LOCAL tables, their mutexes and the file operations on top, and proves,
directory by directory, that table and journal never drift apart, not even when an operation throws; the streams it
records are shown in `WriteBackStreams` to be durable in the same way under every schedule, and `WriteBackFiles`
follows one file from its creation to its INODE object. `DurableBytes` ties the durable side of these runs to the
bytes in the object store.

**Lease protocol** (`LeaseTables`, `LeaseProtocol`, `DirectoryAuthority`). The tables of manager and client are
classes; the protocol is a step system of one manager, many clients and requests and responses that may be delayed,
reordered or lost, under one shared non-decreasing clock.

**Codecs and paths** (`Encoding`, `InodeCodec`, `DentryCodec`, `DentryHistory`, `TxCodec`, `JournalFile`, `Paths`).
Printers and parsers with their loops, proved to be inverse on what the client writes; the path tokenizer and
`path_traversal`, proved against recursive lookup.

A fact that a proof should only look into on request is stated under a trivial predicate (`About`, `Watch`, `Unfold`)
that serves as its trigger.

## What the code does not do as expected

* **A rename does not look at its old name again.** It fetches the inode in one critical section, releases the table's
  mutex and acts in another (client/fs_ops/local_ops.cpp:179-205, client/rpc/rpc_server.cpp:452-475); that removing
  the old name fails there is ignored. If the name no longer stands for that inode, the rename goes ahead: it may
  throw a `logic_error`, which gives the mutex back on its way out and leaves the rest of the rename undone, or leave
  one inode with two names. `StaleRename.RenameThrows` is a run of the first kind, against an unlink;
  `StaleRename.TwoNames` is a run of the second, against another rename and a commit. `RenameLawfulIff` and `RoughIff`
  give the exact condition when the mutex is taken: the old name is there and stands for the inode found. Where every
  operation met its condition, `NoLogicError` and `OneNamePerInode` hold in every reachable state. Where one did not,
  `LogicErrorIff` says exactly which calls throw: removals of a name or a file whose removal the held transaction
  already records; `RenameInjectiveIff` says exactly when a second name is left. Table and journal agree all the same,
  also after an operation threw (`CacheAgreement`). `rmdir_down` removes its name without a look either, and is
  treated alike.
* **A directory's first transaction can be frozen empty.** `get_entry` puts a new transaction in the live map before
  `mkself` is recorded in it. If the commit thread freezes it in between, its checkpoint looks for a DENTRY object that
  the next transaction has yet to create, and throws. `Batching.EarlyEmptyTransactionThrows` is the smallest instance,
  `JournalRuns.FrozenTooEarly` a run that reaches it.
* **Calls can come after `rmself`.** `chreg` and `chself` take the inode's mutex, not the table's; and an operation that
  fetched the table before `rmdir_top` dropped it (client/fs_ops/local_ops.cpp:64-67, 88-99, 301-306) takes its mutex
  afterwards and goes ahead, be it a create or a second `rmdir_top`. If such a call ends up in a later transaction, that
  one's checkpoint finds no DENTRY object. `LateCalls.LateChselfThrows` is a run. `CheckpointThrowsIff` has the exact
  condition, old handles included: a checkpoint throws if and only if the directory's `mkself` had to retry or is still
  in progress, or a removal of the directory is checkpointed already and this transaction is not itself a removal.
* **The self inode can depend on where a commit falls.** An entry operation refreshes only the times of a copy that its
  transaction has taken already, but brings its own copy otherwise. `SelfDependsOnCut`: a `chself` and an entry
  operation with different attributes leave those of the first when both are in one transaction, those of the second
  when a commit falls between them. Hence the condition on the self inode in `BatchingIndependence`.
* **Loading a directory again drops what waits.** After an expired lease `get_dentry_table` erases the table and loads
  the durable DENTRY object while overlays may still wait. `ReloadAgreesIff`: the entries found are the table's if and
  only if, name by name, the last waiting record agrees with what the object says.
* **Entering an existing name.** `local_create` and `local_mkdir` ignore that the table refuses it and journal the entry
  all the same. `ClashDisagrees`, for both: this throws, or the overlay takes the new inode where the table keeps the
  old one.
* **A file in the middle of a path.** `path_traversal` does not reject it: the next name is looked up in the directory
  that holds the file. `TraversalResolves` gives the exact condition, that no proper prefix of the path leads to a
  file; `FileInTheMiddle` is an instance.
* **A path without a delimiter.** `get_filename_from_path` counts an unsigned index down to `>= 0` (util/path.cpp:28),
  so its scan runs off the front of the string instead of reaching the exception below it. The model answers `None`.
* **The self inode in a journal record.** The decoder skips `sizeof(inode)` bytes where the record holds the smaller
  fixed part (client/journal/transaction.cpp:88). The skip is a parameter here: `RoundTrip` needs it to be the recorded
  size, `StrideMustMatch` shows that any larger one loses even a lone self inode.
* **The checkpoint mark.** `checkpoint` clears the first byte of a record, its size, not the valid byte four bytes on
  (client/journal/transaction.cpp:454). `MarkMissesValidByte` states what that does. Framing is therefore claimed for
  journals without checkpointed records.
* **An empty last object.** `truncate` to a multiple of the object size leaves an object of length zero, so the last
  object of a dense file may be empty, and whether `read` returns or throws depends on it; the count never does.

## Model

| member | source | states |
|---|---|---|
| `ObjectNames.ObjectNameInjective` | lib/rados_io/rados_io.cpp:7-28 | distinct (category, key, object number) have distinct object names, for every key, even one containing '#' |
| `ObjectNames.NamesLookLike` | lib/rados_io/rados_io.cpp:7-28 | the five prefixes and the decimal object number after the last # |
| `Striping.ChunkWrite` | lib/rados_io/rados_io.cpp:54-70 | writing inside object i of a dense file is an overlay of the flat file at i * 4 MiB + o, and keeps density |
| `Striping.ChunkCut` | lib/rados_io/rados_io.cpp:97-108 | cutting an object and dropping the later ones cuts the flat file and keeps density |
| `Striping.ChunkRead` | lib/rados_io/rados_io.cpp:30-52 | reading one object is reading that slice of the flat file |
| `RadosIo.Store.WriteObj` | lib/rados_io/rados_io.cpp:54-70 | one object write, never past the end of its object, is the overlay on the flat file; every other file keeps its bytes |
| `RadosIo.Store.WriteSpan` | lib/rados_io/rados_io.cpp:72-95 | the cursor loop shared by zerofill and write overlays all of the data, across object boundaries |
| `RadosIo.Store.LowerBound` | lib/rados_io/rados_io.cpp:198-223 | the backward search returns the file size whenever its result is below the offset, as the comment claims |
| `RadosIo.Store.FillHole` | lib/rados_io/rados_io.cpp:198-225 | the flat file is zero-padded to the offset and otherwise unchanged |
| `RadosIo.Store.Write` | lib/rados_io/rados_io.cpp:191-245 | the new flat file is the data overlaid at the offset after zero-padding; the count is the data's length; density and all other files are kept |
| `RadosIo.Store.ReadObj` | lib/rados_io/rados_io.cpp:30-52 | copies the object's bytes at the offset into the buffer and nothing else; missing exactly when there is no object |
| `RadosIo.Store.Read` | lib/rados_io/rados_io.cpp:161-189 | the count, returned or thrown, is min(len, max(0, size - offset)); that prefix of the buffer is the flat file's bytes and the rest is untouched; when it throws |
| `RadosIo.Store.Exist` | lib/rados_io/rados_io.cpp:247-269 | true exactly for files that exist |
| `RadosIo.Store.Stat` | lib/rados_io/rados_io.cpp:271-299 | the length of the flat file, or none |
| `RadosIo.Store.Remove` | lib/rados_io/rados_io.cpp:301-323 | the file is gone, no object of it is left, all others stay |
| `RadosIo.Store.Shrink` | lib/rados_io/rados_io.cpp:360-386 | the flat file is cut to the offset, density kept |
| `RadosIo.Store.Truncate` | lib/rados_io/rados_io.cpp:325-386 | the flat file is cut or zero-padded to exactly the offset |
| `StoreRuns.Perform` | lib/rados_io/rados_io.cpp:161-386 | each call changes the flat model and replies as the flat model says |
| `StoreRuns.Run` | lib/rados_io/rados_io.cpp:161-386 | every run from the empty store gives the replies and the contents of the flat model |
| `StoreRuns.ReadAfterWrite` | lib/rados_io/rados_io.cpp:161-245 | after any run a write is read back exactly, other ranges and other files read as before |
| `StoreBytes.LastWords` | lib/rados_io/rados_io.cpp:161-386 | after any run each byte of a file is what was written there last since it was last cut off or removed, zero if nothing was, and its size, or that there is no file, follows from the calls alone |
| `StoreBytes.RepliesAreLastWords` | lib/rados_io/rados_io.cpp:161-299 | so every stat, exist and read in a run, holes and cut-off tails included, wherever the objects were split |
| `LeaseTables.LeaseEntry.Cas` | manager/lease/lease_table.cpp:14-30 | grants exactly when the lease has run out or is the caller's already; a lease that has run out passes to the caller for a full period, any other stays as it is; the due and holder reported are the entry's |
| `LeaseTables.LeaseTable.AcquireFound` | manager/lease/lease_table.cpp:45-55 | the hit path: an entry that has run out passes to the caller, any other stays; the caller is told which; the rest of the table stays |
| `LeaseTables.LeaseTable.AcquireInsert` | manager/lease/lease_table.cpp:57-67 | the miss path: insert, or report the entry that another request inserted first |
| `LeaseTables.LeaseTableClient.IsValid` | client/lease/lease_table_client.cpp:44-70 | true exactly for a known, unexpired entry |
| `LeaseTables.LeaseTableClient.IsMine` | client/lease/lease_table_client.cpp:72-91 | true exactly for a known, unexpired entry marked leader |
| `LeaseTables.LeaseTableClient.Update` | client/lease/lease_table_client.cpp:28-35 | only a later due replaces what is known; other entries stay |
| `LeaseTables.AcquireLease` | client/lease/lease_client.cpp:21-51 | no request for a lease already mine; otherwise the answer is learnt and returned, and only a refusal overwrites the address, with the leader's; an exception exactly when the RPC fails |
| `LeaseProtocol.StepKeepsInv` | client/lease/lease_client.cpp:21-51 | whatever a client was told, or is about to be told, stays consistent with the manager's table under every step |
| `LeaseProtocol.MineIsCurrent` | client/lease/lease_table_client.cpp:72-91 | an unexpired entry marked leader is the manager's current due and address |
| `LeaseProtocol.MutualExclusion` | manager/lease/lease_table.cpp:14-68 | in every state of every run at most one client satisfies is_mine for a directory, and it is the manager's holder |
| `LeaseProtocol.CasAnswers` | manager/lease/lease_table.cpp:14-30 | a request that finds the lease expired makes its sender the holder and is answered so; another leaves the holder |
| `LeaseProtocol.GrantedUntilDue` | client/lease/lease_table_client.cpp:28-35 | from the delivery of a granting answer until its due the client satisfies is_mine, whatever late or reordered answers arrive in between |
| `LeaseProtocol.ExpiredLeasePassesOn` | manager/lease/lease_table.cpp:14-68 | in every run an expired lease passes to the client that asks: once answered it holds the directory for the new period, and nobody else does |
| `DirectoryAuthority.ActionKeeps` | client/in_memory/directory_table.cpp:78-195 | lookups, acquisitions, mkdir, erasure and RPC returns keep LOCAL tables tied to leases |
| `DirectoryAuthority.CachedAuthorityIsReal` | client/in_memory/directory_table.cpp:130-166 | whenever the hit-and-valid branch returns a LOCAL table, this client is the manager's current holder and no other client is, although only is_valid was checked |
| `DirectoryAuthority.LocalIffHolder` | client/in_memory/directory_table.cpp:130-166 | a cached table returned without an RPC is LOCAL if and only if this client is the manager's current holder |
| `DirectoryAuthority.ReceivedTable` | client/in_memory/directory_table.cpp:78-128 | a granted acquisition leaves a LOCAL table, a refused one a REMOTE one, or none for a directory being made |
| `Transactions.DirEntries.AddChild` | client/meta/dentry.cpp:21-30 | one name bound, the others kept |
| `Transactions.DirEntries.DeleteChild` | client/meta/dentry.cpp:32-42 | one name removed if there, the others kept |
| `Transactions.Transaction.Apply` | client/journal/transaction.cpp:135-387 | retry exactly when frozen, logic_error exactly in the two incompatible states and with exactly the half-done record it leaves, otherwise the overlay with the operation recorded |
| `Transactions.Transaction.Move` | client/journal/transaction.cpp:234-263 | mvdir, and mvreg with the file it replaces: logic_error with nothing changed exactly when the old name is recorded as deleted, otherwise the old name goes, the new one comes and the replaced file is deleted |
| `Transactions.Transaction.Freeze` | client/journal/transaction.cpp:424-434 | frozen from here on; false for a second commit |
| `Transactions.MergeEntries` | client/journal/transaction.cpp:401-415 | in whatever order the entries are visited, the result is the overlay applied to the base |
| `Transactions.WriteFiles` | client/journal/transaction.cpp:417-421 | in whatever order, exactly the non-null file inodes are written |
| `Transactions.Transaction.SyncTo` | client/journal/transaction.cpp:389-422 | the durable objects after a checkpoint, or the exception for a missing DENTRY object |
| `Batching.RecordStep` | client/journal/transaction.cpp:135-387 | an operation that keeps to the directory's life leaves the overlay describing exactly the difference, wherever its transaction began |
| `Batching.LegalNeverFails` | client/journal/transaction.cpp:187-194 | a legal operation meets no logic_error |
| `Batching.SyncStep` | client/journal/transaction.cpp:389-422 | a checkpoint throws exactly when it neither makes nor removes a directory that is not durable; otherwise the durable objects catch up |
| `Batching.LegalBatch` | client/journal/transaction.cpp:135-335 | no logic_error anywhere in a legal batch |
| `Batching.CheckpointCut` | client/journal/transaction.cpp:374-422 | checkpointing any cut of a stream that keeps to the directory's life succeeds exactly when no transaction is empty before the directory is alive, and ends in the state the stream describes |
| `Batching.BatchingIndependence` | client/journal/transaction.cpp:135-335 | two cuts of one such stream leave the same DENTRY, the same INODE for every file whose last operation is not a removal, and the same self INODE if only mkself and chself change more than its times |
| `Batching.NamedFilesStay` | client/journal/transaction.cpp:374-422 | in a legal stream the last operation on a file still named is not a removal |
| `Batching.EarlyEmptyTransactionThrows` | client/journal/transaction.cpp:393-404 | the empty first transaction whose checkpoint throws |
| `Batching.OverlayIsLastWord` | client/journal/transaction.cpp:135-387 | an overlay holds, for every name and every file, exactly the last that was said of it |
| `Batching.FailsByHistory` | client/journal/transaction.cpp:178-335 | a logic_error exactly when the operation enters a name or file entered or written last in its transaction, or removes one removed last |
| `Batching.EntriesTouchTimes` | client/journal/transaction.cpp:178-335 | within one transaction entry operations change the times of the self inode, to those given last, and nothing else of it |
| `Batching.SelfDependsOnCut` | client/journal/transaction.cpp:163-200 | a chself and an entry operation with other attributes whose two cuts leave different self inodes |
| `Batching.MoveMoves` | client/journal/transaction.cpp:234-263 | a move recorded in an overlay moves one name, refreshes the self inode's times and forgets the replaced file; nothing else changes |
| `Stages.AdvanceOrder` | client/journal/commit.cpp:13-32 | no move of any thread reorders, loses or duplicates a directory's transactions |
| `Stages.AdvanceKeeps` | client/journal/mqueue.hpp:17-37 | queues hold transactions routed to them and, once and last, the sentinel; order is kept |
| `Stages.Drained` | client/journal/checkpoint.cpp:7-16 | a thread that took its sentinel has checkpointed everything ever committed to its queue |
| `Stages.LiveIsNewest` | client/journal/journal_table.cpp:16-36 | the live transaction of a directory is its newest |
| `Stages.RouteIsFirstByte` | client/journal/commit.cpp:22-25 | a transaction goes to the queue given by the lowest byte of its inode number |
| `JournalRuns.StepKeeps` | client/journal/journal.cpp:40-138 | every step keeps the invariant: nothing live is frozen, each call recorded once in its own directory, held transactions no older than what preceded the call |
| `JournalRuns.RealTimeOrder` | client/journal/journal.cpp:100-108 | an operation recorded before another on the same directory began stands earlier, in every later state of every run |
| `JournalRuns.NothingLost` | client/journal/transaction.cpp:424-436 | a finished call stands in exactly one place of one log; a frozen transaction never changes; transactions become durable in creation order |
| `JournalRuns.RetriesAreBounded` | client/journal/journal_table.cpp:38-47 | a call retries at most once per replace_map during it; no live transaction is frozen |
| `JournalRuns.DrainedAtStop` | client/journal/commit.cpp:28-32 | after shutdown of a thread only a live transaction of its directories is not durable |
| `JournalRuns.FrozenTooEarly` | client/journal/commit.cpp:16-26 | for every new directory there is a run in which its first transaction is frozen before mkself is recorded, so that its checkpoint can only throw |
| `JournalContents.DurableIsCheckpointedCut` | client/journal/checkpoint.cpp:7-16 | in every run a transaction is the squash of exactly the calls in its log, those that threw included, and a directory's durable objects are the in-order checkpoint of its finished transactions, and of its finished logs where nothing threw |
| `JournalContents.SchedulesAgree` | client/journal/commit.cpp:7-33 | two runs, however scheduled, that checkpointed the same such stream on a directory, none of which threw, leave the same DENTRY, the same INODE for every file whose last operation is not a removal, and the same self INODE if only mkself and chself change more than its times |
| `Threads.MQueue.Issue` | client/journal/mqueue.hpp:17-23 | appended last |
| `Threads.MQueue.Dispatch` | client/journal/mqueue.hpp:25-37 | once there is something, the first is taken and the order of the others kept |
| `Threads.JournalTable.GetEntry` | client/journal/journal_table.cpp:16-36 | the directory's only live transaction, made empty if there was none |
| `Threads.JournalTable.ReplaceMap` | client/journal/journal_table.cpp:38-47 | all live transactions handed over, none left |
| `Threads.JournalTable.DeleteEntry` | client/journal/journal_table.cpp:8-14 | one directory's live transaction forgotten |
| `Threads.JournalTable.Journal` | client/journal/journal.cpp:100-108 | undisturbed, an operation needs no retry, is recorded in its directory's live transaction and touches no other |
| `Threads.CheckpointLoop` | client/journal/checkpoint.cpp:7-16 | for every directory, its transactions before the sentinel are checkpointed, in order; an exception exactly when one of these checkpoints throws |
| `Threads.DrainedIs` | client/journal/checkpoint.cpp:7-16 | the loop over the queue is, directory by directory, the checkpoint of the transactions before the first sentinel, and fails exactly when one of those fails |
| `Threads.DrainedPerDirectory` | client/journal/checkpoint.cpp:9-15 | directories sharing a thread do not disturb each other: each ends as its own part of the queue leaves it |
| `Checkpointing.Commit` | client/journal/transaction.cpp:424-444 | the transaction is frozen as it stands and one record appended to its directory's journal, which decodes to its entries, its file inodes that are not deleted and its self inode; a second commit throws and changes nothing |
| `Checkpointing.CommitCycle` | client/journal/commit.cpp:16-26 | in whatever order the map is visited, every transaction is frozen unchanged, a record that decodes to it appended to its own directory's journal, and issued once, to the queue of its inode number, and nothing else is issued |
| `Checkpointing.AppendedIsFound` | client/journal/transaction.cpp:3-129 | what a commit appends decodes to the transaction: every entry, every file inode not deleted, field by field, and the self inode if the skip is the recorded one |
| `InodeCodec.CoreRoundTrip` | client/meta/inode.cpp:160-188 | the fixed part of an inode decodes to every field of it, for fields that fit their C types |
| `InodeCodec.LoadInode` | client/meta/inode.cpp:126-136 | no_entry exactly when there is no INODE object; otherwise the inode whose bytes the object begins with |
| `Checkpointing.Mark` | client/journal/transaction.cpp:446-455 | the journal's byte where the record begins becomes zero and no other byte changes |
| `Checkpointing.SyncAlive` | client/journal/transaction.cpp:397-421 | on the store: self inode written, child list loaded, merged and written, file inodes written; the bytes then say what the abstract checkpoint says |
| `Checkpointing.Checkpoint` | client/journal/transaction.cpp:446-455 | on the store: objects that held the durable directory before hold its checkpoint after, it throws exactly when the abstract checkpoint does, only the files of this transaction are touched, and the journal changes in the one byte that marks the record, and only when it does not throw |
| `DurableBytes.ReachableKeyed` | client/journal/transaction.cpp:135-335 | every transaction of every reachable state files its inodes under their own numbers, as committing and checkpointing it on the store requires |
| `DurableBytes.FinishOnStore` | client/journal/checkpoint.cpp:7-16 | the checkpoint in a thread's hands, on the store, throws exactly when the step system has no such step; otherwise the bytes of every directory, not just this one, say what that step leaves |
| `DurableBytes.LoadAtRest` | client/meta/dentry.cpp:5-19 | what a user finds: once a standing directory is at rest, loading its DENTRY object yields the entries of its LOCAL table |
| `DurableBytes.LoadCreated` | client/meta/inode.cpp:126-136 | and loading the inode of a file that a client created there and did not unlink yields one of the inodes given for it since, the one it was created with if there is no other |
| `DentryTables.DentryTable.CreateChildInode` | client/in_memory/dentry_table.cpp:37-52 | name and inode entered together; an existing child left alone with -1 |
| `DentryTables.DentryTable.DeleteChildInode` | client/in_memory/dentry_table.cpp:67-82 | name and inode removed together; -1 if absent |
| `DentryTables.DentryTable.GetChildInode` | client/in_memory/dentry_table.cpp:84-102 | the child's inode or no_entry |
| `DentryTables.DentryTable.CheckChildInode` | client/in_memory/dentry_table.cpp:104-121 | the root for "/", the child's number, or nil |
| `DentryTables.DentryTable.PullChildMetadata` | client/in_memory/dentry_table.cpp:123-140 | in whatever order, the child inodes become exactly those of the loaded names |
| `DentryTables.EditsKeepStep` | client/in_memory/dentry_table.cpp:37-82 | names and inodes stay one map, and insertion and removal undo each other |
| `Lanes.SyncIsOver` | client/journal/transaction.cpp:393-415 | a checkpoint changes the DENTRY object as one overlay step, and throws exactly when there is none to change |
| `Lanes.LiveRecord` | client/journal/transaction.cpp:178-335 | recording an operation in an overlay with no later structural record has its plain effect on the entries recorded so far, whether or not what it removes is there |
| `Lanes.LiveThrown` | client/journal/transaction.cpp:215-232 | a removal that throws leaves the overlays saying, for the entries, what it would have done |
| `Lanes.BrokenKeeps` | client/journal/transaction.cpp:309-332 | the throw of a call, with the mutex released and the half-done record left in place, keeps every agreement of its directory |
| `Lanes.WaitingAgrees` | client/journal/transaction.cpp:393-415 | while no removal of the directory is recorded, the durable entries with the waiting overlays applied are the recorded ones, and the table is one pending change ahead at most |
| `Lanes.FailsIff` | client/journal/transaction.cpp:187-332 | the pending operation of a table's mutex holder meets a logic_error exactly when it is a removal that its transaction already records |
| `Lanes.NeverFails` | client/journal/transaction.cpp:274-332 | never in a directory whose operations were all lawful |
| `Lanes.ClashDisagrees` | client/fs_ops/local_ops.cpp:61-84 | entering an existing name, by mkreg or mkdir, throws, or makes journal and table disagree |
| `Lanes.ThrowsIff` | client/journal/transaction.cpp:393-404 | the next checkpoint throws exactly when mkself is not in the directory's first transaction, or a removal is checkpointed and this transaction is not one |
| `WriteBackRuns.RenameLawfulIff` | client/fs_ops/local_ops.cpp:170-212 | the two or three changes of a same-directory rename are each lawful after the ones before, with or without a replaced file, if and only if the old name still stands for the inode looked up |
| `WriteBackRuns.PlanLawfulIff` | client/fs_ops/local_ops.cpp:61-154 | the changes that each operation makes have their plain effect on the table it finds, and are lawful exactly when what a rename or rmdir_down came for is still in place |
| `WriteBackRuns.StepKeeps` | client/fs_ops/local_ops.cpp:298-348 | every step of file operations, stale renames and old table handles included, of journal calls, also those that throw, of commit and checkpoint threads keeps every directory's agreement |
| `WriteBackRuns.RoughIff` | client/fs_ops/local_ops.cpp:179-205 | an operation spoils a directory if and only if, when it takes the mutex, what it came for is not in place |
| `WriteBackRuns.CacheAgreement` | client/in_memory/dentry_table.cpp:37-82 | in every reachable state the durable entries with the waiting overlays applied in order are the LOCAL table's, up to the one change whose journal call is in progress; the child inodes have the same names and numbers; whatever was stale or threw before, as long as no removal of the directory is recorded |
| `WriteBackRuns.AtRestDurable` | client/journal/checkpoint.cpp:7-16 | once the checkpoint thread of a standing directory has ended, with nothing live and no call in progress, its durable entries are its LOCAL table's |
| `WriteBackRuns.ReloadAgreesIff` | client/in_memory/directory_table.cpp:152-160 | loading a directory again finds the table's entries if and only if there is a DENTRY object and the last waiting record of each name agrees with its binding there |
| `WriteBackRuns.LogicErrorIff` | client/journal/transaction.cpp:215-222 | in every reachable state, after earlier exceptions too, a call holding a transaction that is not frozen throws if and only if it removes what that transaction records as removed |
| `WriteBackRuns.NoLogicError` | client/journal/transaction.cpp:309-332 | it never throws in a directory whose operations all found in place what they came for; chreg on unlinked files included |
| `WriteBackRuns.OneNamePerInode` | client/in_memory/dentry_table.cpp:37-52 | nor does an inode there get two names |
| `WriteBackRuns.CheckpointThrowsIff` | client/journal/transaction.cpp:393-404 | in every reachable state the checkpoint in a thread's hands throws if and only if its directory's mkself was not recorded in the first transaction it fetched, or a removal of the directory is checkpointed and this transaction is not itself a removal |
| `WriteBackStreams.RecordedStreamIsTimely` | client/fs_ops/local_ops.cpp:61-84 | in every reachable state what is recorded on a directory that is not removed begins with mkself, if it was made in this run, and keeps to its life |
| `WriteBackStreams.FileOperationsAgree` | client/journal/commit.cpp:7-33 | two runs of file operations that checkpointed the same stream on a directory, none of whose calls threw, leave the same DENTRY, the same INODE for every file whose last operation is not a removal, and the same self INODE if only mkself and chself change more than its times, however scheduled |
| `WriteBackStreams.TidyThrowsNothing` | client/journal/transaction.cpp:309-332 | no call has thrown in a directory whose operations all found in place what they came for |
| `WriteBackFiles.StepKept` | client/fs_ops/local_ops.cpp:170-348 | every step that does not unlink a file keeps it recorded or about to be, unless something throws, and lets nothing stand for it but an inode some step gave |
| `WriteBackFiles.CreatedFilesDurable` | client/journal/transaction.cpp:417-421 | at rest, in a standing directory where nothing threw, every file created and not unlinked has its INODE, holding an inode that its creation, a rename or a chreg gave |
| `WriteBackFiles.TidyFilesDurable` | client/fs_ops/local_ops.cpp:298-322 | the same where every operation found in place what it came for |
| `StaleRename.RenameThrows` | client/fs_ops/local_ops.cpp:179-205 | a run in which a rename's first journal call throws, its name unlinked between its two critical sections, and the mutex is free again |
| `StaleRename.RenameInjectiveIff` | client/fs_ops/local_ops.cpp:188-205 | a rename leaves one name for each inode if and only if its inode has no third name when it takes the mutex |
| `StaleRename.TwoNames` | client/fs_ops/local_ops.cpp:188-205 | a run, against another rename of the same file that a commit has swapped out, in which nothing throws, every call is recorded and the file ends up with two names |
| `LateCalls.LateChselfThrows` | client/fs_ops/local_ops.cpp:86-102 | for every directory there is a run in which a chself is journalled after the removal has been checkpointed, so that its own checkpoint can only throw |
| `LocalOps.LocalDirectory.Create` | client/fs_ops/local_ops.cpp:298-322 | table, child inodes and overlay all bind the name to the new inode number, and the overlay holds the new inode to be written; a logic_error exactly when the overlay says that the name, or the file, is there |
| `LocalOps.LocalDirectory.Symlink` | client/fs_ops/local_ops.cpp:131-154 | the same; refused, with nothing changed, exactly when the name exists |
| `LocalOps.LocalDirectory.MakeDir` | client/fs_ops/local_ops.cpp:61-84 | table and parent overlay bind the name to the child's number, and the child's own overlay is its mkself and nothing else |
| `LocalOps.LocalDirectory.RmdirTop` | client/fs_ops/local_ops.cpp:86-102 | rmself is recorded, refused with nothing changed when a child is left |
| `LocalOps.LocalDirectory.RmdirDown` | client/fs_ops/local_ops.cpp:104-129 | the name is gone from the table and dead in the overlay, whatever stood there; a logic_error exactly when it was dead already |
| `LocalOps.LocalDirectory.Unlink` | client/fs_ops/local_ops.cpp:324-348 | the name is gone from the table and dead in the overlay, and the file recorded as deleted; refused, with nothing changed, exactly when there is no such name; a logic_error exactly when the name or the file was recorded as gone already |
| `LocalOps.LocalDirectory.RenameFind` | client/fs_ops/local_ops.cpp:179-183 | the first critical section: the inode under the old name, or no_entry |
| `LocalOps.LocalDirectory.Rename` | client/fs_ops/local_ops.cpp:185-211 | the second, whatever has become of the old name: table and overlay lose it, bind the new name to the inode and hold the inode to be written, with a replaced file deleted; a logic_error exactly under the clashes listed |
| `Encoding.UuidTextInjective` | util/uuid.cpp:43-45 | different inode numbers have different keys |
| `DentryCodec.TotalNameLength` | client/meta/dentry.cpp:136-145 | the sum of the name lengths |
| `DentryCodec.Serialize` | client/meta/dentry.cpp:44-71 | the image fills exactly the size computed beforehand |
| `DentryCodec.Deserialize` | client/meta/dentry.cpp:73-101 | the parsing loop is the recursive decoder |
| `DentryCodec.DecodeImage` | client/meta/dentry.cpp:44-101 | a buffer that begins with the image of a child list, visited in any order and followed by any bytes, decodes to that list |
| `DentryCodec.FirstStands` | client/meta/dentry.cpp:73-101 | of several entries with one name in an object the first is the one loaded |
| `DentryCodec.SyncDentry` | client/meta/dentry.cpp:103-110 | whatever was in the object before, it now begins with the list's image; it never shrinks; other files stay; if the image fits one object the list is stored |
| `DentryCodec.LoadDentry` | client/meta/dentry.cpp:5-19 | yields the stored list, stale tail or not; "Dentry Corrupted" for a missing object |
| `DentryHistory.PlayThenLoad` | client/meta/dentry.cpp:5-110 | after any history of syncs of any directories, removals and calls on other files, loading a directory yields exactly the last list synced for it, and throws exactly when there is none |
| `DentryHistory.LastWord` | client/meta/dentry.cpp:103-110 | that list is the last one synced, if no removal came after it |
| `TxCodec.Serialize` | client/journal/transaction.cpp:3-69 | the push_back loops and the patched size produce the record layout |
| `TxCodec.Deserialize` | client/journal/transaction.cpp:71-129 | the parsing loops are the recursive decoder, with -1, the duplicate-key exception and leaving the buffer told apart |
| `TxCodec.SizeIsRecorded` | client/journal/transaction.cpp:62-66 | the first four bytes are the length of the record |
| `TxCodec.RoundTrip` | client/journal/transaction.cpp:3-129 | in any visiting order the record restores exactly the entries and the non-null file inodes, given no self inode or a skip of its recorded size |
| `TxCodec.StrideMustMatch` | client/journal/transaction.cpp:83-89 | for skips of at least the recorded size, a lone self inode is restored if and only if the skip equals it |
| `TxCodec.RepeatedName` | client/journal/transaction.cpp:92-112 | a record that repeats a name ends in the duplicate-key exception, whatever the repeated entry says |
| `TxCodec.RepeatedFile` | client/journal/transaction.cpp:114-127 | and one that repeats a file inode |
| `TxCodec.MarkMissesValidByte` | client/journal/transaction.cpp:446-455 | clearing the first byte leaves the record decodable and changes the size a walk reads |
| `JournalFile.Append` | client/journal/transaction.cpp:436-443 | the record goes to the end of the journal, and its offset is remembered |
| `JournalFile.Walk` | client/journal/journal.cpp:26-37 | the index loop is the recursive walk, and terminates |
| `JournalFile.ReplayFrames` | client/journal/journal.cpp:26-37 | over concatenated records the walk stops at exactly the boundaries and finds the transactions in commit order |
| `JournalFile.Check` | client/journal/journal.cpp:18-38 | on a journal that fits one object, the walk over its bytes |
| `JournalFile.CommitAll` | client/journal/transaction.cpp:424-444 | after any number of commits the journal is the concatenation of their records |
| `JournalFile.CommitThenCheck` | client/journal/journal.cpp:18-38 | after any number of commits and before a checkpoint, check finds exactly those transactions, in order |
| `Paths.SetNameBound` | client/in_memory/directory_table.cpp:6-22 | the bounds of the next name, or -1 at the end |
| `Paths.NamesArePath` | client/in_memory/directory_table.cpp:6-22 | for every absolute path the loop yields exactly its components |
| `Paths.GetParentDirPath` | util/path.cpp:5-18 | everything before the last delimiter, "/" at the top, an exception without one |
| `Paths.GetFilenameFromPath` | util/path.cpp:20-33 | everything after the last delimiter, "/" for the root |
| `Paths.ParentAndName` | util/path.cpp:5-33 | the components of the parent followed by the file name are the components of the path |
| `Paths.SplitRejoins` | util/path.cpp:5-33 | on every string: both answers exist exactly when there is a delimiter, the root is its own parent and name, and otherwise parent, delimiter and a name without one spell the path |
| `Paths.PathTraversal` | client/in_memory/directory_table.cpp:36-76 | the loop over LOCAL tables, name by name |
| `Paths.NotDirectoryIff` | client/in_memory/directory_table.cpp:59-72 | recursive lookup meets a file in the middle exactly when some proper prefix leads to a file |
| `Paths.TraversalResolves` | client/in_memory/directory_table.cpp:36-76 | path_traversal is recursive lookup if and only if no proper prefix of the path leads to a file |
| `Paths.FileInTheMiddle` | client/in_memory/directory_table.cpp:59-72 | "/f/g" with two files f and g at the root resolves to g |
| `Paths.EveryStepEntered` | client/in_memory/directory_table.cpp:36-76 | a lookup that succeeds passes, name by name, through directories this client has and may search |
| `Paths.FirstFailure` | client/in_memory/directory_table.cpp:36-76 | one that fails does so at the first name that cannot be followed, for the reason that stands there |

## Assumptions

* Store: `offset + len` does not overflow; shifts and masks by the object size are division and remainder.
* Leases: clients announce distinct addresses, all read one clock that never goes back, and inode numbers given to
  `lease_dentry_table_mkdir` are new.
* File operations: for what is made, names are absent when the mutex is taken, as the callers check beforehand, and
  inode numbers are new; a rename has two different names; a file's inode is not written (`chreg`) while a rename holds
  its mutex or before the operation that makes it has released the table; a directory is loaded with no two names for
  one inode, and at most once.
* A table stays with the operations that fetched it: any of them may take its mutex after `rmdir_top` has dropped it.
* A `logic_error` ends its operation and releases the table's mutex; a checkpoint's exception ends its thread.
* For the bytes of several directories (`DurableBytes`): a directory or file inode belongs to one directory.
* `mkdir` takes the parent's mutex and makes the new directory meanwhile. The model lets the two journal calls proceed
  independently, which allows every interleaving of the original and more.

## Left out

- RadosIo.Store.Read: says nothing of librados error codes; the connection and its errors are not modelled.
- LeaseTables.LeaseTable.AcquireInsert: reports no holder address, because the original leaves it unset on that path.
- Threads.MQueue.Dispatch: does not model waiting on an empty queue; in the step system `Dispatch` is enabled only when there is something.
- Threads.JournalTable.GetEntry: runs its two phases undisturbed; `JournalRuns` has them as two steps.
- Threads.JournalTable.Journal: is the loop body undisturbed by other threads; the retry loops under interference are the steps Find, Miss, Enter, Log and Retry of `JournalRuns`.
- Threads.CheckpointLoop: works on the abstract checkpoint of each transaction; what one does to the objects, mark included, is `Checkpointing.Checkpoint`.
- DentryTables.DentryTable.GetChildInode: models a LOCAL table; a REMOTE one asks its leader.
- DentryTables.DentryTable.CheckChildInode: models a LOCAL table; a REMOTE one asks its leader.
- WriteBackRuns.CacheAgreement: takes the file operations as the plans of steps that the methods of `LocalOps` are proved to carry out, because it speaks of every interleaving between those steps; a directory is loaded at most once, `ReloadAgreesIff` saying what a second load would find.
- LocalOps.LocalDirectory.Unlink: models the removal of the last link; dropping one of several links is a `chreg`, and removing the data objects is `RadosIo.Store.Remove`.
- LocalOps.LocalDirectory.RmdirTop: dropping the table from the client's index is left to the index's owner.
- LocalOps.LocalDirectory.RmdirDown: dropping the child's own table from the client's index is left to the index's owner.
- TxCodec.Serialize: covers inodes without a link target.
- TxCodec.RoundTrip: holds of inodes without a link target, because the decoder of symlink targets reads the store instead of the record, and with a self inode only for a skip of its recorded size, because by `StrideMustMatch` it is false of any larger one.
- JournalFile.ReplayFrames: needs the recorded stride for records with a self inode, as `TxCodec.RoundTrip` does.
- JournalFile.CommitThenCheck: needs the recorded stride for records with a self inode, as `TxCodec.RoundTrip` does.
- JournalFile.Check: restores transactions; applying them again, journals beyond one object and journals with checkpointed records are not modelled, as recovery is never called.
- Checkpointing.PutInode: covers inodes without a link target; the sync of a symbolic link also writes its target.
- InodeCodec.LoadInode: covers files that are not symbolic links, whose target follows the fixed part, and inodes whose fields fit their C types; a time is one sixteen-byte number.
- InodeCodec.CoreRoundTrip: takes each time as one sixteen-byte number, seconds and nanoseconds together.
- DurableBytes.LoadCreated: inherits the limits of `InodeCodec.LoadInode`.
- Checkpointing.SyncAlive: covers inodes without a link target, and child lists whose image fits one object.
- Checkpointing.Checkpoint: covers inodes without a link target and child lists whose image fits one object, and does not say which of the transaction's files are already written when it throws.
- DurableBytes.FinishOnStore: inherits the limits of `Checkpointing.Checkpoint`.
- Paths.GetFilenameFromPath: answers `None` for a path without a delimiter, where the original's scan leaves the string.
- Paths.PathTraversal: models LOCAL tables; leasing and remote tables during the walk are not part of it.
- gRPC services, remote operations, the FUSE layer, configuration and logging: plumbing around the modelled logic.
- Renames between directories and of directories in durable-state claims: their two transactions may travel in different queues, and a directory's inode is held twice.
- Handing unflushed state from one leader to the next, and a lease that expires during an operation: the original has no mechanism for either.
- Operations still in the live map at shutdown: the commit loop ends without a last swap.
- Removal of INODE objects of deleted files: no checkpoint removes them.
- Permission bits beyond one search check per directory, timestamps, file handles, session numbers: easy members.
