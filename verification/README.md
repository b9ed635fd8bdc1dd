# Unix systems code, modelled and proved

This project models the parts of the repository that hold real data structures and
protocols, and proves what they are for.

- **The on-disk key/value store** (`apue.3e/db/db.c`). Hash chains and a free list are
  decimal pointers inside an index file, data records lie in a second file, and deleted
  records are used again in place. `Ascii`, `Layout`, `IndexCodec` and `IndexFile` model
  the bytes, `Chains` the linked lists, `DbStore` and `DbSteps` the store and what each
  write does to it, and `Db` the library itself: a class with the handle's fields and both
  files, whose methods read and write bytes as the C functions do. `DbSpace` follows the
  sizes of the files and of the free records, and `DbLimits` says from the operations alone
  which of them ends the process. The main result is that every sequence of calls from a
  fresh database replies like a plain map, up to the first such operation.
- **The same store under concurrent processes.** `DbShared` is a state machine whose
  steps are the lock, read and write calls of one process; `DbInterleave`, `DbFrame`,
  `DbRuns`, `DbReads`, `DbWrites`, `DbAppends`, `DbRelinks` and `DbConcurrent` prove what
  every interleaving keeps, `DbCalls` that each call takes effect once, between its first
  and its last step, and `DbRecords` that every record keeps its place. A process may die
  where `err_dump` can end it.
- **The reference-counted object table** (`mutex2.c`, `mutex3.c`). `RefTable` is the
  table under one lock, where a call is one step; `RefLocks` is the version with a hash lock
  and a lock per object, where a step is a lock, an unlock, a test, a pointer that is read
  or written, or a count that goes up or down. `RefInv`, `RefSteps`, `RefMoves`, `RefRuns`,
  `RefRefine`, `RefConcurrent` and `RefCalls` prove that the second is the first, call by
  call, and what its references are good for.
- **The semaphore life cycle** (`semaph.c`). `SemSet` has the three members, the undo
  adjustments of every process, and the exit of a process at any step; `SemInv` and
  `SemRuns` prove what the members say, `SemRemoval` when a set goes while it is used, and
  `SemRaces` has the runs in which it does.
- **The directory watch cache** (`inotify_dtree.c`). `DirPath` relates pathnames to
  directories, `DirCache` the slots of the cache to a directory tree, and `DirMonitor` is
  the monitor with its event loop.
- **Smaller kernels.** `SpoolQueue` and `SpoolRuns` (the print spooler's job list and its
  two kinds of thread), `TreeWalk` (the recursive walk over one path buffer), `PassFd` (the
  two-byte protocol of `send_fd`, `send_err` and `recv_fd`), `RunMerge` (the merge of sorted
  runs) and `MemStream` (a stdio stream on memory). `Values` has what the models share.

Calls that end the process (`err_dump`, `err_quit`, `err_sys`) are outcomes of the models.
Where a documented promise and the code differ, the models follow the code. Five promises
fail, and each is proved to hold exactly under a condition:

- `db_rewind` and `db_nextrec` give every record. `Db.BlankKeyHidden` is a key they pass
  over, and `DbStore.ListingIsContents` and `Db.RunAndList` say exactly what they give.
- A set in use is not removed. `SemRaces.OpenRaces` is a run in which it is, because
  `sem_open` takes no lock, and `SemRaces.CloseTwice` one in which a process closes once too
  often. `SemRemoval.RemovalHurtsIff` says when `sem_close` does that and
  `SemRemoval.DirectRemovalHurtsIff` when `sem_rm` does.
- A memory stream seeks like a file. `MemStream.SeekWraps` is a seek that a conversion to
  `int` sends to the wrong place, and `MemStream.RunAgreesIff` says which runs have one.
- What `send_err` sends, `recv_fd` returns. `PassFd.SplitTail` is a message that it gives up
  on. `PassFd.RoundTrip` holds exactly for streams that keep the two bytes of the tail
  together, and `PassFd.FullBuffers` says for which lengths of message that is so.
- `merge` sorts. `RunMerge.Stray` is an input with `LONG_MAX` that it does not sort, and
  `RunMerge.Merge` says exactly which inputs it does.

A sixth is a matter of constants: `TreeWalk.DoublingSuffices` says from which size on
doubling the path buffer once is enough.

## Model

| member | source | states |
|---|---|---|
| `Ascii.AtolPadded` | apue.3e/db/db.c:323-337 | reading back a space-padded decimal field gives the number that was printed into it, for every number and width |
| `IndexCodec.RoundTrip` | apue.3e/db/db.c:343-418 | reading an index record that was written gives the same pointer, key, data offset and data length, whatever follows it in the file, if and only if the key has no separator |
| `IndexCodec.RewritePtr` | apue.3e/db/db.c:618-631 | overwriting only the pointer field leaves key, offset and length as they were |
| `IndexCodec.SameSize` | apue.3e/db/db.c:690-698 | a record written over a free one with equal key and data lengths and the same data offset has exactly the same number of bytes |
| `IndexFile.ReadHead` | apue.3e/db/db.c:323-337 | the pointer at the offset of hash chain i is the head of list i |
| `IndexFile.ReadRec` | apue.3e/db/db.c:343-418 | decoding at the offset of record j gives record j and ends where record j+1 begins |
| `IndexFile.WriteHead` | apue.3e/db/db.c:618-631 | writing a head pointer changes that head and nothing else of the file |
| `IndexFile.WriteRec` | apue.3e/db/db.c:567-612 | writing a record of equal length at the offset of record j replaces record j and moves nothing |
| `IndexFile.WriteRecPtr` | apue.3e/db/db.c:618-631 | writing a pointer at the offset of record j changes that record's pointer and nothing else |
| `IndexFile.AppendRec` | apue.3e/db/db.c:590-612 | a record appended is the last record, and all offsets stay |
| `Chains.UnlinkGood` | apue.3e/db/db.c:516-522 | giving the cell before a record that record's pointer takes it off its list: all lists stay acyclic, disjoint and linked |
| `Chains.PushGood` | apue.3e/db/db.c:695-697 | a record that points to the old head and becomes the head is first on its list: all lists stay acyclic, disjoint and linked |
| `DbStore.OnChain` | apue.3e/db/db.c:259-301 | a key is in the database if and only if a record on the chain it hashes to has it |
| `DbStore.ListingIsContents` | apue.3e/db/db.c:835-873 | the records with a key that is not blank, in file order, are the bindings with such a key, each exactly once, if and only if no record off the lists has one; they are all bindings if and only if moreover no key is blank |
| `DbSteps.KillValid` | apue.3e/db/db.c:463-525 | blanking a record and moving it to the free list removes its key and nothing else, and keeps every structural property |
| `DbSteps.OverwriteValid` | apue.3e/db/db.c:531-560 | writing data over a record's region changes that record's data and no other's |
| `DbSteps.AddRecValid` | apue.3e/db/db.c:675-688 | appending data and index record adds a region of its own and disturbs no other |
| `Db.Handle.ReadPtr` | apue.3e/db/db.c:323-337 | the number in the seven bytes at the offset, or the process ends if they are not there |
| `Db.Handle.ReadIdx` | apue.3e/db/db.c:343-418 | the handle describes the record decoded at the offset; end of file is -1 only when reading on; every malformed record ends the process |
| `Db.Handle.ReadDat` | apue.3e/db/db.c:424-436 | the data of the current record without its newline, or the process ends |
| `Db.Handle.WriteDat` | apue.3e/db/db.c:531-560 | the data and a newline go to the offset, or to the end of the file |
| `Db.Handle.WriteIdx` | apue.3e/db/db.c:567-612 | the encoded record goes to the offset, or to the end; a pointer or length out of range ends the process |
| `Db.Handle.WritePtr` | apue.3e/db/db.c:618-631 | the pointer goes to the offset; one out of range ends the process |
| `Db.Handle.HashOf` | apue.3e/db/db.c:306-316 | the loop computes the positional sum in an unsigned long, modulo the number of chains |
| `Db.Handle.FindAndLock` | apue.3e/db/db.c:259-301 | it finds the record if and only if the key is bound, and leaves the offset of the pointer to it |
| `Db.Handle.DoDelete` | apue.3e/db/db.c:463-525 | the map loses exactly this key, and both files keep their length |
| `Db.Handle.FindFree` | apue.3e/db/db.c:752-805 | it takes a record off the free list if and only if one has these key and data lengths; the map stays |
| `Db.Handle.Reuse` | apue.3e/db/db.c:689-699 | rewriting a free record in place binds the key to the data |
| `Db.Handle.Append` | apue.3e/db/db.c:675-688 | appending binds the key to the data, or the process ends, exactly when the record does not fit its fields |
| `Db.Handle.Fetch` | apue.3e/db/db.c:233-253 | the value bound to the key, or nothing if it is not bound |
| `Db.Handle.Delete` | apue.3e/db/db.c:440-457 | 0 and the key is gone if it was bound, -1 and no change otherwise |
| `Db.Handle.Store` | apue.3e/db/db.c:637-746 | for each flag the code and the new contents of a plain map, and exactly when the process ends instead |
| `Db.Handle.Create` | apue.3e/db/db.c:134-164 | a new database is empty, with all lists empty |
| `Db.Handle.Rewind` | apue.3e/db/db.c:812-828 | the position is that of the first record |
| `Db.Handle.NextRec` | apue.3e/db/db.c:835-873 | the next record whose key is not blank, with its data, or the end |
| `Db.Handle.Enumerate` | apue.3e/db/db.c:812-873 | a rewind and calls up to the end give the listing of the file, which is the map's bindings exactly under those conditions |
| `Db.Handle.Perform` | apue.3e/db/db.c:233-805 | one operation of any kind: reply, contents and sizes afterwards are those foretold by the map and the sizes before, or the process ends, exactly when they say so |
| `DbSpace.ImageLen` | apue.3e/db/db.c:590-612 | the sizes that are followed are the real length of the index file |
| `DbSpace.AppendIff` | apue.3e/db/db.c:675-724 | whether a store has to append depends only on the map and on the sizes of the free records |
| `DbLimits.NeverHalts` | apue.3e/db/db.c:567-652 | a bound a caller can add up beforehand, on the lengths of keys and data, under which no operation of a run ends the process |
| `DbLimits.LimitsBite` | apue.3e/db/db.c:579-652 | no data, a key that is too long, and no key with data that is too short each end the process |
| `Db.Run` | apue.3e/db/db.c:233-805 | every sequence of store, delete and fetch from a fresh database replies as a plain map does up to the first operation that the sizes say ends the process, if there is one; the process ends there and nowhere else; the files have the lengths foretold and hold that map in gap-free well-formed records, less the key of a store that ended the process when it had to append |
| `Db.RunAndList` | apue.3e/db/db.c:812-873 | after every sequence of operations, a walk through the file gives the bindings of the map whose keys are not blank, each once, and so all of them if and only if no key is blank; after one that has ended the process another process gets the same if and only if the last store did not come as far as the last pointer, with a key that is not blank |
| `Db.BlankKeyHidden` | apue.3e/db/db.c:858-864 | a key of one blank that is stored and bound, and is not among those |
| `DbConcurrent.InvNext` | apue.3e/db/db.c:463-805 | every step of every process keeps the invariant |
| `DbConcurrent.RunInv` | apue.3e/db/db.c:463-805 | it holds in every state of every run of any number of processes |
| `DbConcurrent.RepliesAreLinear` | apue.3e/db/db.c:637-805 | every reply is that of a plain map after the calls logged before it, in one order for all processes |
| `DbConcurrent.FetchReadsBinding` | apue.3e/db/db.c:239-252 | the record a fetch is about to read holds exactly the value bound to its key |
| `DbCalls.StepsOnce` | apue.3e/db/db.c:233-746 | no step logs anything but its own call, once, on the way to a return, or the binding that a dying replacement has lost; only a call that has been logged returns |
| `DbCalls.TakesEffectOnce` | apue.3e/db/db.c:233-746 | between the step that starts a call and the step that returns from it exactly one step of the process appends to the log: the call's operation and reply, at the place it returns with, and the reply is the map's there |
| `DbCalls.RealTimeOrder` | apue.3e/db/db.c:233-746 | a call that returns before another starts takes effect before it |
| `DbRecords.RecordsKeepApart` | apue.3e/db/db.c:463-612 | every index record is on exactly one list or in exactly one process's hand, or nowhere, and that if and only if a process died with it in hand, which is dead still; no two data regions overlap; a list nobody has locked is linked up |
| `DbRecords.LostApart` | apue.3e/db/db.c:567-612 | two records are never lost with one process |
| `DbRecords.NothingLost` | apue.3e/db/db.c:463-805 | while nobody has died every record is on a list or in a hand |
| `DbConcurrent.NoDeadlock` | apue.3e/db/db.c:483-559 | no set of calls is stuck: of any calls in progress that wait for none but each other one can take a step |
| `DbConcurrent.SomeCallGoesOn` | apue.3e/db/db.c:483-559 | so while a call is in progress some call in progress can take a step |
| `RefMoves.PublishStep` | apue.3e/threads/mutex2.c:33-36 | linking a new object in keeps the invariant |
| `RefMoves.GainStep` | apue.3e/threads/mutex2.c:45-50 | counting up under the object lock keeps count and references equal |
| `RefMoves.LoseStep` | apue.3e/threads/mutex2.c:80-103 | counting down when the count is not 1 keeps them equal |
| `RefMoves.CutStep` | apue.3e/threads/mutex2.c:86-95 | unlinking at the last release leaves no reference and all chains linked |
| `RefMoves.DisposeStep` | apue.3e/threads/mutex2.c:96-99 | freeing keeps the invariant |
| `RefRuns.InvNext` | apue.3e/threads/mutex2.c:19-104 | every step of every thread keeps the invariant |
| `RefConcurrent.RunInv` | apue.3e/threads/mutex2.c:19-104 | it holds in every state of every run |
| `RefConcurrent.StepMeans` | apue.3e/threads/mutex3.c:19-90 | every step is one step of the one-lock table or invisible to it; every call reports its event once, with its result, and returns only when it has |
| `RefConcurrent.RefinesOneLock` | apue.3e/threads/mutex3.c:19-90 | every run maps to a run of the one-lock table with the same find results and frees |
| `RefConcurrent.ReferencesKeepObjects` | apue.3e/threads/mutex2.c:44-104 | in every state a count is the number of references, and an object with a reference is on its chain |
| `RefConcurrent.FreedUntouched` | apue.3e/threads/mutex2.c:68-104 | no thread touches a freed object, and when one is destroyed nobody else is at it or refers to it |
| `RefConcurrent.FreedOnce` | apue.3e/threads/mutex2.c:96-99 | no object is freed twice in a run |
| `RefConcurrent.LastReleaseFrees` | apue.3e/threads/mutex2.c:84-99 | in every state an object without references has been freed, or exactly one thread is about to free it |
| `RefConcurrent.DoomedGoesOn` | apue.3e/threads/mutex2.c:95-99 | that thread is never kept waiting, stays with the object, and its last step frees it |
| `RefConcurrent.NoDeadlock` | apue.3e/threads/mutex2.c:52-104 | no set of calls is stuck: of any calls in progress that wait for none but each other one can take a step |
| `RefConcurrent.SomeCallGoesOn` | apue.3e/threads/mutex2.c:52-104 | so while a call is in progress some call in progress can take a step |
| `RefCalls.ReportsOnce` | apue.3e/threads/mutex2.c:19-104 | between the step that starts a call and the step that returns from it exactly one step of the thread reports an event, and it is that call's, with its argument; the others mean nothing, except that the return from a last release frees |
| `SemRuns.InvNext` | apue.3e/lib/semaph.c:89-253 | every call and every exit keeps the invariant while [1] has room for the counts |
| `SemRuns.RunInv` | apue.3e/lib/semaph.c:89-253 | it holds in every state of every run |
| `SemRuns.MembersConserved` | apue.3e/lib/semaph.c:49-75 | member [1] and its adjustments make BIGCOUNT once it is set and 0 before, and count the uses less the closes that were too many; member [2] and its adjustments make 0, with at most one holder; if nobody closes too often there are no such closes and no negative adjustments |
| `SemRuns.DumpsIff` | apue.3e/lib/semaph.c:243-249 | the check for [1] above BIGCOUNT fires exactly when the set has been closed too often by more than it is used, so never if nobody closes too often |
| `SemRuns.UsesHeld` | apue.3e/lib/semaph.c:49-75 | what a process uses is what it has created and opened less what it has closed, and what it has closed beyond that is counted, in every run |
| `SemRuns.InitialisedUnused` | apue.3e/lib/semaph.c:138-153 | member [0] is given an initial value only while nobody uses the set, in every run |
| `SemRuns.HolderRuns` | apue.3e/lib/semaph.c:124-162 | a process with the lock is never kept waiting |
| `SemRuns.RemovedUnused` | apue.3e/lib/semaph.c:222-253 | without sem_open and direct sem_rm, and if nobody closes a set more often than they have created it, a set is removed only when nobody uses it |
| `SemRemoval.RemovalHurtsIff` | apue.3e/lib/semaph.c:188-253 | sem_close removes a set in use exactly when a sem_open of it got through after the closer's own test of [1], or somebody used it at that test already, and has not ended since; the second only when it had then been closed too often, exactly as often as it was used |
| `SemRemoval.DirectRemovalHurtsIff` | apue.3e/lib/semaph.c:207-212 | a direct sem_rm removes a set in use exactly when a process that has not ended has created or opened it and not closed it since; if nobody closes too often the caller can see that beforehand: [1] lies strictly between 0 and BIGCOUNT |
| `SemRaces.OpenRaces` | apue.3e/lib/semaph.c:188-196 | a run in which sem_open loses the set it has just opened |
| `SemRaces.CloseTwice` | apue.3e/lib/semaph.c:222-253 | a run without sem_open in which a process closes a set twice and takes it from under another |
| `SemRaces.CloseDumps` | apue.3e/lib/semaph.c:243-249 | a run in which a closer finds [1] above BIGCOUNT |
| `DirPath.UnderIsPrefix` | tlpi-dist/inotify/inotify_dtree.c:639-641 | the character test finds exactly the directories below, given roots that are not nested |
| `DirPath.RewriteIsMove` | tlpi-dist/inotify/inotify_dtree.c:638-650 | rewriting the prefix of a pathname is moving the directory |
| `DirPath.JoinChild` | tlpi-dist/inotify/inotify_dtree.c:811-812 | the pathname of a directory's child |
| `DirCache.Exact` | tlpi-dist/inotify/inotify_dtree.c:176-187 | an exact cache has one slot for each directory and no other, with distinct descriptors and paths |
| `DirCache.RewriteSyncs` | tlpi-dist/inotify/inotify_dtree.c:623-651 | rewriting all cached paths makes the cache exact for the tree with the directory moved |
| `DirCache.ZapSyncs` | tlpi-dist/inotify/inotify_dtree.c:657-709 | zapping makes it exact for the tree without the subtree |
| `DirCache.AddSyncs` | tlpi-dist/inotify/inotify_dtree.c:537-567 | a watch and a slot for a new directory make it exact for the tree with it |
| `DirMonitor.Monitor.FindWatch` | tlpi-dist/inotify/inotify_dtree.c:233-243 | the first slot with the descriptor, or -1 if none has it |
| `DirMonitor.Monitor.FindEmptySlot` | tlpi-dist/inotify/inotify_dtree.c:291-314 | the first unused slot, of a cache longer by 200 unused ones if there was none |
| `DirMonitor.Monitor.WatchSubtree` | tlpi-dist/inotify/inotify_dtree.c:582-614 | the cache becomes exact for the tree with the subtree |
| `DirMonitor.Monitor.RewriteCachedPaths` | tlpi-dist/inotify/inotify_dtree.c:623-651 | the loop rewrites every slot's path |
| `DirMonitor.Monitor.ZapSubtree` | tlpi-dist/inotify/inotify_dtree.c:657-709 | the loop empties the slots below the path and drops their watches, and fails only at a descriptor that is not watched |
| `DirMonitor.ZapSucceeds` | tlpi-dist/inotify/inotify_dtree.c:688-699 | with an exact cache it never fails |
| `DirMonitor.Monitor.Reinitialize` | tlpi-dist/inotify/inotify_dtree.c:719-759 | whatever the tree is, the new cache is exact |
| `DirMonitor.Monitor.ProcessNext` | tlpi-dist/inotify/inotify_dtree.c:768-1082 | after the events of a change the cache is exact again, without a rebuild unless events were lost; an unmatched rename at the end of the buffer is left for another read |
| `DirMonitor.Monitor.Ignore` | tlpi-dist/inotify/inotify_dtree.c:780-790 | IN_IGNORED of any descriptors changes nothing |
| `DirMonitor.Monitor.Witness` | tlpi-dist/inotify/inotify_dtree.c:768-1082 | every change of the tree is followed exactly, and the program ends exactly when the change takes the last root |
| `DirMonitor.Run` | tlpi-dist/inotify/inotify_dtree.c:719-1082 | for every sequence of changes, with IN_IGNORED after any of them, the roots are those no change has taken; the program ends at the change that takes the last one and nowhere else; otherwise the cache ends exact for the tree at the end |
| `SpoolQueue.Queue.AddJob` | apue.3e/printer/printd.c:275-294 | the job is at the tail of a properly linked list, whatever its links were |
| `SpoolQueue.Queue.ReplaceJob` | apue.3e/printer/printd.c:301-313 | the job is at the head |
| `SpoolQueue.Queue.RemoveJob` | apue.3e/printer/printd.c:320-331 | the job is gone from wherever it was, and the rest keeps its order |
| `SpoolQueue.Queue.Pick` | apue.3e/printer/printd.c:688-695 | the printer gets the first job, if there is one |
| `SpoolRuns.RunInv` | apue.3e/printer/printd.c:684-840 | the invariant holds in every state of every run |
| `SpoolRuns.JobsConserved` | apue.3e/printer/printd.c:684-840 | the jobs added are, in order, those finished or cancelled, the one in hand and those on the list, despite deferrals; the printer waits with jobs on the list only if a client is about to signal |
| `SpoolRuns.Replay` | apue.3e/printer/printd.c:275-331 | at the end of every run the linked list, worked on by the three list operations, is properly linked and holds the jobs of the queue in order |
| `TreeWalk.FeedStops` | apue.3e/filedir/ftw8.c:93-120 | the calls made are a prefix of the whole traversal, complete unless the last returned other than 0, as none before it did |
| `TreeWalk.DoublingSuffices` | apue.3e/filedir/ftw8.c:96-101 | doubling once makes room behind every path that fits, exactly if the buffer is longer than NAME_MAX |
| `TreeWalk.Walker.Slash` | apue.3e/filedir/ftw8.c:96-103 | the path has a slash behind it and room for any name |
| `TreeWalk.Walker.DoPath` | apue.3e/filedir/ftw8.c:76-121 | the callbacks are those of the pre-order traversal up to the first that returns other than 0, and the buffer holds the path again (with a slash if the directory could not be read) |
| `TreeWalk.Walker.MyFtw` | apue.3e/filedir/ftw8.c:56-68 | the same from the starting pathname, of any length |
| `PassFd.SendErr` | apue.3e/lib/senderr.c:8-24 | message, null and status: the low byte of a negative code, 1 if that is 0 or the code was not negative |
| `PassFd.SendFd` | apue.3e/lib/sendfd.c:27-45 | the two bytes of the tail |
| `PassFd.ScanBuffer` | apue.3e/lib/recvfd.c:54-68 | a null is the last byte but one of a buffer, or the format is wrong |
| `PassFd.RecvFd` | apue.3e/lib/recvfd.c:20-74 | what is handed on and returned, read by read of at most MAXLINE bytes; a read of nothing is the end |
| `PassFd.AnyChunks` | apue.3e/lib/recvfd.c:29-73 | message and tail in any chunks: handed on and decoded if the tail comes together, a format error if not |
| `PassFd.RoundTrip` | apue.3e/lib/recvfd.c:29-73 | recv_fd returns minus the low byte of send_err's code (or -1) and hands on the message exactly if the tail comes together |
| `PassFd.FullBuffers` | apue.3e/lib/recvfd.c:25-45 | for a stream read in full buffers that is so exactly if the length of the message is not one less than a multiple of MAXLINE |
| `PassFd.SplitTail` | apue.3e/lib/recvfd.c:54-57 | a message one byte shorter than the buffer ends in a format error |
| `RunMerge.Least` | apue.3e/threads/barrier.c:68-74 | the run whose next number is least, the first of several; the run of the turn before if no next number is below LONG_MAX |
| `RunMerge.Merge` | apue.3e/threads/barrier.c:59-78 | the output is a sorted permutation if and only if LONG_MAX does not occur, or all of its occurrences come right behind the last of the largest other numbers; the numbers below LONG_MAX come out in order, equal ones in the order of their runs |
| `RunMerge.Stray` | apue.3e/threads/barrier.c:66-76 | an input for which it is not |
| `MemStream.TypeToFlags` | apue.3e/exercises/fmemopen.c:96-138 | exactly the modes r, w or a followed by + and b in any number, and what they mean |
| `MemStream.FindEnd` | apue.3e/exercises/fmemopen.c:140-151 | the first null, or the end |
| `MemStream.Fmemopen` | apue.3e/exercises/fmemopen.c:36-94 | exactly when opening fails, and what the stream starts with |
| `MemStream.Stream.Read` | apue.3e/exercises/fmemopen.c:153-171 | the bytes a file of this content and position gives |
| `MemStream.Stream.Write` | apue.3e/exercises/fmemopen.c:173-204 | for streams that can be read, the content, position and count of a file of this capacity, with the null outside the content; for the others the whole buffer, with the null behind the data or over the last byte; no byte beyond the stream |
| `MemStream.Stream.Seek` | apue.3e/exercises/fmemopen.c:206-229 | the place in the content that the target cut to an int is, or -1 |
| `MemStream.SeekAgreesIff` | apue.3e/exercises/fmemopen.c:212-223 | exactly when that is where a file would go |
| `MemStream.SeekWraps` | apue.3e/exercises/fmemopen.c:212-223 | a target for which it is not |
| `MemStream.RunAgreesIff` | apue.3e/exercises/fmemopen.c:153-229 | a run of reads, writes and seeks is answered as by the bounded file if and only if no seek in it has a target whose low 32 bits are another place in the content |
| `MemStream.Run` | apue.3e/exercises/fmemopen.c:153-229 | a stream for reading and writing answers every run as the bounded file with such seeks does, and so as the file itself exactly under that condition |

## Left out

- Opening and closing the database, memory allocation, error printing and statistics of `db.c`: nothing to prove.
- `db_nextrec` while other processes reuse records: the source writes reused records after it drops the free-list lock, so enumeration is for a database at rest.
- The `sprintf` of `_db_writeidx` whose key argument is its own buffer is modelled by its intended effect, the key it held; for a key that is too long it writes past that buffer before the length is tested, where the model ends the process by the test.
- In the concurrent model of the store a pointer is a record number instead of a byte offset, `_db_readidx`, which reads a record in two calls, is one step, and the length checks of `db_store` before any lock are not steps; the byte level is that of the sequential model.
- DbConcurrent.NoDeadlock: does not cover `db_nextrec`, which holds the free-list lock while it reads, because enumeration is for a database at rest; it waits for no other lock.
- In the object table an object number stands for an address and is not given out again after free, counting up or down, a load and a store under the object's lock, is one step, and the failure of malloc or pthread_mutex_init is left out.
- In the semaphore model one key stands for all, set ids are not reused, and sem_op on member [0] is a step but nothing is claimed of its value.
- SemRuns.MembersConserved: assumes fewer than BIGCOUNT uses at any time, because with that many [1] is 0 and the next sem_create would take the set for a new one, and at most SEMVMX - BIGCOUNT closes too many, because the kernel clamps [1] at SEMVMX.
- SemRuns.InvNext: a process may close any set any number of times, but only by an id that some sem_create or sem_open has returned, because nothing else gives a process an id.
- Signals, timing, logging and commands of `inotify_dtree.c`, unmounting, renames onto an existing directory, roots that are nested or end in a slash or move into another root, and paths longer than PATH_MAX.
- Races between the scan of a tree and other renamers: the source treats them by heuristics.
- DirMonitor.Monitor.Nftw: stands for the library function and gives directories before what is in them, in an order that is otherwise left open.
- Sockets, printer protocol, worker list, signals and configuration of `printd.c`; the list operations under the job lock are one step each in `SpoolRuns`.
- The control data that carries a real descriptor in `sendfd.c` and `recvfd.c`.
- Sorting and the barrier of `barrier.c`: the slices are taken as sorted.
- MemStream.Fmemopen: sizes above INT_MAX are left out, because offsets are kept in an int.
- `rwlock.c`, `List.h`, `c-proxy`, `gcf-input` and the one-page demos: further lists of the same kind, or thin wrappers of system calls.
