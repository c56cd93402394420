# CloudTieringFS: the shared queue and the tiering protocol, in Dafny

This project models the two protocols at the heart of CloudTieringFS and the data path
between them, and proves what they guarantee.

**The bounded byte-ring queue** (`src/com/queue.c`). `Queue.dfy` is the structure with its
real byte buffer, size headers, strides and offsets, used by one thread at a time.
`QueueMachine.dfy` is the same code shared by any number of threads: every lock, wait,
wake, test, load, single-byte store and unlock is one move. `QueueInvariant.dfy` holds the
inductive invariant; `QueueTheorems.dfy` draws the conclusions (refinement of the bounded
list in `BoundedFifo.dfy`, disjoint copies, no lost wakeup, no deadlock), and
`QueueProgress.dfy` shows that calls end or are left waiting for the other side, and
`QueueCalls.dfy` that every call that ends has done its work or had a reason not to. The ring
arithmetic is shared by both models and lies in `RingLayout.dfy`; `QueueInit.dfy` is the
size arithmetic of `queue_init` in `size_t`.

**The tiering protocol** (`src/app/ops.c`, `src/app/file.c`). `Tiering.dfy` is a machine in
which any number of workers upload and download any number of files: each system call and
each request to the store is one move, may fail, and may be the last thing the worker does.
`TieringInvariant.dfy` and `TieringTheorems.dfy` prove that content is kept and that workers
exclude each other. The moves under which the code does not protect a file are named in
`Tiering.Hazard`; `TieringHazards.dfy` proves for each of them exactly when content
survives, `TieringExact.dfy` that a move is one of them if and only if some continuation
free of them loses a file, and `TieringWitnesses.dfy` that each can be reached from files
at rest. `TieringPaths.dfy` follows a worker through the rest of its call.
`TruncatingOpen.dfy` races an open with `O_TRUNC` against a worker, step by step, and
`OpenSafety.dfy` interleaves the machine with any number of processes that open files.

**The same code as it runs.** `FileOps.dfy` has `upload_file` and `download_file` as methods
that change the files and the store, with every rollback. Each system call is recorded as a
move, and every method maintains that the record is a run of the machine ending in exactly
the present files and objects, so the theorems about all runs apply to the code.
`S3Transfer.dfy` has the data callbacks, the requests in chunks of arbitrary size and the
retry loops of `src/app/s3_ops.c`; `RoundTrip.dfy` composes an upload with a download.
`Library.dfy` is the application's side (`src/lib/syms.c`, `src/lib/open.c`),
`RequestPath.dfy` the request from a process to the daemon, `DaemonLoop.dfy` the consumer of
the queues, `ObjectId.dfy` the naming of objects.

## Assumptions

- Mutexes and condition variables have their meaning in POSIX.1-2008; spurious wakeups are
  allowed, memory is sequentially consistent, bytes are copied in ascending order.
- Extended attribute calls are atomic. A call that fails changes nothing.
- What the program does not decide is an input: which calls fail (`FileOps.World`,
  `Library.View`), how the store answers each request (`S3Transfer.PutReply`, `GetReply`), what
  other threads push and when (`DaemonLoop.Arrivals`). Contracts hold for every such input.
- The store keeps only complete bodies (section 3.4 of RFC 7230) and reports success only
  for what it keeps; it may keep a body although the reply is lost. Requests may end with any
  other status at any moment and use chunks of any size.
- The application writes, through descriptors it has, only local files that no worker is
  transferring (`Tiering.AppWrite`). An open with `O_TRUNC`, of a local or a remote file and at any
  moment, is not bound by that: what becomes of it is a theorem (`TruncatingOpenIff`).
- `S3_MAX_KEY_SIZE` is defined by libs3, which is not part of this model: it is a parameter.

## Where the code does not do what it is meant to do

The model follows the code. Each point is stated as an equivalence or a concrete trace.

Hazards of the transfers. `HazardIff` says that these are all there are: after any other move of
the workers every file stays intact as long as no hazard follows, and after each hazard some
continuation without further hazards loses a file.

- A failing second `ftruncate` removes both attributes after the data is gone: content is
  kept if and only if there was none (`SecondTruncateFails`).
- A failing location probe counts as "local": on a file already remote under the same key the
  sparse bytes replace the object, kept if and only if they still are the content
  (`ProbeErrorOnRemote`). Under another key, or when nothing is stored, no harm is done.
- Retries neither rewind the stream nor reset the length: the result is right if and only if
  earlier attempts moved no bytes (`RetriedUpload`, `RetriedDownload`, and the contracts of
  `S3Transfer.Upload` and `S3Transfer.Download`).
- Paths that agree up to '/' and '-' in the first `S3_MAX_KEY_SIZE` characters share an
  object (`CollisionIff`), and storing one file then replaces the other's content, whether the
  other is a stub already (`KeyCollision`) or about to become one (`KeyCollisionInFlight`);
  content is kept if and only if the stored bytes agree.
- A rollback removes `object_id` before `stub`; cut short in between, the file can be read if
  and only if the first removal had failed (`RollbackCutShort`). Otherwise it is orphaned, and over
  any run it stays so until an upload takes it for local, stores and names it, and then fails to
  take the name back or dies (`OrphanUntilRepaired`).

Opens with `O_TRUNC`. The kernel's truncation, the library's probe and its two removals are separate
steps without the lock.

- A call is safe when no worker is inside the file in any state from its first step to its last:
  the file reads as empty at some moment of the call, and ever after as what the application last
  wrote (`TruncatingOpenIsSafe`).
- It does not suffice that the file is unlocked when the call begins and when it ends: a download
  may run in between, and the old bytes are back (`SplitOpenUndone`). Nor does it suffice that the
  library finds the file local: an upload about to mark it makes it a stub of its old bytes
  (`LocalOpenUndone`).
- Against one worker, anywhere in its call and with the steps in any order, the truncation is undone
  if and only if `Undoes` holds (`TruncatingOpenIff`): an upload has stored old bytes and the opener
  probes before `stub` is set; an upload that took a stub for local has stored its bytes and both
  attributes are gone before it sets `object_id`; an upload is past fstat and has yet to grow the
  file to a length above 0; a download still has bytes to write, or probes before `stub` is removed
  and reads `object_id` before that is removed.
- When the removal of `stub` fails the library still removes `object_id`: the file is left a stub
  that cannot be read (`StubKeptStrands`).

Elsewhere.

- A comment in `queue_init` promises page alignment; `x + x % page` is aligned for two
  remainders only (`AlignedIff`). Its sizes may overflow; the region then is too small
  (`RegionFitsIffNoOverflow`, `OverflowExample`).

## Model

| member | source | states |
|---|---|---|
| Bytes.FrameHeader | src/com/queue.c:191-192 | a stored element's header reads back as the length of the data that follows it |
| RingLayout.SlotsApart | src/com/queue.c:183-195 | elements fewer than `max_size` apart never share a byte of the buffer |
| RingLayout.SlotNext | src/com/queue.c:291-295 | one stride on is the next element's slot, or the end of the buffer when the next slot is the first |
| RingLayout.OffsetsAtRest | src/com/queue.c:183-195 | offsets are whole strides equal to operation counts modulo `max_size`; head never at the buffer end; tail at the beginning or the end if and only if the pushes are a multiple of `max_size` |
| RingLayout.PushStored | src/com/queue.c:187-192 | writing header and data at the next slot adds that element and keeps all others in place |
| RingLayout.HeldElement | src/com/queue.c:275-287 | at a stored element's slot, header and data read back as its length and bytes |
| QueueInit.RegionFitsIffNoOverflow | src/com/queue.c:349-357 | the mapped region holds every slot if and only if the size arithmetic does not overflow |
| QueueInit.OverflowExample | src/com/queue.c:352-357 | concrete capacities for which the last slot lies outside the region |
| QueueInit.AlignedIff | src/com/queue.c:351-354 | when `x + x % page` is a multiple of the page |
| Queue.Queue.constructor | src/com/queue.c:425-437 | an initialised queue is empty and has its layout in the region |
| Queue.Queue.PushCommon | src/com/queue.c:157-207 | succeeds exactly for good arguments and a queue that is not full; then the contents grow by the caller's bytes; otherwise nothing changes; the queue structure's own bytes are never touched |
| Queue.Queue.TryPush | src/com/queue.c:223-225 | never blocks; contents grow by the data or stay |
| Queue.Queue.PopCommon | src/com/queue.c:251-307 | succeeds exactly when there is a front element that fits; then it is copied out byte for byte, removed, and its size returned; a failed try leaves buffer and size alone |
| Queue.Queue.TryPop | src/com/queue.c:326-331 | never blocks; the front element is handed out, or nothing changes |
| BoundedFifo.RunConserves | inc/queue.h:28-35 | over any run of the bounded list, what entered is what left followed by what is inside, in order |
| QueueInvariant.MoveKeepsInv | src/com/queue.c:157-307 | every move of every thread keeps the invariant that links offsets, count, stored bytes, program counters, mutexes and waiters |
| QueueInvariant.RunKeepsInv | src/com/queue.c:157-307 | the invariant holds in every state of every run of any number of threads |
| QueueInvariant.FillByte | src/com/queue.c:187-192 | a byte stored by a producer outside any common lock extends its frame and disturbs no element in the queue |
| QueueInvariant.ReadHeader | src/com/queue.c:275-281 | the header a consumer loads is the length of the front element |
| QueueInvariant.PopCounted | src/com/queue.c:297-301 | when the count is lowered, the bytes the consumer copied are the front element |
| QueueTheorems.MoveRefines | src/com/queue.c:157-307 | each move is a step of the bounded list with the event it shows: a push takes effect where the count is raised, a pop where it is lowered, and a call shows "full", "empty" or "front too long" only when that is so |
| QueueTheorems.RunRefines | src/com/queue.c:157-307 | the events of any run form a run of the bounded list from empty to the present contents |
| QueueTheorems.RunSafety | src/com/queue.c:157-307 | completed pops are a prefix of completed pushes, `cur_size` is their difference and at most `max_size`, and no access leaves the buffer |
| QueueTheorems.CopiesDisjoint | src/com/queue.c:180-197 | a producer and a consumer copying under different mutexes work on disjoint slots inside the buffer |
| QueueTheorems.MutexesExclude | src/com/queue.c:168-204 | in every state of every run, at most one thread is inside each of the three locked sections |
| QueueTheorems.NoLostWakeup | src/com/queue.c:171-201 | with `size_mutex` free, a waiter for room means full and a waiter for data means empty |
| QueueTheorems.StuckMeansFullOrEmpty | src/com/queue.c:168-304 | when nothing can move, producers inside mean full, consumers inside mean empty, and with `max_size` at least 1 not both |
| QueueProgress.RunsEnd | src/com/queue.c:157-307 | without new calls and spurious wakeups a run is no longer than the work left in its first state |
| QueueProgress.BroadcastWakesOne | src/com/queue.c:199-201 | a broadcast wakes at most one thread, since waiters hold the mutex of their side |
| QueueCalls.CallShows | src/com/queue.c:157-307 | over any run, a thread inside a call has shown nothing before its turning point and afterwards the one event that fits: full or empty without waiting, front too long, its data put in, the data it copied taken out |
| QueueCalls.CallExplained | src/com/queue.c:157-307 | a call that is over has shown exactly one event, which settles it and was true of the queue then: a call gives up only for a full or an empty queue, and then only if it may not wait, or for a front element too long for its room |
| QueueCalls.CallsBegin | src/com/queue.c:161-169 | a thread outside can begin any call whose arguments pass the check |
| TieringInvariant.MoveKeepsInv | src/app/ops.c:77-429 | every move that is not a hazard, by any worker, keeps the invariant over all files, workers and objects |
| TieringInvariant.RunKeepsInv | src/app/ops.c:77-429 | the invariant holds in every state of every careful run |
| TieringInvariant.PutKeepsInv | src/app/ops.c:138-153 | an attempt to store a file that is no hazard, however it ends, endangers no file |
| TieringInvariant.UpFaultKeepsInv | src/app/ops.c:155-279 | a failure at any step of an upload outside the hazards keeps the invariant, and so does each rollback |
| TieringInvariant.ChunkKeepsInv | src/app/s3_ops.c:305-314 | a chunk written within the object's size keeps the downloaded prefix right |
| TieringInvariant.CrashKeepsInv | src/app/ops.c:103-288 | a worker may die between any two moves outside the rollback window |
| TieringTheorems.ContentKept | src/app/ops.c:77-429 | in every state of every careful run a file reads as what the application last wrote; inside the rollback window it is locked and its local bytes are complete |
| TieringTheorems.ContentConstant | src/app/ops.c:77-429 | without application writes that is the initial content |
| TieringTheorems.StubNamesObject | src/app/ops.c:155-194 | `stub` implies that `object_id` names a stored object at least as long as the local file, outside the rollback window |
| TieringTheorems.MutualExclusion | src/app/file.c:181-205 | over any run, faults and hazards included, a lock is taken only when free, released once and by its taker, and whoever is inside a file is its one owner |
| TieringTheorems.UploadEndsWell | src/app/ops.c:254-288 | a successful upload leaves a sparse stub of the right size whose object is the content |
| TieringTheorems.DownloadEndsWell | src/app/ops.c:386-428 | a successful download leaves the content and neither attribute |
| TieringTheorems.MovesPossible | src/app/ops.c:77-429 | nothing is ruled out: any call may fail or succeed, any worker may die anywhere, a request may end in any way the store can end it |
| TieringTheorems.FailuresChangeNothing | src/app/ops.c:77-429 | a failing call and a dying worker change no file and no object |
| TieringHazards.SecondTruncateFails | src/app/ops.c:255-279 | the file ends local and empty; content is kept if and only if it was empty |
| TieringHazards.ProbeErrorOnRemote | src/app/ops.c:117-139 | the object is replaced by the local bytes; content is kept if and only if they agree |
| TieringHazards.KeyCollision | src/app/ops.c:135-153 | whatever part of a file a request stores and however it ends, a file that is a stub of that key keeps its content if and only if the stored bytes are that content, that is, the object does not change |
| TieringHazards.KeyCollisionInFlight | src/app/ops.c:135-178 | a file whose own upload has stored under that key and not yet set `stub` ends as a stub of the intruder's bytes; content is kept if and only if they agree |
| TieringHazards.RetriedUpload | src/app/s3_ops.c:392-400 | after a retry the file reads as its suffix; content is kept if and only if nothing had been consumed |
| TieringHazards.RetriedDownload | src/app/s3_ops.c:485-494 | after a retry content is restored if and only if nothing had been written |
| TieringHazards.CleanDownloadIff | src/app/s3_ops.c:466-494 | a download without failures restores content if and only if the stub is not longer than its object |
| TieringHazards.RollbackCutShort | src/app/ops.c:239-240 | a rollback stopped between its removals leaves a stub that can be read if and only if `object_id` is still set |
| TieringHazards.OrphanUntilRepaired | src/app/ops.c:117-194 | over any run, hazards included, a stub without `object_id` stays orphaned with its local bytes unchanged if and only if no mistaken upload of it fails to take its name back or dies first |
| TieringExact.HazardIff | src/app/ops.c:77-429 | from any state of the invariant a move is a hazard if and only if some continuation without further hazards leaves a file that is not intact |
| TieringExact.OverrunLoses | src/app/s3_ops.c:485-494 | after a write past the object's size even a clean second download brings the file back wrong |
| TieringWitnesses.FailedExtendReached | src/app/ops.c:255-279 | moves without hazards lead from files at rest to a failing second ftruncate that loses data |
| TieringWitnesses.CutRollbackReached | src/app/ops.c:239-240 | moves without hazards lead from files at rest to a rollback cut short with `object_id` gone |
| TieringWitnesses.CollisionReached | src/app/ops.c:135-153 | moves without hazards lead from files at rest to a request that replaces another stub's object |
| TieringWitnesses.CollisionInFlightReached | src/app/ops.c:135-178 | moves without hazards lead from files at rest to a request that replaces the object of an upload in progress |
| TieringWitnesses.MisjudgedProbeReached | src/app/ops.c:117-139 | moves without hazards lead from files at rest to a stub taken for local that replaces its own object by zeros |
| TieringWitnesses.SuffixReached | src/app/s3_ops.c:392-400 | moves without hazards lead from files at rest to a retry that stores a suffix as if it were the file |
| TieringWitnesses.OverrunReached | src/app/s3_ops.c:485-494 | moves without hazards lead from files at rest to a retry that writes past the object's size |
| TieringPaths.PutEnds | src/app/ops.c:138-288 | from a request that stores a local file without `object_id`, with every later call succeeding, the upload ends with a sparse unlocked stub of that object and nothing else changed |
| TruncatingOpen.TruncatingOpenIff | src/lib/open.c:33-65 | the kernel's truncation, the probe and the two removals in any order with the rest of a worker's call on the same file, local or remote, the worker anywhere in its call: when both are over the file reads as empty if and only if `Undoes` does not hold |
| TruncatingOpen.RaceEnds | src/lib/open.c:33-65 | from every state some order of steps ends both calls |
| TieringWitnesses.SplitOpenUndone | src/lib/open.c:47-65 | a download from start to end between the kernel's truncation and the removals brings the old bytes back, though the file is unlocked at both |
| TieringWitnesses.LocalOpenUndone | src/lib/open.c:40-44 | a local file truncated while its upload is about to set `object_id` ends as a stub of its old bytes |
| OpenSafety.HistoryKeepsInv | src/lib/open.c:33-101 | openers, with and without O_TRUNC, step by step, and workers interleaved keep the invariant, when no transfer is a hazard, no removal of `stub` fails and no worker is inside a file that is being truncated |
| OpenSafety.TruncatingOpenIsSafe | src/lib/open.c:47-65 | under the same conditions, a call with O_TRUNC that returned the descriptor had a moment at which the file read as empty and was meant to; all files stay intact throughout |
| OpenSafety.StubKeptStrands | src/lib/syms.c:170-185 | a failing removal of `stub` followed by a removal of `object_id` leaves a stub that cannot be read |
| OpenSafety.OpenIsSafe | src/lib/open.c:33-81 | a call that returned the descriptor probed `stub` absent during the call, and at that moment the local bytes were the file's content |
| OpenSafety.DescriptorMeansContent | src/lib/open.c:38-80 | when the call returns a descriptor, shown the file as it was at moments of a history, the bytes at the probe that ended it were the file's content |
| OpenSafety.ProbeEndsIff | src/lib/open.c:38-80 | a probe that does not fail ends the call, with the descriptor, if and only if the file is local |
| OpenSafety.RemovalsEndIff | src/lib/syms.c:170-185 | the two removals end the call, with the descriptor if and only if neither failed; each attribute is gone unless its removal failed |
| OpenSafety.OpenerCanStep | src/lib/open.c:33-101 | a process outside may open any file, one inside a call can always take its next step |
| S3Transfer.PutObjectDataCallback | src/app/s3_ops.c:284-300 | the chunk is as long as buffer, announced length, stream and stdio allow, and exactly the next bytes of the file; bytes sent plus `content_length` is constant |
| S3Transfer.GetObjectDataCallback | src/app/s3_ops.c:305-314 | the chunk lands at the stream's position, as much of it as stdio takes; the request goes on exactly when all of it did |
| S3Transfer.ObjectStore.PutObject | src/app/s3_ops.c:393-399 | over a whole request the chunks concatenate to the consumed part of the file; with reads that progress an empty chunk comes only at the end; a kept body is the rest of the file from where the request started |
| S3Transfer.ObjectStore.GetObject | src/app/s3_ops.c:486-493 | a prefix of the object reaches the stream, all of it on success |
| S3Transfer.FetchLoop | src/app/s3_ops.c:485-494 | attempts are made while they end with a retryable status, up to the configured number and no longer; each writes the object anew where the stream stands |
| S3Transfer.Upload | src/app/s3_ops.c:325-427 | attempts are made while they end with a retryable status, up to the configured number and no longer, each from where the one before stopped; 0 exactly when the stream opens and closes and the last attempt succeeded; then the object is the file from where failed attempts left the stream, the whole file if and only if they consumed nothing |
| S3Transfer.Download | src/app/s3_ops.c:438-523 | attempts as for an upload; 0 exactly when the stream opens and closes and the last attempt succeeded; then the object was written after what failed attempts wrote, and the file is the object if and only if they wrote nothing and the file was not longer |
| S3Transfer.CleanDownload | src/app/s3_ops.c:485-494 | the equivalence behind the download contract |
| FileOps.FileSystem.SetXattr | src/app/file.c:44-71 | sets the attribute, or changes nothing exactly when it was there or the call fails |
| FileOps.FileSystem.RemoveXattrTunable | src/app/file.c:143-167 | removes the attribute, or changes nothing exactly when the call fails or a missing attribute is an error and it was missing |
| FileOps.FileSystem.TryLockFile | src/app/file.c:181-190 | takes the lock exactly when the file is unlocked and the call does not fail |
| FileOps.FileSystem.UnlockFile | src/app/file.c:196-205 | gives it back exactly when the file is locked and the call does not fail |
| FileOps.FileSystem.IsLocalFile | src/app/file.c:211-215 | -1 exactly when the call fails, otherwise the truth about `stub` |
| FileOps.FileSystem.MarkRemote | src/app/ops.c:155-194 | both attributes set, or the first rollback, according to which calls fail and which attributes were there; a recorded run |
| FileOps.FileSystem.DropData | src/app/ops.c:196-279 | zero bytes of the original length, or the state after fstat, the second or the third rollback, according to which calls fail; a recorded run |
| FileOps.FileSystem.UploadFile | src/app/ops.c:77-289 | every execution is a run of the machine by this worker alone; 0 exactly when the lock is taken and the file is remote already, or the upload goes through, the file has neither attribute and no call that must succeed fails; success leaves a sparse stub and the object; a failure keeps the bytes, but for the second ftruncate, and the attributes, but for fstat and failing removals; without the lock nothing changes |
| FileOps.FileSystem.DownloadFile | src/app/ops.c:295-429 | every execution is a run of the machine; 0 exactly when the lock is taken and the file is local or the probe fails, or name, download and both removals succeed; the bytes are what the attempts wrote over the old ones, the attributes are what the removals left |
| RoundTrip.SegmentKeepsInv | src/app/ops.c:77-429 | what one worker records keeps the invariant and the content, when no recorded move is a hazard |
| RoundTrip.UploadThenDownload | src/app/ops.c:77-429 | by one worker, with no hazard in the moves of the two calls and no probe error in the download: success of both restores exactly the original bytes and leaves neither attribute |
| ObjectId.GetObjectIdXattrValue | src/app/s3_ops.c:603-620 | the buffer holds the first characters of the path, at most `maxKey`, backwards and with '-' for '/', then the terminator; the rest is untouched |
| ObjectId.AttributeRoundTrip | src/app/ops.c:155-160 | stored and read back at full size with stale characters, the C string is the name |
| ObjectId.CollisionIff | src/app/s3_ops.c:608-617 | two paths share a name if and only if as many of their characters count and the counting ones agree, place by place, up to '/' and '-' |
| ObjectId.NameInvertibleIff | src/app/s3_ops.c:608-617 | a name can be turned back into its path if and only if the path has no '-' and is within the limit |
| ObjectId.NoCollisionWithoutDash | src/app/s3_ops.c:608-617 | such paths share a name only when equal |
| RequestPath.PrintedFits | inc/defs.h:103-109 | any two 64-bit numbers fit the 51-byte buffer |
| RequestPath.WorstCaseFills | inc/defs.h:106-109 | and the largest ones fill it |
| RequestPath.PrintedInjective | src/lib/syms.c:249-254 | different (pid, fd) are printed differently |
| RequestPath.PrintedIff | src/lib/syms.c:249-254 | the printed text is the one text "/proc/" a "/fd/" b whose a and b are the decimal numerals of pid and fd |
| RequestPath.PrintedExamples | inc/defs.h:103 | two requests, spelt out |
| RequestPath.RequestReads | src/lib/syms.c:249-256 | the text found in the queue element is the one printed, also before older bytes |
| RequestPath.ScheduleDownload | src/lib/syms.c:240-264 | pushes one element exactly when the queue is mapped, takes 51 bytes and is not full; its C string is "/proc/", the numeral of pid, "/fd/", the numeral of fd |
| RequestPath.ReadRequest | src/app/daemon.c:76-94 | the consumer reads the C string at the start of the front element; of a request, the same "/proc/", pid, "/fd/", fd |
| Library.ProbeOnce | src/lib/syms.c:104-161 | without failures the location; otherwise the call that decides decides, ENOATTR, ENOTSUP and ERANGE counting as local |
| Library.DaemonAgreesIff | src/app/file.c:211-215 | the daemon's probe agrees with the library's if and only if the file system supports attributes |
| Library.ProbesAgree | src/lib/syms.c:104-161 | reading, replacing and the fallback by path report the same location and leave the file as it was |
| Library.PollFileLocation | src/lib/syms.c:271-282 | ends with the first probe that does not find the file remote, and says what it found; waits exactly while all find it remote |
| Library.ClearXattrs | src/lib/syms.c:170-185 | each attribute is gone unless its removal failed; -1 exactly when one did; data and lock untouched |
| Library.FinishOpenCommon | src/lib/open.c:33-101 | a file found local is returned at once; O_TRUNC on a remote one clears it or fails with the removals; otherwise one request naming this descriptor is pushed, and the first later probe that does not find it remote decides; it waits only for room or while all probes find it remote, and fails only when a probe, a removal or the request does |
| DaemonLoop.TryQueue | src/app/daemon.c:73-86 | a try hands out the front element; it fails only on an empty or missing queue and then leaves the size and the queue alone |
| DaemonLoop.OneRound | src/app/daemon.c:72-108 | whatever other threads push before and between its tries, one iteration leaves both queues and the log as `Iterate` says |
| DaemonLoop.ActedOnceInOrder | src/app/daemon.c:72-108 | on every schedule of pushes, what is acted on from a queue is exactly what it has given out, in the order received |
| DaemonLoop.PriorityAlways | src/app/daemon.c:76-92 | on every schedule, an iteration serves the primary queue if and only if that had received something not yet handed out when tried, the secondary if and only if the primary had not and the secondary had, and idles if and only if neither had |
| DaemonLoop.TransferFilesLoop | src/app/daemon.c:60-111 | over any schedule of pushes, queues and log end as `Run` says; each popped element is acted on exactly once, in the order of its queue, priority is kept in every iteration, and failed actions are counted |

## Left out

- Queue.Queue.constructor: requires that the size arithmetic does not overflow; the overflowing requests are characterised by `QueueInit.RegionFitsIffNoOverflow` instead.
- DaemonLoop.TransferFilesLoop: the endless loop is stated for an arbitrary number of iterations; what `action` does with a path is the subject of the tiering machine.
- DaemonLoop.OneRound: other threads push between the queue calls, not inside them; that a call can be taken as atomic is what `QueueTheorems.MoveRefines` and `QueueCalls.CallExplained` prove.
- FileOps.FileSystem.UploadFile: one worker runs at a time in this form, and the C function is split into the stages its rollbacks suggest; interleavings are the machine's.
- TruncatingOpen.TruncatingOpenIff: the length a request announced before the truncation is not part of the machine; instead a request that meets the truncated file may fail or, from the start of the stream, store nothing.
- TruncatingOpen.Undoes: the race is between one opener whose removals succeed and one worker whose calls go as the file asks for; a failing removal is `OpenSafety.StubKeptStrands`, any number of openers and workers are `OpenSafety`.
- Library.PollFileLocation: the polling loop is given a finite sequence of views of the file, because polling need not end.
- Library.FinishOpenCommon: whether a request is served is not modelled; a request that finds the file locked is dropped and not repeated.
- Configuration, logging, thread creation, `dlsym` set-up, credentials and bucket creation: no property of interest here.
- `mmap`, `shm_open`, `umask` and process-shared attributes: memory is one byte array, and its mapping may only be present or absent.
- Alignment of the size header: C requires it, the layout does not provide it.
- Signed overflow of the retry counter is taken as two's complement wrap-around; it matters only for a configured count below 1.
- `src/app/policy.c`: any producer of paths; `is_local_file_path` and the empty `fopen.c`, `truncate.c`: nothing to model.
- Renames: an upload may start under any key for any file, so a renamed file is covered, but directories are not modelled.
