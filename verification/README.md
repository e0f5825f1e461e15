# A verified model of the xv6 kernel core

This project models the parts of an xv6 kernel for RISC-V (with a lottery scheduler added) that
carry its hard invariants, and proves them. Code that changes state step by step is a class whose
methods follow the source's loops and branches; each method's contract ties the new state to a
specification on values, and what the system promises is proved about that specification or kept
as an invariant of every operation. Protocols between processes are state machines over the steps
between two lock operations.

- **Log and buffer cache** (`Disk`, `Crash`, `Ring`, `Cache`, `Bio`, `Log`, `LogRuns`, `Transact`,
  `FullLog`). The disk is a map from block numbers to blocks, written one block at a time; a crash
  keeps any prefix of the writes. `Crash` states what commit and recovery write and proves crash
  atomicity over whole runs. `Bio` is the LRU cache with its doubly linked list, `Log` the
  group-commit log on top of it. The ghost field `logical` is the newest contents of every block:
  `Bread` returns it, `WriteLog` copies it, and the object's disk trace is always a trace that
  `Crash` speaks about. `LogRuns` interleaves operations, readers and a commit that waits for
  buffers like everybody else.
- **Files** (`Files`, `Truncate`, `FileSys`). Bitmap, direct and indirect addresses, and the byte
  contents they stand for. The set `logged` holds the blocks an operation gave to the log: every
  block that changes is in it, and `filewrite`'s chunks keep it within the log's reservation.
- **Files through the log** (`Durable`, `Mount`). The words of disk blocks under the layout of fs.h,
  and the joint theorem: after any crash and recovery the files are those of a whole number of
  commits. `Mount` runs the operations of the file system through the log and the cache, so that the
  groups which `Durable` speaks of are what begin_op, log_write and end_op make of a run.
- **Inode table** (`Inodes`). References and their holders, with `iput` cut into the steps between
  which other threads may run.
- **Memory** (`Sv39`, `Uvm`, `Teardown`, `Vm`, `UserMemory`). The three-level page tables of section
  4.4 of the RISC-V Privileged Architecture, version 1.12, against a flat map of page numbers; the
  page allocator; and the life of an address space. The ghost map `own` names the one use of every
  physical page.
- **User allocator** (`FreeList`, `Umalloc`). The circular free list of section 8.7 of The C
  Programming Language, second edition, in units of one header.
- **Processes** (`Processes` in Proc.dfy, `ProcessRuns` in ProcRuns.dfy, `ProcessLives` in
  ProcLives.dfy, `ProcessCalls` in ProcCalls.dfy). fork, exit, wait, sleep, wakeup, kill and the switch
  to and from the scheduler as interleaved steps. `ProcessRuns` keeps the invariant, `ProcessLives`
  says over all runs who changes which slot and where answers come from, and `ProcessCalls` what each
  call does from its start to its return when nobody comes in between.
- **Lottery** (`Lcg`, `Lottery`). The generator's period and the prefix-sum draw, with the wrap of
  `int` sums and the sign of the C remainder.
- **Disk driver** (`Virtio`, `VirtioDisk`). Descriptors and rings of section 2.6 of Virtio 1.1, with
  a device that sees nothing but the rings and descriptors and completes each request once, in any
  order.
- **Shell parser** (`Shell`, `ShellParser`, `ShellGrammar`, `ShellLexer`). The recursive-descent
  parser on characters and on tokens, a printer that inverts both, and the language that they accept:
  which texts are which tokens and which tokens are which command, without a cursor or a parser.

`Sets`, `Powers` and `Options` hold small helpers.

Where the source and its reports differ, the model follows the source. docs/PHASE1_REPORT.md:165
promises a draw from 0 to total-1; `random` returns a signed `int`, so the promise holds exactly for
draws that are not negative or are multiples of the total (`Lottery.DrawInRange`). Half of the draws
are negative (`Lcg.HalfNegative`), and they all pick the first RUNNABLE process
(`Lottery.NegativePicksFirst`); `Lottery.WinsExactly` gives the exact number of wins of every
process. docs/FINAL_REPORT.md:143-150 shows a different generator. Three more promises hold only
under a condition, which is proved exact: a commit avoids the "no buffers" panic exactly if nothing
is logged, a buffer is free, or the header and the log blocks it uses are cached (`Log.Log.Commit`),
and `FullLog.Boot` is a run in which three operations within their limits make it panic; the
scheduler finds a process exactly if the wrapped ticket sum is positive (`Lottery.Scheduler.Round`,
`Lottery.OverflowStarves`); and `malloc` asks `sbrk` for what it needs exactly up to 2^31 - 32 bytes
(`Umalloc.SbrkArgumentExact`, `Umalloc.HugeRequestShrinks`).

## How to read the contracts

- A panic that the model shows unreachable is a precondition of the method, and every caller proves
  it; a panic that can happen is a result (`None`, `false`, `Panic`).
- Sleep locks: an operation that would wait has the lock being free as a precondition, so a run is a
  sequence of the moments at which threads get on. `Acquire` and `Ilock` are of this kind; `Bget` is
  `Reference`, which needs no lock, and `Acquire` at once. In the runs of `LogRuns`, `Inodes` and
  `VirtioDisk` a step that is not possible yet does nothing.
- What comes from outside is a parameter: the answer of `sbrk`, how much of a user buffer can be
  copied, the choices of user programs, the order in which the device works.
- Where a class has a method `Run`, its contract names the state before and after every step (a ghost
  sequence of `Shot`, `World` or `Image` values), and a predicate `Did` or `Answered` says what the step
  did; nothing in the bodies uses these predicates.
- Every requirement `Valid()`, `Inv()`, `Good` or `Sound` is established by the constructor or the
  boot state and kept by every method.

## Model

| member | source | states |
|---|---|---|
| `Crash.CrashAtomic` | kernel/log.c:67-204 | Stop a commit after any number of its block writes, interrupt recovery after any number of its writes any number of times, then let one recovery finish: the home blocks are all new if the first header write had happened and all old otherwise, the log is empty, and recovery could start on every disk it met |
| `Crash.RunAtomic` | kernel/log.c:67-204 | The same over any run of commits: what survives a crash anywhere is exactly the transactions whose header write had happened, each complete, in order |
| `Crash.Lasting` | kernel/log.c:67-204 | Once every write of some commits is done they stay committed, whatever is committed later and whenever a crash comes |
| `Crash.CommitDone` | kernel/log.c:195-204 | A commit that is not interrupted installs its whole transaction and empties the log |
| `Crash.CrashBeforeHead` | kernel/log.c:180-204 | Until the header is written a commit leaves every home block and the empty header alone |
| `Crash.CrashAfterHead` | kernel/log.c:195-204 | From the header write on, the disk carries the whole transaction at every moment until the header is emptied |
| `Crash.LogWritten` | kernel/log.c:180-192 | The log area holds the data of the transaction block by block, and no home block was written |
| `Crash.HeadWritten` | kernel/log.c:104-115 | Writing the header makes exactly this transaction the one recovery will install |
| `Crash.PendingAttempt` | kernel/log.c:118-124 | An interrupted recovery of a committed transaction either leaves it committed or has finished it |
| `Crash.PendingRecovered` | kernel/log.c:118-124 | Recovery installs a committed transaction, whatever part of it was installed before |
| `Crash.IdleRecovers` | kernel/log.c:118-124 | Recovery of an empty log changes no home block |
| `Crash.InstalledAt` | kernel/log.c:67-84 | Installation gives each logged block its logged data and leaves all others |
| `Ring.Unlink` | kernel/bio.c:128-129 | Joining the neighbours of a buffer leaves a well-formed circular doubly linked list of the others |
| `Ring.PushFront` | kernel/bio.c:130-133 | Linking a buffer behind the head keeps the list well formed, with that buffer first |
| `Cache.RecycledGood` | kernel/bio.c:77-87 | Giving an unreferenced buffer to an uncached block keeps one buffer per block, the reference counts and coherence |
| `Cache.FilledGood` | kernel/bio.c:98-101 | Reading from disk into a fresh buffer gives the newest contents of the block, because a block whose newest contents are not on disk is always cached |
| `Cache.UnpinnedGood` | kernel/bio.c:147-151 | A block may be unpinned once it is installed, and the cache stays coherent |
| `Cache.UnlockedIsClean` | kernel/bio.c:93-137 | A buffer nobody has locked holds the newest contents of its block |
| `Bio.Bcache.constructor` | kernel/bio.c:37-53 | All buffers unreferenced and on the list, the last one first |
| `Bio.Bcache.LinkAll` | kernel/bio.c:46-52 | The list holds all NBUF buffers, the last one first |
| `Bio.Bcache.FindCached` | kernel/bio.c:66-73 | The buffer that caches the block, or the list head exactly when there is none |
| `Bio.Bcache.FindUnused` | kernel/bio.c:77-87 | An unreferenced buffer, released longest ago while counts reach zero only through brelse; the head exactly when every buffer is referenced |
| `Bio.Bcache.Reference` | kernel/bio.c:59-87 | bget up to the wait for the lock: panics exactly when the block is not cached and every buffer is referenced; otherwise counts the caller in the cached buffer, whoever has its lock, or recycles the one released longest ago |
| `Bio.Bcache.Acquire` | kernel/bio.c:69-71 | Whoever is counted in an unlocked buffer may take its lock; valid contents are then the newest of the block |
| `Bio.Bcache.Load` | kernel/bio.c:98-101 | The holder of the lock ends with a valid buffer; a buffer that was not valid gets the newest contents of its block |
| `Bio.Bcache.Bget` | kernel/bio.c:59-89 | When nobody has the lock of the block: panics exactly when the block is not cached and every buffer is referenced; otherwise returns the cached buffer, or recycles the one released longest ago, locked and counted |
| `Bio.Bcache.Bread` | kernel/bio.c:93-103 | A locked buffer with the last logged or written contents of the block, and nothing else changed |
| `Bio.Bcache.Bwrite` | kernel/bio.c:107-112 | Exactly one disk write, of the contents of the buffer |
| `Bio.Bcache.MoveToFront` | kernel/bio.c:128-133 | Moves the buffer to the front and keeps the order of all others |
| `Bio.Bcache.Brelse` | kernel/bio.c:117-137 | Unlocks and drops one reference; only the last reference moves the buffer to the front and makes it the most recently used |
| `Bio.Bcache.Bpin` | kernel/bio.c:140-144 | One more reference, held by the log header |
| `Bio.Bcache.Bunpin` | kernel/bio.c:147-151 | Gives that reference up; the recency order survives when another reference remains |
| `Bio.LruReleased` | kernel/bio.c:117-137 | Releasing a buffer for good keeps the unreferenced buffers ordered by release time |
| `Log.Log.constructor` | kernel/log.c:54-63 | After boot the log is empty, the cache idle and the disk what recovery makes of it |
| `Log.Log.RecoverFromLog` | kernel/log.c:118-124 | Recovery through the cache performs exactly the writes of the recovery specification, and never runs out of buffers |
| `Log.Log.ReadHead` | kernel/log.c:88-98 | The header in memory is the one on disk; nothing is written |
| `Log.Log.WriteHead` | kernel/log.c:104-115 | One write, of a header that lists the logged blocks; panics exactly when the header block has no buffer and none is free |
| `Log.Log.WriteLog` | kernel/log.c:180-192 | Writes the newest contents of each logged block to the log area, in order; completes exactly when a buffer is free or every log block is cached |
| `Log.Log.InstallTrans` | kernel/log.c:67-84 | Copies every log block home in order, and unpins each home block unless recovering |
| `Log.Log.WriteLogBlock` | kernel/log.c:184-191 | One block of write_log, while others hold or await other buffers: the newest contents go to the log block, nobody who has or awaits a buffer is disturbed, and it panics exactly when the log block is not cached and every buffer is referenced |
| `Log.Log.InstallBlock` | kernel/log.c:71-82 | One block of install_trans, likewise: the log block goes home and is unpinned unless recovering |
| `Log.Log.BeginOp` | kernel/log.c:128-143 | Admits an operation exactly when no commit runs and its MAXOPBLOCKS fit beside everything logged or reserved |
| `Log.Log.Absorb` | kernel/log.c:226-229 | Finds the header entry of the block, or that there is none |
| `Log.Log.LogWrite` | kernel/log.c:216-236 | Never panics while the operation has budget left; a listed block is absorbed, a new one pinned and added once; the newest contents of the block become those of the buffer; header entries stay distinct and all reservations still fit |
| `Log.Log.EndOp` | kernel/log.c:148-176 | Gives the budget back; the last operation out, and no other, must commit, and no operation is active then |
| `Log.Log.Commit` | kernel/log.c:195-204 | The disk writes are exactly a prefix of those of the commit specification, for the newest contents of the logged blocks, and all of them unless bget panics; it completes exactly when nothing is logged, a buffer is free, or the header and all log blocks used are cached; no newest contents change; a commit that panics leaves a disk from which recovery gives exactly the earlier transactions |
| `Log.Log.EndCommit` | kernel/log.c:171-174 | Operations may start again |
| `Log.Log.CrashNow` | kernel/log.c:67-204 | At every moment of a run of the log object, a crash at any earlier write and any recoveries leave exactly the transactions whose header was written, on a disk that the object can boot from |
| `Log.Log.CrashAt` | kernel/log.c:67-204 | The same whenever the writes are a first part of committing some transactions one by one, as after a commit that panicked |
| `Log.FullLogIsStuck` | kernel/param.h:10-11 | NBUF equals LOGBLOCKS: with a full log every buffer is pinned, so the commit that follows cannot get a buffer for its first log block |
| `FullLog.Fill` | kernel/log.c:128-236 | From any idle log: three operations are admitted, each logs the ten blocks it reserved, and the commit that follows panics before its first write |
| `FullLog.Boot` | kernel/param.h:10-11 | So it happens to a kernel that has just booted, on a disk of zeroes |
| `Transact.Update` | kernel/log.c:216-236 | bread, change, log_write and brelse by an operation with budget left, when nobody else has a buffer: always finds a buffer and room in the log, and the newest contents of the block become the new ones |
| `Transact.RoomLeft` | kernel/param.h:10-11 | As long as fewer blocks are logged than there are buffers, and nobody has a buffer, some buffer is free |
| `LogRuns.Kernel.Run` | kernel/log.c:67-236 | Any interleaving of operations, readers, and a commit that waits for buffers block by block: at every moment, panics included, the disk writes are a first part of committing the transactions one by one, and each step in the run did exactly what its thread asked for, or nothing if it had to wait |
| `LogRuns.Kernel.Step` | kernel/log.c:67-236 | Every step of every thread keeps the invariant of cache, log, holders and the commit under way, and its effect is the one of its action: who is admitted, who has which buffer, what the newest contents are, when a commit starts and advances |
| `LogRuns.Kernel.CrashIn` | kernel/log.c:67-204 | So a crash at any moment of such a run and any recoveries leave exactly the transactions whose header was written |
| `LogRuns.Kernel.HolderSees` | kernel/bio.c:59-137 | Whoever has the lock of a buffer has it alone and sees the newest contents of its block |
| `LogRuns.Kernel.DoGet` | kernel/bio.c:59-89 | The caller is counted once more in the buffer that caches the block, or in a free one that is given to the block; panics exactly without a cached or free buffer; nothing else changes |
| `LogRuns.Kernel.DoTake` | kernel/bio.c:93-103 | A waiting thread gets the lock exactly if it is free, and with it the newest contents of the block it asked for; nothing else changes |
| `LogRuns.Kernel.DoChange` | kernel/log.c:216-236 | Changing a held buffer and logging it makes the new contents the newest and lists the block once, at the cost of one reserved block if it was not listed; panics exactly when the log is full |
| `LogRuns.Kernel.StartCommit` | kernel/log.c:195-198 | A commit starts only when no operation is inside, with the newest contents of the logged blocks as its transaction; with nothing logged it is over at once |
| `LogRuns.Kernel.ClearStep` | kernel/log.c:201-203 | The last write of a commit empties the header, and the transaction counts as done exactly then |
| `LogRuns.MidReads` | kernel/log.c:67-204 | In the middle of a commit the cache still holds what the next write needs: the newest contents of a logged block, the header, or a log block as it is on disk |
| `LogRuns.MidStep` | kernel/log.c:67-204 | Each write of a commit is the next one of the specification, and the rest of the invariant follows |
| `LogRuns.HandsUndisturbed` | kernel/bio.c:59-137 | What a commit does to the cache leaves every thread that has or awaits a buffer with the same block, and holders with the same contents |
| `FileSys.Fs.Balloc` | kernel/fs.c:67-89 | The first free block, marked and zeroed, with both changed blocks logged; 0 and no change exactly when every bit is set |
| `FileSys.Fs.Bfree` | kernel/fs.c:93-106 | Clears the bit and logs its bitmap block; callers prove that the bit is set, so its panic is unreachable |
| `FileSys.Fs.Bmap` | kernel/fs.c:406-444 | The address kept for this block of the file, allocated when absent, 0 only on a full disk; every other address, empty ones included, and every file is unchanged, the bitmap and the addresses stay in step, all changed blocks are logged, with at most two bitmap blocks |
| `FileSys.Fs.Writei` | kernel/fs.c:529-562 | Fails exactly for an offset past the end or an end past the largest file; a result t overlays exactly the bytes off to off+t, extends the size, leaves every other file alone, and is short only for a full disk or an unreadable source; every disk block that changed is logged, within the computed bound |
| `FileSys.Fs.Readi` | kernel/fs.c:495-519 | Returns exactly the bytes of the file from off to the lesser of off + n and its size, 0 of them for an offset past the end or a wrapping one, or -1 exactly when a piece cannot be copied out; changes nothing |
| `FileSys.Fs.ReadAll` | kernel/fs.c:495-519 | Reading on from 0 in pieces of any size until nothing comes back yields the whole file |
| `FileSys.Fs.Filewrite` | kernel/file.c:153-172 | The chunks together write a prefix of the source at the offset; each chunk is one operation that starts from the disk the previous one left, logs every block it changes and logs at most MAXOPBLOCKS |
| `FileSys.Fs.WriteChunk` | kernel/file.c:156-166 | One chunk is one operation: it logs every block it changes, at most MAXOPBLOCKS, all of them on the disk and outside the log |
| `FileSys.Fs.Session` | kernel/file.c:134-180 | Any run of file writes, reads and truncations is a sequence of such operations, each starting from the disk the previous one left; there is one image of the files for each call, and neighbours differ by what that call does: a write puts a prefix of its source at its offset, all of it unless refused, short of blocks or unreadable; a read returns the bytes there; a truncation empties one file; all else stays |
| `FileSys.Fs.Perform` | kernel/file.c:134-180 | One call has the effect and the answer of that call, as a sequence of operations of bounded size |
| `FileSys.CoveredInode` | kernel/fs.c:227-242 | Writing an inode changes only words of the block that iupdate logs |
| `FileSys.Fs.TruncDirect` | kernel/fs.c:455-460 | Frees the direct blocks of the file and clears their addresses |
| `FileSys.Fs.TruncIndirect` | kernel/fs.c:462-472 | Frees every block named in the indirect block, then the indirect block |
| `FileSys.Fs.Itrunc` | kernel/fs.c:449-476 | The file is empty, exactly the bits of its blocks become clear, no other file changes, all changed blocks are logged, at most the bitmap blocks and the inode block, and bfree is never given a free block |
| `FileSys.Fs.Run` | kernel/fs.c:406-562 | Over any run of writes, reads and truncations, including failed ones, a bit is set exactly for metadata and for blocks owned by exactly one slot of one inode, memory and disk inodes agree, and every call answers and changes the files as it should |
| `FileSys.Fs.Call` | kernel/fs.c:449-562 | One call of writei, readi or itrunc: its answer and the files after it, in terms of the files before |
| `FileSys.ChunkFits` | kernel/file.c:153-159 | The chunk size of filewrite keeps the bound on what one writei logs within MAXOPBLOCKS at every offset; the bound reaches it for unaligned chunks, and one block more would break it |
| `FileSys.ReadBack` | kernel/fs.c:495-562 | Reading as many bytes as were written at the same offset returns them |
| `FileSys.ReadAfterWrite` | kernel/fs.c:495-562 | A read of at least as many bytes as were written at the offset starts with them, whatever the file held before |
| `FileSys.WroteTrans` | kernel/file.c:156-172 | Two writes end to end are one write of the concatenation |
| `Files.GrantGood` | kernel/fs.c:406-444 | Putting a free block into an empty slot keeps every block owned once, the bitmap right and all files readable |
| `Files.StoreByte` | kernel/fs.c:540-552 | Storing into the block of one file position changes the bytes of that block of that file and no others, across the direct and indirect parts |
| `Files.WrittenContent` | kernel/fs.c:529-562 | Copying the bytes and setting the size is overlaying the contents |
| `Truncate.DropIndirectOk` | kernel/fs.c:462-472 | With its entries freed the indirect block is still marked and owned, so it can be freed |
| `Truncate.FreedBits` | kernel/fs.c:449-476 | A bit is cleared exactly if it belonged to the file |
| `Durable.FilesSurvive` | kernel/log.c:67-204 | Crash consistency of files: commit any groups of file operations, cut the writes anywhere, cut recovery any number of times; recovery can start, and once one finishes, the disk holds the bitmap, inodes and data exactly as the groups whose header was written left them |
| `Durable.GroupInstalled` | kernel/log.c:67-84 | Installing the blocks that a group of operations logged turns a disk that holds the files before into one that holds the files after |
| `Durable.EncLocal` | kernel/fs.h:8-49 | A disk block that no operation logged has the same words before and after, whether it holds inodes, bitmap bits or data |
| `Durable.DiskDetermines` | kernel/fs.h:8-49 | The words on disk determine bitmap, inodes, block addresses and the bytes of every file |
| `Mount.Mount.Put` | kernel/log.c:216-236 | An operation of the file system sends every block it logged through the cache into the log: it never runs out of buffers or log, and the newest contents of all blocks hold the files after it |
| `Mount.Mount.Enter` | kernel/log.c:128-143 | Operations are admitted beside others, as begin_op does |
| `Mount.Mount.Leave` | kernel/log.c:148-204 | The last operation out commits all that were inside together, as one group; it panics only with a full log, and the disk writes are then still a first part of those of the commits |
| `Mount.Mount.Serve` | kernel/file.c:134-180 | Any calls of write, read and truncate of the file system, sent through log and cache: nothing panics, files in memory, newest contents and commits agree at the end, each call answers and changes the files as it should, and the commits of each call follow those of the calls before it |
| `Mount.Mount.ServeOne` | kernel/file.c:134-180 | One call through log and cache: its answer, its effect on the files, and the commits it made |
| `Mount.Mount.CallsAfterCrash` | kernel/log.c:67-204 | After served calls, a crash at any write and any recoveries leave the files in some stage of one of the calls, with every call before it done and none after it begun |
| `Mount.Mount.FilesAfterCrash` | kernel/log.c:67-204 | Of a run of file operations through log and cache, a crash after any disk write and any recoveries leave the files as a whole number of commits did |
| `Mount.Mount.Lasts` | kernel/log.c:148-204 | ... never fewer than had made their last write before |
| `Mount.Reboot` | kernel/log.c:54-124 | A kernel that boots from such a disk mounts exactly those files, ready for the next run |
| `Mount.GroupFits` | kernel/log.c:195-204 | The operations since the last commit are a group whose transaction is the one that commit writes |
| `Inodes.Itable.Iget` | kernel/fs.c:248-278 | The entry of the inode with one more holder, never a second entry for it; panics exactly when every entry is in use by another inode |
| `Inodes.Itable.Idup` | kernel/fs.c:283-289 | One more holder, one more reference |
| `Inodes.Itable.Ilock` | kernel/fs.c:294-302 | A holder of a reference takes the free sleep lock of the entry |
| `Inodes.Itable.Iload` | kernel/fs.c:304-317 | The locked entry holds what is on disk, which is never a free inode, so its panic is unreachable, also when the number was reused meanwhile |
| `Inodes.Itable.IputStart` | kernel/fs.c:340-361 | With one reference, no links and a valid inode the lock is free and freeing starts; otherwise exactly one reference of this holder is dropped |
| `Inodes.Itable.IputTrunc` | kernel/fs.c:351-351 | The truncated inode reaches the disk while the entry is held by one thread |
| `Inodes.Itable.IputClear` | kernel/fs.c:352-353 | A disk inode becomes free only by its single holder and without links |
| `Inodes.Itable.IputUnlock` | kernel/fs.c:354-358 | The lock is released with the entry marked invalid, so a reuse in this window reads the disk again |
| `Inodes.Itable.IputDrop` | kernel/fs.c:358-362 | The last reference of this thread goes; a concurrent new holder keeps its own |
| `Inodes.Itable.Run` | kernel/fs.c:200-366 | Any interleaving of the steps of any threads keeps one entry per inode, a holder for every reference, and a disk inode behind every entry until its last holder frees it; every step does what its thread asked for and nothing else |
| `Inodes.Itable.Step` | kernel/fs.c:200-366 | Every single step keeps it, has exactly the effect of its action, and frees an inode on disk only for its one holder |
| `Inodes.Itable.Ialloc` | kernel/fs.c:200-220 | The first free inode number, cleared and marked with the type; None exactly when all are allocated |
| `Inodes.Itable.Ireclaim` | kernel/fs.c:374-393 | No allocated inode without links is left, each of these was freed, and no other inode changed |
| `Inodes.MarkOk` | kernel/fs.c:206-214 | An entry still in the table for the number ialloc reuses is past the point of freeing it and has no other holder |
| `Inodes.Cleared` | kernel/fs.c:342-353 | The thread that clears an inode is its only holder and the inode has no links |
| `Umalloc.Umalloc.constructor` | user/umalloc.c:19-22 | No memory yet; the base header lies below the heap |
| `Umalloc.Umalloc.FindSlot` | user/umalloc.c:30-32 | The search ends, at the highest free block below the freed one, after which it belongs in address order |
| `Umalloc.Umalloc.JoinUpper` | user/umalloc.c:33-37 | Merges with the free block right above exactly if they touch |
| `Umalloc.Umalloc.JoinLower` | user/umalloc.c:38-42 | Merges into the free block right below exactly if they touch; no two free blocks touch afterwards |
| `Umalloc.Umalloc.Free` | user/umalloc.c:25-44 | The block leaves the handed-out set, all other handed-out blocks keep place and size, the list stays circular, ascending with one wrap, without touching neighbours, and has room for the freed size; freep is the highest free block below the freed one |
| `Umalloc.Umalloc.Morecore` | user/umalloc.c:47-61 | At least 4096 units more, all free, none handed out; nothing changes if sbrk fails |
| `Umalloc.Umalloc.Scan` | user/umalloc.c:74-89 | Goes round the list once and returns the first block that fits after the starting point, or that none does |
| `Umalloc.Umalloc.Take` | user/umalloc.c:75-84 | Hands out the whole block or its last units; the new block overlaps no other and total units are kept |
| `Umalloc.Umalloc.Malloc` | user/umalloc.c:64-90 | Fails exactly when nothing fits and sbrk fails; otherwise hands out a fresh block of the computed size, first fit from freep and from the end of that block, asking sbrk at most once and only when nothing fits, for a request whose size sbrk can be given |
| `Umalloc.Umalloc.Run` | user/umalloc.c:25-90 | Over any run of malloc and free each call does what it should to the blocks and the live pointers, which are exactly the blocks handed out, and free and handed-out blocks add up to the units obtained from sbrk |
| `Umalloc.StopsAtSlot` | user/umalloc.c:30-32 | The pointer comparisons of the search hold at exactly the position where the block belongs |
| `Umalloc.TiledSum` | user/umalloc.c:25-90 | Blocks that tile the obtained units have sizes that sum to them |
| `Umalloc.NUnitsCover` | user/umalloc.c:69-69 | The units handed out hold the request and less than one unit more |
| `Umalloc.SbrkArgumentExact` | user/umalloc.c:54-54 | The argument sbrk receives is the number of bytes needed exactly for requests of at most 2^31 - 32 bytes |
| `Umalloc.HugeRequestShrinks` | user/umalloc.c:54-54 | At 2^31 bytes the argument is negative, so sbrk would shrink the heap |
| `Vm.Vm.constructor` | kernel/kalloc.c:29-44 | Every page of the range is on the free list and nfree is their number |
| `Vm.Vm.Kfree` | kernel/kalloc.c:51-68 | The page is free, first on the list, and nfree is the list length |
| `Vm.Vm.Kalloc` | kernel/kalloc.c:74-90 | The first free page, or nothing exactly when the list is empty; nfree and nalloc count it |
| `Vm.Vm.Walk` | kernel/vm.c:98-115 | The page with the entry of the address, adding interior pages on demand; no translation of any address changes, in this or another table, and no interior page is shared |
| `Vm.Vm.MapOne` | kernel/vm.c:158-168 | Maps one page and changes no other translation; on failure none |
| `Vm.Vm.Mappages` | kernel/vm.c:146-174 | Maps exactly the range, or a prefix of it when page-table pages run out; no other address, no other table changes |
| `Vm.Vm.Uvmunmap` | kernel/vm.c:193-212 | Exactly the range is unmapped, mapped user pages are freed and nfree grows by their number, absent ones skipped, everything else stays |
| `Vm.Vm.Uvmalloc` | kernel/vm.c:217-240 | Grows with zeroed pages, or returns 0 with every translation as before, and only when memory was short; other spaces and their data are untouched |
| `Vm.Vm.Uvmdealloc` | kernel/vm.c:247-258 | Unmaps and frees exactly the pages above the new size, and nfree grows by the number that was mapped |
| `Uvm.PagesCover` | kernel/riscv.h:355-355 | The pages of a size hold that many bytes, and one page fewer would not |
| `Vm.Vm.Uvmcopy` | kernel/vm.c:297-324 | The child maps a copy of every page the parent maps below the size, with its permissions, or nothing; the parent and all others stay as they are |
| `Vm.Vm.Freewalk` | kernel/vm.c:263-278 | Frees every page of the table tree and nothing else; a leaf entry, its panic, cannot occur |
| `Vm.Vm.Uvmfree` | kernel/vm.c:283-288 | All user pages below the size and all table pages are free again |
| `Vm.Vm.Uvmcreate` | kernel/vm.c:179-187 | An empty page table, or nothing when memory is out |
| `Vm.Vm.Ismapped` | kernel/vm.c:476-486 | True exactly for a mapped page; nothing changes |
| `Vm.Vm.ProcPagetable` | kernel/proc.c:186-215 | A table with exactly the trampoline and trapframe, or, on each failing path, the allocator exactly as before |
| `Vm.Vm.ProcFreepagetable` | kernel/proc.c:220-225 | Everything the address space owned is free again, and nothing else changed |
| `Sv39.PxInjective` | kernel/riscv.h:371-380 | Two page numbers below MAXVA with the same three indices are the same |
| `Sv39.SetLeafLook` | kernel/vm.c:98-174 | Writing one leaf entry changes the translation of one page only |
| `Sv39.AddedOk` | kernel/vm.c:98-115 | A new interior page translates nothing new, is shared with nothing, and touches no other space |
| `Sv39.MapOk` | kernel/vm.c:146-174 | Mapping a page keeps a one-to-one match between user pages and their owners |
| `Sv39.UnmapOk` | kernel/vm.c:193-212 | Unmapping keeps it too |
| `Sv39.FrameSpace` | kernel/vm.c:98-324 | What one address space does leaves every other one well formed and translating as before |
| `Teardown.FreedDone` | kernel/vm.c:263-278 | When all children are freed, freeing the page frees exactly the subtree |
| `Teardown.EmptySub` | kernel/vm.c:263-288 | A table without translations is a tree without leaf entries |
| `UserMemory.Memory.Vmfault` | kernel/vm.c:453-473 | Maps a zeroed page exactly for an unmapped address inside the process; otherwise, or short of memory, every translation stays |
| `UserMemory.Memory.Growproc` | kernel/proc.c:246-264 | For n > 0 the size becomes sz + n and zeroed pages are mapped up to it, or nothing changes, the latter only past TRAPFRAME or short of memory; for n < 0 with sz + n not negative the size becomes sz + n, no page above it is mapped and nfree grows by the pages that were; otherwise nothing changes |
| `UserMemory.Memory.Sbrk` | kernel/sysproc.c:40-65 | Returns the old size and makes it sz + n, or fails without a change; eager growth maps zeroed pages, shrinking unmaps and frees exactly the pages above, lazy growth touches no memory and fails exactly past TRAPFRAME; sz + n below 0 changes nothing |
| `UserMemory.Memory.SbrkBack` | kernel/sysproc.c:40-65 | A successful sbrk(n) followed by sbrk(-n) gives back the size and every translation |
| `UserMemory.Memory.Allocproc` | kernel/proc.c:118-159 | A trapframe page and a page table, or on failure every page as before, and only when memory was short |
| `UserMemory.Memory.Freeproc` | kernel/proc.c:165-181 | Every page of the process is free, every other process keeps its memory |
| `UserMemory.Memory.Fork` | kernel/proc.c:269-287 | The child is a copy of the parent, or nothing of it is left; other processes keep their memory |
| `UserMemory.Memory.Run` | kernel/proc.c:118-287 | Over any run of creation, fork, sbrk, page faults and exit every call has its effect and answer, every page has one owner and nfree is the list length; once all processes are gone the owners and nfree are those from the start |
| `UserMemory.Memory.Step` | kernel/proc.c:118-287 | One call has exactly its effect, and the pages of the kernel stay its own |
| `UserMemory.OtherKept` | kernel/vm.c:193-324 | What one process does leaves another process and its translations alone |
| `UserMemory.NothingLeft` | kernel/proc.c:165-225 | Without processes, every page is as before the first process |
| `ProcessRuns.NoLostExit` | kernel/proc.c:269-425 | In every run from boot: whenever wait_lock is free, no process asleep in kwait has a ZOMBIE child |
| `ProcessRuns.NoOrphan` | kernel/proc.c:321-376 | In every run: each process in use past USED, other than init, has a parent that is neither ZOMBIE nor UNUSED |
| `ProcessRuns.FreedOffStack` | kernel/proc.c:395-410 | In every run: kwait frees a child only when it has left its kernel stack for good |
| `ProcessRuns.TraceOk` | kernel/proc.c:269-638 | Every interleaving of the steps of all processes, with timer interrupts wherever no lock is held, keeps the whole invariant: locks and their holders, parents, sleepers and what wait has seen |
| `ProcessRuns.ActOk` | kernel/proc.c:269-638 | Every single step keeps the invariant; ProcessLives.Lives and the lemmas of ProcessCalls say what the steps do |
| `ProcessLives.Lives` | kernel/proc.c:269-638 | All that a step of any run can do to a slot: nothing, or exactly what allocproc, fork, exit, reparent, wakeup, wait, sleep, yield, kill or the scheduler does to it, each only by its own thread and from the right state |
| `ProcessLives.ZombieLeaves` | kernel/proc.c:381-425 | In every run a ZOMBIE keeps its identifier and status until its parent, in kwait, frees exactly that slot and is going to return both |
| `ProcessLives.WaitFrees` | kernel/proc.c:398-410 | A kwait that has found a ZOMBIE child and copied its status out empties that slot and no other in its next step, with the identifier and the kill flag gone and both numbers kept for the answer, and returns in the step after |
| `ProcessLives.AnswerTrue` | kernel/proc.c:381-425 | If wait returns an identifier and a status in any run, there was a moment at which the caller had a ZOMBIE child with both, and freed it |
| `ProcessLives.PidsApart` | kernel/proc.c:101-110 | In every run no two processes in use have the same identifier, and free slots have 0 |
| `ProcessLives.GoneForever` | kernel/proc.c:101-110 | An identifier that is gone never comes back |
| `ProcessLives.ForkTrue` | kernel/proc.c:269-316 | The identifier that fork is going to return is that of the child it makes RUNNABLE |
| `ProcessCalls.WaitReaps` | kernel/proc.c:381-410 | wait, undisturbed: frees the first ZOMBIE child, returns its identifier and status, and changes nothing else |
| `ProcessCalls.WaitFails` | kernel/proc.c:412-424 | ... and without one fails if there is no child or the caller is killed, and sleeps on its own channel otherwise |
| `ProcessCalls.ForkMakes` | kernel/proc.c:269-316 | fork, undisturbed: the first free slot is a RUNNABLE child of the caller with the next identifier, which is also the answer |
| `ProcessCalls.ForkFails` | kernel/proc.c:118-130 | ... and fails without a change if there is no free slot |
| `ProcessCalls.ExitLeaves` | kernel/proc.c:337-376 | exit, undisturbed: the caller is a ZOMBIE with its status, exactly its children belong to init, and exactly those that sleep on the channel of its parent or, if it had children, of init are woken |
| `ProcessCalls.KillHits` | kernel/proc.c:620-635 | kill, undisturbed: exactly the first slot with that identifier gets its kill flag, and becomes RUNNABLE exactly if it was SLEEPING; the answer is success |
| `ProcessCalls.KillMisses` | kernel/proc.c:620-638 | ... and without such a slot the answer is failure and nothing changes |
| `ProcessCalls.CallStarts` | kernel/sysproc.c:11-100 | A process that runs user code starts fork, wait, kill or exit at the first step of that call with its own argument and nothing else changed; for init exit is refused, where the source panics |
| `ProcessCalls.YieldReturns` | kernel/proc.c:521-528 | A process that yields and is resumed is where it was |
| `ProcessCalls.SleepReturns` | kernel/proc.c:570-614 | A process that sleeps on a channel is woken by a wakeup of that channel, and by no other, and returns where it was |
| `Processes.ExitZombieOk` | kernel/proc.c:366-371 | kexit may become a ZOMBIE because its parent was woken and its children were given to init |
| `Processes.ReparentOk` | kernel/proc.c:321-331 | Giving the children to init, one slot at a time, keeps the invariant; init is woken before wait_lock is released |
| `Processes.WakeSlotOk` | kernel/proc.c:601-614 | After wakeup has passed a slot on the channel of its process, that process does not sleep there |
| `Processes.ExitWakeOk` | kernel/proc.c:364-364 | wakeup of the parent reaches the parent |
| `ProcessRuns.WaitScanOk` | kernel/proc.c:389-412 | kwait has seen every earlier child not to be a ZOMBIE, and it stays so while it holds wait_lock |
| `ProcessRuns.ReapedOk` | kernel/proc.c:398-410 | Freeing a ZOMBIE child keeps the invariant, so that the table stays sound when its slot is used again |
| `ProcessRuns.SleepBothOk` | kernel/proc.c:570-596 | kwait holds its own lock before it releases wait_lock, so a child that exits after that finds it asleep |
| `ProcessRuns.SleepSchedOk` | kernel/proc.c:570-596 | The sleeper is off its stack before its lock is released |
| `ProcessRuns.MadeOk` | kernel/proc.c:118-159 | A fresh slot belongs to one fork and to no parent yet |
| `ProcessRuns.ForkWakeOk` | kernel/proc.c:307-313 | A child becomes RUNNABLE only after it has its parent |
| `ProcessRuns.KillOk` | kernel/proc.c:620-638 | kkill may wake any sleeper; the invariant stays |
| `ProcessRuns.ResumeOk` | kernel/proc.c:466-482 | The scheduler resumes only a RUNNABLE process, holding its lock |
| `ProcessRuns.YieldOk` | kernel/trap.c:154-156 | A timer interrupt wherever a process holds no lock, also between the locks of fork, exit, wait and kill, parks it and brings it back to the same place; the invariant stays |
| `ProcessRuns.OffItsStack` | kernel/proc.c:395-412 | A ZOMBIE whose lock another process holds is off its stack and has no children |
| `Lcg.LowBits` | kernel/proc.c:10-15 | The low 32 bits of the state after any number of calls depend only on the low 32 bits before |
| `Lcg.BitsDistinct` | kernel/proc.c:10-15 | In any 2^32 consecutive calls no value comes twice |
| `Lcg.EveryIntOnce` | kernel/proc.c:10-15 | Full period: in any 2^32 consecutive calls every int is returned exactly once |
| `Lcg.HalfNegative` | kernel/proc.c:10-15 | Exactly half of any 2^32 consecutive draws are negative |
| `Lcg.NoRepeat` | kernel/proc.c:10-15 | For every k, 2^k consecutive states differ modulo 2^k |
| `Lottery.Scheduler.Random` | kernel/proc.c:11-15 | The next state modulo 2^64 and its low 32 bits as a signed number |
| `Lottery.Scheduler.CountTickets` | kernel/proc.c:449-459 | The sum of the tickets of all RUNNABLE processes, wrapped to an int |
| `Lottery.Scheduler.Walk` | kernel/proc.c:463-482 | Picks the first RUNNABLE process whose running count exceeds the winner, and finds one exactly when some process is RUNNABLE |
| `Lottery.Scheduler.Round` | kernel/proc.c:449-488 | A process runs exactly when the wrapped sum is positive, and it is the one the draw picks |
| `Lottery.RunnableIsPicked` | kernel/proc.c:449-483 | With positive tickets and a sum below 2^31, some process is picked as soon as one is RUNNABLE |
| `Lottery.PicksRange` | kernel/proc.c:463-482 | A winner that is not negative picks a process exactly if it falls into its range of tickets |
| `Lottery.Proportional` | kernel/proc.c:463-482 | Exactly tickets many of the total_tickets winner values that are not negative pick a process |
| `Lottery.NegativePicksFirst` | kernel/proc.c:463-463 | Every draw that is zero or negative picks the first RUNNABLE process |
| `Lottery.DrawInRange` | kernel/proc.c:463-463 | The draw lies in 0 to total-1, as promised, exactly if the value of random is not negative or is a multiple of the total |
| `Lottery.WinsExactly` | kernel/proc.c:463-482 | Exact shares: how often each RUNNABLE process wins in any 2^32 consecutive draws, namely what its ticket range gets of 2^31 values modulo the total, and 2^31 more for the first one |
| `Lottery.OverflowStarves` | kernel/sysproc.c:112-122 | Two processes with 2^31 - 1 tickets each make the sum wrap, and nobody is picked |
| `Lottery.TicketsStayPositive` | kernel/sysproc.c:112-122 | Over any run of allocation, fork, settickets, state changes and exit each process in use has at least one ticket |
| `Lottery.TicketsLast` | kernel/sysproc.c:112-122 | settickets(n) gives n tickets, but at least one, fork gives the child as many as the parent has, and allocproc 10; they stay so over every run until the process sets them again or is freed |
| `VirtioDisk.Disk.AllocDesc` | kernel/virtio_disk.c:157-166 | The first free descriptor; none exactly when all are taken |
| `VirtioDisk.Disk.FreeDesc` | kernel/virtio_disk.c:170-182 | The descriptor is free and blank; callers prove it was taken, so its panics are unreachable |
| `VirtioDisk.Disk.Alloc3` | kernel/virtio_disk.c:202-213 | Three different free descriptors, or none taken exactly when there are not three |
| `VirtioDisk.Disk.Submit` | kernel/virtio_disk.c:216-281 | Posts exactly this request at the tail of the avail ring, in descriptors that no other request owns; fails, without a change, exactly if there are not three free ones |
| `VirtioDisk.Disk.DeviceFetch` | kernel/virtio_disk.c:271-281 | The device receives posted heads in order, also across the wrap of the 16-bit index |
| `VirtioDisk.Disk.DeviceComplete` | kernel/virtio_disk.c:216-281 | The device, which only follows the descriptors, moves the block of the request between its own buffer and its own sector, in the right direction |
| `VirtioDisk.Disk.See` | kernel/virtio_disk.c:312-324 | One round of the interrupt handler hands over the oldest completion, and no other |
| `VirtioDisk.Disk.Intr` | kernel/virtio_disk.c:295-327 | Every completion reaches the buffer that posted it, no other buffer is released, and the status panic is unreachable |
| `VirtioDisk.Disk.FreeChain` | kernel/virtio_disk.c:186-197 | Following the chain frees exactly its three descriptors |
| `VirtioDisk.Disk.Finish` | kernel/virtio_disk.c:283-291 | The three descriptors of the finished request, and no others, are free again; a buffer that was read holds what its sector held when the device completed the request |
| `VirtioDisk.Disk.Run` | kernel/virtio_disk.c:157-327 | Any interleaving of callers, the interrupt handler and the device keeps all of this, each step has exactly its effect on requests, rings, buffers and disk, and a descriptor is free exactly if no request owns it |
| `VirtioDisk.Disk.Step` | kernel/virtio_disk.c:157-327 | One step of a caller, the device or the handler, with its whole effect; a step that is not possible changes nothing |
| `Virtio.DecodeChain` | kernel/virtio_disk.c:235-269 | Reading the formatted descriptors from the head gives back the request |
| `Virtio.LaidPartition` | kernel/virtio_disk.c:228-269 | Free descriptors and chains still partition all NUM descriptors after a request is laid out |
| `Virtio.CutPartition` | kernel/virtio_disk.c:288-289 | ... and after a chain is freed |
| `Virtio.Wrapped` | kernel/virtio_disk.c:271-277 | Indexing with a counter modulo 2^16 is indexing with the counter |
| `VirtioDisk.RingEmpty` | kernel/virtio_disk.c:312-324 | The wrapped indices agree exactly when the ring is empty |
| `VirtioDisk.SeeOk` | kernel/virtio_disk.c:312-324 | The head at the used index leads to the buffer of its own request |
| `ShellParser.PrintParse` | user/sh.c:272-452 | Every command tree with good words and at most nine arguments per exec, printed with parentheses where the grammar needs them, parses back to itself |
| `Shell.RoundTrip` | user/sh.c:334-452 | The same on tokens |
| `Shell.ParsedTrip` | user/sh.c:334-452 | Whatever parses gives a command that printing and parsing reproduces |
| `Shell.LineTrip` | user/sh.c:351-365 | Printed command lines parse back, also before a closing parenthesis |
| `Shell.PipeTrip` | user/sh.c:368-378 | Printed pipelines parse back |
| `Shell.ExecTrip` | user/sh.c:406-452 | Printed simple and parenthesised commands with redirections parse back |
| `Shell.LineFits` | user/sh.c:422-452 | No parse result has an exec with more than nine arguments |
| `ShellParser.LexRender` | user/sh.c:272-314 | Printing tokens with spaces and splitting the line again gives the tokens |
| `ShellLexer.TokensExact` | user/sh.c:268-314 | A line has given tokens exactly if it is their texts with spaces, tabs, carriage returns, newlines or vertical tabs before, between and after, where only two words, or a > and a > or >>, need one |
| `ShellLexer.AcceptedLines` | user/sh.c:268-452 | Parsing a text gives a command exactly if the text reads as tokens that the grammar derives from it |
| `ShellGrammar.Grammar` | user/sh.c:334-452 | The parser accepts a line with a command exactly if the command derives the line in a grammar that does not mention the parser, so every other line, leftovers included, is refused |
| `ShellGrammar.Unambiguous` | user/sh.c:334-452 | No line is derived from two commands |
| `ShellGrammar.AllUsed` | user/sh.c:334-452 | The tokens of an accepted line are, as a multiset, its words, one mark for each pipe, list, background and redirection of the command, and pairs of parentheses |
| `ShellParser.Parser.Gettoken` | user/sh.c:272-314 | The next token of the line, where a word starts and ends, and the cursor past it |
| `ShellParser.Parser.Peek` | user/sh.c:317-326 | Whether the next token starts with one of the symbols; only spaces are skipped |
| `ShellParser.Parser.ParseRedirs` | user/sh.c:381-403 | Collects exactly the redirections that follow, or the panic for a missing file name |
| `ShellParser.Parser.ParseExecs` | user/sh.c:406-452 | The cursor parser agrees with the token grammar, in tree, panic and position |
| `ShellParser.Parser.ParseWords` | user/sh.c:435-451 | Fills argv in place up to its bound and never past it; agrees with the token grammar |
| `ShellParser.Parser.ParsePipes` | user/sh.c:368-378 | Agrees with the token grammar |
| `ShellParser.Parser.ParseLines` | user/sh.c:351-365 | Agrees with the token grammar; the loop and the recursion end |
| `ShellParser.Parser.ParseAll` | user/sh.c:334-348 | The whole line: the panic or the command of the token parser, which ShellGrammar.Grammar and ShellLexer.AcceptedLines characterise; afterwards the C strings that the tree points to in the buffer make exactly that command |
| `ShellParser.Nulterminate` | user/sh.c:456-499 | Puts a NUL behind every word of the command tree and touches no character of any word |
| `ShellParser.StoredIs` | user/sh.c:456-499 | So each word of the tree becomes a C string with exactly its text, although all words share one buffer |

## Left out

- Weak memory, fences, interrupts and multi-processor races outside locks; lock operations are atomic, and calls of `random` sequential.
- Blocking and fairness: no statement says that a waiting thread gets on eventually.
- `either_copyin` in `writei` copies a whole piece of a block or nothing; the source may change part of a cached block before a failing copy and not log it.
- FileSys.Fs.Writei: a read-change-log-release of one buffer is one update of a map; Mount sends the blocks through the buffers when the operation is complete, in any order, each with its last contents.
- FileSys blocks are typed as bytes, addresses or zeroes, and bitmap bits are a sequence of booleans; `Durable` packs them into words. Inodes have only a size and addresses, and their type word is 1.
- Durable.DiskDetermines: requires that bytes are below 256, that the bitmap and the inodes fit their blocks and that block numbers fit a word.
- FileSys.ChunkFits: bounds how many blocks one chunk logs; that some file system makes a chunk log that many is not stated.
- Log.Log.LogWrite: requires that the block is not in the log area, which the disk layout of fs.h guarantees.
- Log.Log.Commit: requires that nobody has the lock of a log block or a logged block; LogRuns.Kernel.CommitStep waits for them instead, one block of the commit being one step.
- Log.Log.WriteLog: the same.
- Log.Log.InstallTrans: the same.
- LogRuns.Kernel.Run: operations keep the rules of the log: they change blocks outside the log area only and add no more than they reserved. A change and its log_write are one step, and so is a block of a commit.
- Bio.Bcache.Bget: requires that nobody has the lock of the block; Bio.Bcache.Reference and Bio.Bcache.Acquire are its two halves without that. One device, the root; the source also keys buffers by device number.
- Bio.Bcache.Bread: the same.
- Mount.Mount.Put: the file system's operations take effect one after another, as its inode locks make them; several may be inside begin_op and end_op at once. Nobody else has a buffer while the blocks of one operation are logged.
- Mount.Mount.Serve: requires the layout that mkfs makes and a bitmap of at most nine blocks; one process makes the calls.
- FileSys.Fs.Session: requires a bitmap of at most nine blocks, because truncation may log all of them in one operation; a disk of FSSIZE blocks has one.
- Inodes.Itable.Iget: callers get inode numbers from a directory of an allocated inode, from `ialloc`, or at boot in `ireclaim`; directories themselves are not modelled.
- Inodes.Itable.Iload: major and minor numbers of device files are not modelled.
- Inodes.Itable.Ireclaim: runs at boot with an idle inode table, and its transactions are not those of `Log`.
- C arrays and linked headers are sequence and map fields that the methods reassign, except the shell's line buffer and argument arrays; pointers are indices.
- Page-table entries are records of a page number and flags, not 64-bit words; kfree's and kalloc's junk fill and the alignment panics are left out.
- The kernel page table, `walkaddr`, `copyin`, `copyout`, `copyinstr`, `uvmclear` and `exec`'s address spaces.
- Vm.Vm.Mappages: requires that the range is unmapped; the source panics otherwise.
- Umalloc.Umalloc.Free: requires a pointer that malloc returned and that is still in use; the source does not check.
- Umalloc.Umalloc.Malloc: says nothing about memory that sbrk grants to a request of more than 2^31 - 32 bytes, because the argument sbrk gets is another number then.
- Umalloc.Umalloc.Morecore: the same.
- Umalloc.Umalloc.Run: the same.
- UserMemory.Memory.Fork: registers, open files, the working directory and the name are not copied.
- Processes: open files and what a process computes are left out; the scheduler is a step that resumes any RUNNABLE process, and process identifiers are unbounded numbers instead of ints.
- ProcessCalls.WaitReaps: speaks of a caller that nobody disturbs, as do the other lemmas of ProcessCalls; ProcessLives.Lives, ProcessLives.WaitFrees and ProcessLives.AnswerTrue hold in every interleaving.
- ProcessRuns.TraceOk: a step is a stretch between two lock operations, with single-lock critical sections taken as one step; no interrupt arrives while a spinlock is held.
- Lottery.Scheduler.Round: the table does not change between counting and picking.
- VirtioDisk.Disk.Submit: the caller sleeps and tries again when it fails; `virtio_disk_init` and the device registers are left out.
- ShellParser.PrintParse: the printer is this project's; the shell has none.
- ShellParser.Parser.ParseAll: which of its four panics a refused line meets is stated through the token parser only.
- UserMemory.Memory.SbrkBack: the pages that come back into use are not the same physical pages, and their contents are zero.
- Path names, directories, `create`, `link`, `unlink`, pipes, the console, the UART, traps, system-call arguments, `exec`, the shared buffer, the page counters of `getmemstat` beyond nfree and nalloc, `sys_encrypt` and `sys_decrypt`: smaller or easier than what is modelled.
- User programs other than the shell's parser and malloc, `mkfs`, `printf` and string routines: standard small exercises.
