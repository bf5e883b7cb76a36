# xv6 kernel: a Dafny model and its proofs

A model of the parts of the xv6 RISC-V kernel, and of its user-level heap, where
correctness depends on many steps fitting together: the write-ahead log and its buffer
cache, sleep-locks, fork/exit/wait, page tables and the page allocator, the inode and
block layer, directory link counts, the virtio disk driver, pipes, and malloc/free.

Two forms are used. Code that one caller runs at a time is a class whose methods follow
the C functions loop by loop, update the same fields in place and are proved against
relations between the state before and after. Code whose point is concurrency is a
machine: a state, the steps each party can take, and invariants proved of every reachable
state; a step is one lock operation, one disk write or one memory access of interest.
Ownership is kept as bookkeeping beside the state (which table owns a page, which inode
slot owns a block, which block of the heap a unit is in), so that "exactly once" is a
fact about a map rather than about every pair.

| files | what they model |
|---|---|
| `Common` | integers, bytes and constants that several components share |
| `Blocks`, `LogSpec`, `LogCrash` | block images, the on-disk log, what a crash after any block write leaves |
| `LogDriver` | begin_op, log_write, commit and recovery as code over buffers and the disk |
| `LogMachine`, `LogMachineInv`, `LogTheorems` | all interleavings of operations, buffer use, commits, crashes and boots |
| `LogReserve`, `LogPanic`, `LogRun` | the log-space reservation, exactly when it is enough, and a run that commits |
| `BufferRing`, `BufferRuns` | the buffer cache's least-recently-released ring, and its order from the calls of a run |
| `SleepLock`, `SleepCalls` | sleep, wakeup, sched and sleep-locks step by step, and what callers get |
| `ExitWait`, `ExitWaitInv`, `WaitCalls` | fork, exit, wait and kill step by step |
| `ProcCalls`, `ExitCalls` | what each of these calls does as a whole when no other is in progress |
| `PageTables`, `MemChanges`, `PageCost`, `TableLife`, `UserBytes`, `CopySpec`, `Memory` | kalloc/kfree and the operations of vm.c |
| `FsSpec`, `FsChanges`, `FsFiles`, `FsWrites`, `FileSystem` | bitmap, block map, readi/writei/itrunc, filewrite |
| `LinkSpec`, `Links` | create, link, unlink and link counts |
| `Virtio`, `VirtioMachine`, `VirtioInv`, `VirtioCalls` | descriptors, rings, driver, interrupt handler and device |
| `Pipe`, `PipeCalls` | pipewrite, piperead and pipeclose, all interleavings |
| `HeapSpec`, `Heap` | malloc, free, morecore and the program break |

`dafny verify dfyconfig.toml` checks the whole project.

Where the code falls short of what one would expect, the model keeps the code's behaviour
and states exactly when it does what is expected:

- mkfs makes the log area LOGSIZE blocks long, so log_write's `log.size - 1` test refuses
  the last of LOGSIZE reserved blocks. An operation within its budget is never refused a
  new block exactly when the log area is longer than LOGSIZE (`LogPanic.ReservationExact`).
- log_write tests for a full log before it looks for the block, so even a block that is
  already listed is refused once LOGSIZE are (`LogPanic.AbsorptionRefused`). A listed block
  is always absorbed for operations that have logged fewer than m blocks exactly when
  m is at most MAXOPBLOCKS (`LogPanic.AbsorptionExact`). Over all blocks and all lengths of
  the log area, no log_write of such an operation is refused exactly when m is 0 or at most
  min(LOGSIZE, log.size - 1) - 2 * MAXOPBLOCKS (`LogPanic.RefusedExact`): 9 blocks on the
  disks mkfs makes. All of these are about runs that never need more than NBUF buffers.
- uvmcopy's error path unmaps every page it passed, including pages the parent does not
  map, and panics where the child has no level-0 table. `Memories.ForkHole` is a sequence of
  kernel calls that ends there. From the state before the call, it panics exactly when the
  free pages run out at a page below which the child lacks a table (`Memories.Memory.UvmCopy`,
  `CopySpec.Panics`). That is so for no number of free pages exactly when every group of 512
  pages that starts below a mapped page starts with a mapped page, or has its table already
  (`CopySpec.CopySafe`); that number may be more than a given machine has.
- morecore passes `nu * sizeof(Header)` to `sbrk(int)`. What malloc hands out lies below the
  program break exactly when a free block fitted, sbrk refused, or nbytes is at most
  0x7fffffe0; and malloc returns exactly unless the store of the new header faults
  (`Heaps.Heap.Malloc`). malloc(0x7fffffff) in a fresh process is killed by that fault if the
  break is at the start of a page, as exec leaves it, and otherwise returns a block the
  process does not have (`Heaps.HugeRequest`).
- nlink is a short, and path lookup can find a directory that has been removed. After link
  and create the counts are right exactly when nothing was made, or the directory is still
  in the tree and the count that went up was below the largest short (`Links.FsTree.Link`,
  `Links.FsTree.Create`). `Links.RemovedParent` and `Links.OneLinkTooMany` are calls on a
  fresh file system after which they are not.

## Model

| member | source | states |
|---|---|---|
| Blocks.WordOfSetWord | kernel/log.c:103-114 | storing a little-endian word of a block and reading any word back: that word is new, all others are as before |
| LogSpec.HeadRoundTrip | kernel/log.c:86-114 | what write_head stores, for any list that fits, is what read_head reads |
| LogSpec.RecoverAt | kernel/log.c:116-123 | recovery block by block: each listed home block gets its slot, every other block outside the log stays, the header ends empty |
| LogSpec.SlotWriteInvisible | kernel/log.c:178-191 | with an empty header, writing any log slot changes nothing recovery would produce |
| LogSpec.HeadWriteCommits | kernel/log.c:99-114 | writing the header is the commit point: recovery then gives the old disk with the whole transaction applied |
| LogSpec.InstallInvisible | kernel/log.c:67-83 | copying one slot home changes nothing recovery would produce, and leaves the log readable |
| LogSpec.ClearInvisible | kernel/log.c:199-201 | once every slot is home, erasing the header loses nothing |
| LogCrash.CommitPrefix | kernel/log.c:193-203 | after any number of commit's 2n+2 block writes, recovery yields all of the transaction if the header was written and none of it otherwise |
| LogCrash.CommitDone | kernel/log.c:193-203 | an uninterrupted commit leaves every logged block on its home, everything else unchanged and the log empty |
| LogCrash.CommitTrailSafe | kernel/log.c:193-203 | every disk image commit passes through is safe to crash at |
| LogCrash.CrashInRecovery | kernel/log.c:116-123 | after any number of recovery's writes, a further recovery gives the same home blocks; its last write completes it |
| LogCrash.RecoverTrailSafe | kernel/log.c:116-123 | every disk image recovery passes through recovers to the same home blocks |
| LogCrash.CrashedBootsHarmless | kernel/log.c:116-123 | any number of boots that crash anywhere in recovery change nothing a later recovery produces |
| LogCrash.CrashAtomicity | kernel/log.c:67-203 | crash anywhere in commit, then any number of crashed recoveries, then one complete one: logged blocks are all old or all new, decided by the header write, and every other block outside the log is untouched |
| LogDriver.Log.constructor | kernel/log.c:59-62 | a machine with an image on disk and nothing cached, listed or outstanding |
| LogDriver.Log.Bread | kernel/bio.c:91-103 | a reference to a buffer that shows the cached block, or the disk block if it was not cached |
| LogDriver.Log.Bwrite | kernel/bio.c:105-112 | one block of the disk becomes the buffer's data |
| LogDriver.Log.Brelse | kernel/bio.c:114-137 | one reference less; the data stays |
| LogDriver.Log.BeginOp | kernel/log.c:125-142 | admitted exactly when no commit is running and the list plus MAXOPBLOCKS for every open operation fits LOGSIZE |
| LogDriver.Log.LogWrite | kernel/log.c:214-235 | a block already listed is absorbed; a new one is listed and gets one pin; nothing else changes |
| LogDriver.Log.CopyToLog | kernel/log.c:183-190 | slot `tail` on disk gets the cached block; references return to what they were |
| LogDriver.Log.WriteLog | kernel/log.c:177-191 | the disk becomes the image after the slot writes, one block write per listed block |
| LogDriver.Log.WriteHead | kernel/log.c:99-114 | one block write that stores the in-memory header |
| LogDriver.Log.InstallOne | kernel/log.c:73-82 | one home block gets its slot and, outside recovery, loses its pin |
| LogDriver.Log.InstallTrans | kernel/log.c:67-83 | all listed blocks go home; when not recovering each loses exactly its pin |
| LogDriver.Log.WriteTransaction | kernel/log.c:196-198 | the images up to and including the header write, with the cache still holding the transaction |
| LogDriver.Log.FinishCommit | kernel/log.c:199-202 | the rest of commit: the transaction is home, pins are returned, the log is empty |
| LogDriver.Log.Commit | kernel/log.c:193-203 | nothing if nothing is listed, else exactly the 2n+2 writes of the commit trail; every prefix is safe to crash at |
| LogDriver.Log.EndOp | kernel/log.c:144-175 | the last operation out commits; "log.committing" is unreachable |
| LogDriver.Log.ReadHead | kernel/log.c:85-97 | the in-memory list becomes the one on disk |
| LogDriver.Log.RecoverFromLog | kernel/log.c:116-123 | the disk goes through exactly the recovery trail and ends recovered, with an empty log |
| LogMachineInv.StepInv | kernel/log.c:67-235 | every step of every thread, of the committer and of a crash keeps the machine's invariant |
| LogMachineInv.ReachableInv | kernel/log.c:67-235 | every reachable state satisfies the invariant |
| LogTheorems.GroupCommit | kernel/log.c:125-235 | in every reachable state recovery gives the first image plus exactly the committed groups, each made only of whole finished operations; committing implies outstanding == 0 |
| LogTheorems.LastOutCommits | kernel/log.c:146-175 | in every reachable state with no operation open and no commit running nothing waits: no block is listed and nothing logged is uncommitted, so the last end_op commits |
| LogTheorems.CommittedStays | kernel/log.c:193-203 | along every run groups are only added at the end; a crash keeps every committed group |
| LogTheorems.Durability | kernel/log.c:193-203 | once a commit has written its header, or no operation is open and no commit is running, everything logged since the last boot is in the committed groups, in order; every later run, crashes included, keeps it there, in groups of whole operations, and recovery gives it back |
| LogTheorems.OnePinEach | kernel/bio.c:58-89 | every block waiting for commit is cached with exactly one pin beyond its references and cannot be recycled; with nothing waiting no pin is left |
| LogTheorems.CopiesLastLogged | kernel/log.c:178-191 | write_log copies to a slot exactly the content of the last log_write of that block |
| LogTheorems.StepsNotStuck | kernel/log.c:67-235 | index, reference-count and header conditions the steps need always hold where they are needed |
| LogReserve.RoomForNewBlock | kernel/log.c:133-140 | in every run where operations keep their budget, a block new to its operation finds fewer than LOGSIZE listed |
| LogPanic.EnoughRoom | kernel/log.c:220-221 | with a log area longer than LOGSIZE no such block is refused |
| LogPanic.ReservationExact | kernel/log.c:214-235 | over runs within budget and within NBUF buffers: no operation is ever refused a new block if and only if the log area is longer than LOGSIZE |
| LogPanic.RefusedExact | kernel/log.c:214-235 | for any log length: no log_write, of a new or a listed block, by an operation that has logged fewer than m blocks is ever refused if and only if m is 0 or at most min(LOGSIZE, log.size - 1) - 2 * MAXOPBLOCKS |
| LogPanic.AbsorptionExact | kernel/log.c:220-229 | with a long enough log area, logging a listed block is never refused to operations that have logged fewer than m blocks if and only if m is at most MAXOPBLOCKS |
| LogPanic.AbsorptionRefused | kernel/log.c:220-229 | the run behind it, within NBUF buffers: three operations with MAXOPBLOCKS blocks each, after which logging an already listed block is refused |
| LogRun.OneCommit | kernel/log.c:125-203 | from any disk with an empty log there is a run that boots, opens an operation, logs a block, ends and commits: exactly that write is the one committed group, it is at home, and the log is idle |
| BufferRing.RunKeepsOk | kernel/bio.c:36-151 | along every run of gets, releases, pins and unpins the order is a permutation sorted by last release and no block of a real device is cached twice |
| BufferRing.GetIsOnlyOne | kernel/bio.c:58-89 | the buffer bget returns is referenced and is the only one for its block |
| BufferRuns.OrderedByRelease | kernel/bio.c:116-137 | after any run from binit the list goes from the buffer whose last release for good is latest to the one whose is earliest, computed from the calls alone |
| BufferRuns.RecyclesOldest | kernel/bio.c:75-88 | a miss recycles, among the buffers with no reference by the calls so far, the one released for good longest ago |
| BufferRing.BufferCache.constructor | kernel/bio.c:36-53 | binit links all NBUF buffers into a ring |
| BufferRing.BufferCache.FindCached | kernel/bio.c:65-73 | the buffer of this block if there is one, else none |
| BufferRing.BufferCache.FindFree | kernel/bio.c:75-88 | the least recently released buffer with refcnt 0 |
| BufferRing.BufferCache.Bget | kernel/bio.c:58-89 | a hit takes a reference; a miss recycles the least recently released unreferenced buffer |
| BufferRing.BufferCache.Brelse | kernel/bio.c:116-137 | one reference less; the last one moves the buffer to the front and leaves the ring well formed |
| BufferRing.BufferCache.MoveToFront | kernel/bio.c:127-134 | six pointer writes move one node to the front of the ring and keep it a ring |
| BufferRing.BufferCache.Bpin | kernel/bio.c:139-144 | one reference more, order unchanged |
| BufferRing.BufferCache.Bunpin | kernel/bio.c:146-151 | one reference less, order unchanged |
| SleepLock.StepInv | kernel/proc.c:515-613 | every lock operation and memory access of sleep, wakeup, sched, acquiresleep, releasesleep, yield and kill keeps the invariant |
| SleepLock.ReachableInv | kernel/proc.c:515-613 | every reachable state satisfies it |
| SleepLock.NoLostWakeup | kernel/proc.c:565-613 | in every reachable state a process SLEEPING on a sleep-lock whose spin-lock is free finds it locked |
| SleepLock.MutualExclusion | kernel/sleeplock.c:21-41 | at most one process has a sleep-lock, and `pid` names it |
| SleepLock.SchedLocks | kernel/proc.c:515-532 | sched is entered with the process's own lock and no other spin-lock |
| SleepCalls.CallsReturn | kernel/sleeplock.c:21-41 | whenever a process is between calls it has exactly the locks its acquiresleep and releasesleep calls asked for, and `locked` and `pid` say so for each of them and for no other |
| SleepCalls.Uncontended | kernel/sleeplock.c:21-31 | acquiresleep of a free lock returns with it |
| SleepCalls.WokenGets | kernel/proc.c:567-593 | a woken sleeper that finds the lock free returns with it |
| SleepCalls.KillsTake | kernel/proc.c:615-639 | every kill that has returned left its victim marked |
| SleepCalls.KillRouses | kernel/proc.c:624-633 | kill leaves its victim marked and awake |
| SleepCalls.RousedOnly | kernel/proc.c:595-639 | a sleeper sleeps on until the wakeup for its own lock or a kill reaches it, and is then runnable; only kill marks |
| SleepCalls.FieldsClear | kernel/sleeplock.c:33-41 | in every reachable state a process outside sleep has no channel and a lock nobody has names nobody |
| SleepCalls.Yields | kernel/proc.c:534-542 | yield gives up the CPU, stays runnable and comes back with nothing changed |
| SleepCalls.NoDeadlock | kernel/proc.c:515-639 | in every reachable state, if a process is inside one of these calls and not asleep, some process can take a step |
| ExitWaitInv.StepInv | kernel/proc.c:283-467 | every step of fork, exit, wait, kill and the scheduler keeps lock ownership, process states, parents, waiting parents and pids consistent |
| ExitWaitInv.ReachableInv | kernel/proc.c:283-467 | every reachable state satisfies it |
| ExitWaitInv.SleepersHaveNoZombie | kernel/proc.c:341-467 | whenever wait_lock is free, no process asleep in wait has a ZOMBIE child |
| ExitWaitInv.ParentsLive | kernel/proc.c:322-413 | every process past fork except init has a parent that is neither UNUSED, USED nor ZOMBIE |
| ExitWaitInv.ReapedOnce | kernel/proc.c:395-467 | each exited pid is reaped at most once, and has a zombie slot exactly until then |
| ExitWaitInv.ReapedIsOff | kernel/proc.c:432-452 | wait frees only its own child, off the CPU for good, whom nobody has as parent |
| WaitCalls.WaitGivesUp | kernel/proc.c:425-465 | when a scan ends without a zombie, wait returns -1 if and only if the caller is killed or nobody has it as parent, and otherwise goes to sleep |
| WaitCalls.CopyoutFails | kernel/proc.c:440-446 | a copyout error ends wait only at a zombie child of its own, which stays a zombie |
| WaitCalls.ParentsChange | kernel/proc.c:318-352 | a process gets its forker as parent, passes to init when that exits, and to nobody when reaped; no other step changes a parent, and all three hold wait_lock |
| WaitCalls.KillMarks | kernel/proc.c:615-639 | kill leaves its victim marked and not asleep and changes no other process |
| WaitCalls.KillsAndWakes | kernel/proc.c:595-639 | a process asleep in wait wakes if and only if it is killed, a child of its exits, or it is init and is given an orphan; a mark stays until the slot is freed |
| WaitCalls.NoDeadlock | kernel/proc.c:283-467 | in every reachable state, if a process is inside one of these calls and not asleep, some process can take a step |
| ProcCalls.ForkAlone | kernel/proc.c:283-339 | run with no lock held by others, fork makes the slot a runnable child with a fresh pid and changes nothing else |
| ProcCalls.WaitReaps | kernel/proc.c:417-456 | with no lock held by others, wait frees the first zombie child, reports its pid and changes nothing else |
| ProcCalls.WaitFails | kernel/proc.c:457-463 | with no lock held by others, wait without a child, or killed and without a zombie child, returns and changes nothing |
| ProcCalls.WaitSleeps | kernel/proc.c:464-467 | with no lock held by others, wait with children, none a zombie, leaves the caller asleep on its own channel, locks released |
| ProcCalls.WokenWaits | kernel/proc.c:585-593 | with no lock held by others, a waiter that is woken starts its scan again |
| ExitCalls.ExitAlone | kernel/proc.c:341-413 | with no lock held by others, exit hands every child to init, wakes exactly the sleepers on its parent, and on init if it had children, and leaves a zombie |
| ExitCalls.ExitEndsWait | kernel/proc.c:360-467 | a parent asleep in wait, when its child exits, is woken and reports that child |
| PageTables.NodeAtRole | kernel/vm.c:78-100 | a walk down a table reaches only that table's node for the address |
| PageTables.RoleNodeAt | kernel/vm.c:78-100 | every node of a table is reached by walking to the addresses it covers |
| PageTables.SetLeaf | kernel/vm.c:154-187 | storing a level-0 PTE changes the map of that one page of that one table and nothing else |
| PageTables.GrownMaps | kernel/vm.c:91-97 | adding a zeroed node below an invalid PTE leaves every table's map as it was |
| PageTables.MkPteParts | kernel/riscv.h:347-352 | a PTE made from a page and permissions gives back that page, those permissions and V |
| PageTables.PageOnce | kernel/vm.c:78-336 | no page is in two places: free list, table node, or user mapping |
| PageTables.PageNotLost | kernel/kalloc.c:33-82 | a page neither free nor in kernel hands is a node or is mapped |
| Memories.Memory.constructor | kernel/kalloc.c:26-31 | kinit: every page of RAM is free |
| Memories.Memory.FreeRange | kernel/kalloc.c:33-40 | exactly the whole pages in the range become free |
| Memories.Memory.Kalloc | kernel/kalloc.c:65-82 | the first page of the free list, filled with junk, or 0 exactly when the list is empty |
| Memories.Memory.Kfree | kernel/kalloc.c:42-63 | the page goes to the front of the list, linked through its own memory |
| Memories.Memory.Walk | kernel/vm.c:66-100 | finds the PTE exactly when the level-0 table is there; with alloc it adds nodes only, in this tree only, and no map changes, and it succeeds exactly when there are as many free pages as nodes missing on the path |
| Memories.Memory.WalkAddr | kernel/vm.c:102-123 | the page the user can reach at an address, else 0 |
| Memories.Memory.MapPages | kernel/vm.c:134-161 | exactly the pages in range map to consecutive pages with the permissions given; on failure exactly a prefix does and memory is out |
| Memories.Memory.GainPage | kernel/vm.c:233-245 | a page is taken, filled and mapped, or given back; this works exactly when there is a free page for it and for every node missing on the path, and takes just those |
| Memories.Memory.UvmUnmap | kernel/vm.c:163-189 | exactly the pages in range are unmapped; their pages are free or back in kernel hands; PTEs that were invalid are skipped |
| Memories.Memory.UvmCreate | kernel/vm.c:191-202 | a new table that maps nothing, or 0 exactly when memory is out |
| Memories.Memory.UvmDealloc | kernel/vm.c:250-267 | unmaps and frees exactly the pages between the rounded sizes |
| Memories.Memory.UvmAlloc | kernel/vm.c:219-248 | maps fresh zero pages, readable, writable, executable and user, over exactly the new range; it succeeds exactly when there are free pages for the range and for the nodes missing for it, and takes that many; on failure every map is as before, all pages taken are free again, except table nodes, and nothing else is free |
| MemChanges.ZeroBits | kernel/vm.c:232-240 | each of those pages is zero and its PTE has V, R, W, X and U set |
| PageTables.PermBits | kernel/riscv.h:341-352 | of any permissions: the PTE made passes the user test if and only if U was asked for, and counts as a lower table if and only if none of R, W, X was |
| Memories.Memory.FreeWalk | kernel/vm.c:269-290 | frees exactly the nodes below a node, and never meets a leaf |
| Memories.Memory.UvmFree | kernel/vm.c:292-299 | every page of the table, node or leaf, is free; nothing of any other table changes |
| Memories.Memory.UvmCopy | kernel/vm.c:301-336 | on success the child reads the parent's bytes from pages of its own with the same flags; on failure every map is as before; it succeeds exactly when the cost of the copy, nodes included, is free, stops at the one page where the cost passes what is free, and panics exactly when the child lacks a level-0 table for a page below that one |
| CopySpec.ChildReads | kernel/vm.c:301-336 | copied pages give the child every byte the parent sees |
| PageCost.PathNodes | kernel/vm.c:66-100 | after a walk that allocates, exactly the nodes of that one path are new |
| PageCost.GrowsMissing | kernel/vm.c:219-248 | page after page, what the next one misses is what the cost counts for it: its nodes that were not there before and that no earlier page brought |
| CopySpec.StopsOnce | kernel/vm.c:312-331 | a copy that is not affordable stops at exactly one page, a mapped one |
| CopySpec.CopySafe | kernel/vm.c:333-335 | no number of free pages makes the copy panic if and only if groups of 512 pages start with a mapped page or have their table |
| Memories.ForkHole | kernel/vm.c:301-336 | from boot, in any machine of eight pages or more: create a table, grow it by two pages, unmap the first, create a child, use up memory, copy: uvmcopy panics |
| Memories.Memory.CopyOut | kernel/vm.c:350-373 | succeeds exactly when the user can reach every page in range; then exactly those bytes of that process change, and no other process's; on failure a prefix is written |
| Memories.Memory.CopyIn | kernel/vm.c:375-398 | succeeds exactly when the user can reach every page in range; the bytes are those of the user's memory; nothing changes |
| FsSpec.PutBitAt | kernel/fs.c:74-76 | setting or clearing a bit of a byte changes that bit and no other |
| FsSpec.MarkAt | kernel/fs.c:71-101 | marking a block changes its own bitmap bit and no other |
| FsFiles.BlockOnce | kernel/fs.c:64-103 | a data block's bit is set exactly when a direct, indirect or indirect-root slot names it, and then exactly one does; no slot names metadata |
| FsFiles.FormatOk | mkfs/mkfs.c:234-248 | a zeroed disk with exactly the metadata blocks' bits set and all inodes empty is a sound file system: every bit agrees with the block's owner, and no file has a hole |
| FileSystems.FileSystem.Format | mkfs/mkfs.c:107-110 | such a file system, with nothing logged, as a start of every run |
| FileSystems.FileSystem.Balloc | kernel/fs.c:63-86 | the first free block, never block 0 or one in use, zeroed and marked; no file changes |
| FileSystems.FileSystem.Bfree | kernel/fs.c:88-103 | the block's bit was set, so "freeing free block" is unreachable; the block is free |
| FileSystems.FileSystem.Bmap | kernel/fs.c:375-405 | the file block's disk block, allocated if missing; no other slot and no file content changes; exactly the missing blocks are taken; a block that is there is found without any change |
| FileSystems.FileSystem.Itrunc | kernel/fs.c:407-437 | exactly the inode's blocks become free, it is empty, it is written to disk, and no other file changes |
| FileSystems.FileSystem.Readi | kernel/fs.c:451-477 | the bytes of the file from off on, cnt of them or up to its size; none for an offset past the end or a range that overflows; no file changes, and reading a file without holes logs nothing and changes nothing at all |
| FileSystems.FileSystem.Writei | kernel/fs.c:479-517 | -1 exactly when off is past the end or off + n exceeds MAXFILE blocks; else the bytes are in place, the size grows as needed, the inode is on disk and no other file changes |
| FsFiles.BmappedWhole | kernel/fs.c:375-405 | bmap leaves every file without holes as such |
| FsWrites.WroteWhole | kernel/fs.c:479-517 | so does writei, for the file written and all others |
| FsWrites.TruncWhole | kernel/fs.c:407-437 | so does itrunc |
| FsWrites.WroteContent | kernel/fs.c:497-509 | after writei the file is the old content with src spliced in at off |
| FsFiles.ChunkNeeds | kernel/file.c:149-155 | a write of three blocks' worth of bytes to a file without holes touches at most 4 blocks and allocates at most 4 |
| FileSystems.FileSystem.WriteChunk | kernel/file.c:158-167 | one filewrite transaction logs at most MAXOPBLOCKS distinct blocks and keeps the file, and all files, free of holes |
| FileSystems.FileSystem.FileWrite | kernel/file.c:148-175 | chunk by chunk: exactly the accepted prefix is spliced in at the offset, the offset advances by it, and n is returned exactly when all was accepted |
| FsWrites.AcceptedAll | kernel/file.c:157-175 | all bytes are accepted if and only if all of them fit in the file |
| LinkSpec.LinkOk | kernel/sysfile.c:120-162 | one more entry and one more link keep every count equal to its entries |
| LinkSpec.LinkBroken | kernel/sysfile.c:145-152 | a link made in a directory that is out of the tree, or one more than a short holds, leaves a count that is wrong |
| LinkSpec.FileUnlinkedOk | kernel/sysfile.c:226-238 | so do one entry and one link less of a file |
| LinkSpec.EmptyDirOnce | kernel/sysfile.c:218-224 | an empty directory other than the root has exactly one link |
| LinkSpec.DirUnlinkedOk | kernel/sysfile.c:226-238 | removing an empty directory keeps every count, its parent's ".." link included |
| LinkSpec.DirCreatedOk | kernel/sysfile.c:271-290 | so does making a directory |
| LinkSpec.DirBroken | kernel/sysfile.c:271-290 | a directory made there, or under a parent whose count is the largest short, leaves one too |
| LinkSpec.ReclaimedOk | kernel/fs.c:332-358 | freeing an inode without links keeps every count |
| Links.FsTree.constructor | mkfs/mkfs.c:116-127 | a tree with the root alone |
| Links.FsTree.DirLookup | kernel/fs.c:527-553 | the first live entry of that name, or none |
| Links.FsTree.DirLink | kernel/fs.c:555-583 | fails exactly when the name is there; else the first empty entry or the end gets it |
| Links.FsTree.IsDirEmpty | kernel/sysfile.c:173-188 | whether no entry after the first two is live |
| Links.FsTree.Link | kernel/sysfile.c:120-171 | succeeds exactly for a file and a new name in a found directory; on failure nothing has changed; the counts are right afterwards if and only if it failed, or the directory is in the tree and the old count was below the largest short |
| Links.FsTree.Unlink | kernel/sysfile.c:190-248 | for any directory, removed ones included: succeeds exactly for a present name other than the dots that is no directory in use; the counts stay right; "unlink: nlink < 1" is unreachable; on failure nothing has changed |
| Links.FsTree.Ialloc | kernel/fs.c:192-215 | the first unused inode, now without links |
| Links.FsTree.Create | kernel/sysfile.c:250-295 | a new inode with one link under a new name; an existing file is returned for T_FILE; otherwise nothing changes; the counts are right afterwards if and only if nothing was made, or the parent is in the tree and, for a directory, has a link left |
| Links.RemovedParent | kernel/sysfile.c:250-295 | mkdir, rmdir of it while in use, and creat in it: a count is wrong |
| Links.OneLinkTooMany | kernel/sysfile.c:120-162 | a file linked 32767 times, over two directories, under distinct names of four characters, and once more: a count is wrong |
| Links.FsTree.Reclaim | kernel/fs.c:332-358 | an inode without links is free |
| Virtio.Driver.AllocDesc | kernel/virtio_disk.c:143-154 | the first free descriptor is taken, or -1 exactly when none is free |
| Virtio.Driver.Alloc3Desc | kernel/virtio_disk.c:187-201 | the first three free descriptors, or none taken exactly when fewer than three are free |
| Virtio.Driver.FreeChain | kernel/virtio_disk.c:172-185 | exactly the three descriptors of a chain are freed |
| Virtio.FreedBack | kernel/virtio_disk.c:156-258 | allocating three descriptors, setting up a request in them and freeing the chain gives back the same free descriptors, and no other has changed |
| VirtioInv.StepInv | kernel/virtio_disk.c:203-315 | every step of callers, interrupt handler and device keeps the invariant |
| VirtioInv.ReachableInv | kernel/virtio_disk.c:203-315 | every reachable state satisfies it |
| VirtioInv.Partition | kernel/virtio_disk.c:143-201 | every descriptor is free or in exactly one three-element chain in flight |
| VirtioInv.AvailKept | kernel/virtio_disk.c:259-265 | the avail slot about to be written holds no entry the device has not read, across uint16 wrap |
| VirtioInv.UsedKept | kernel/virtio_disk.c:297-312 | the used slot about to be written holds no entry the handler has not read |
| VirtioInv.OwnRequestServed | kernel/virtio_disk.c:271-279 | a caller goes on only after the device has served its own request exactly once, with status 0, and touched its buffer no other time |
| VirtioInv.InterruptSafe | kernel/virtio_disk.c:300-312 | the handler always finds a chain in flight, its buffer, and the status the device gave that very request; its panic test fires exactly when the device reported an error |
| VirtioInv.DeviceReads | kernel/virtio_disk.c:223-265 | what the device takes from the avail ring is a well-formed chain for exactly the request its caller made |
| VirtioCalls.CallsKeepRequest | kernel/virtio_disk.c:203-280 | in every run a call is over exactly when it has finished, and until then works on the request it was called with |
| VirtioCalls.HandlerLeavesNone | kernel/virtio_disk.c:298-314 | when the handler ends, no chain the device has published as used is left unacknowledged |
| VirtioCalls.WaitsForAnswer | kernel/virtio_disk.c:271-279 | under the lock a caller sleeps if and only if its request is not acknowledged, and returns if and only if it is |
| VirtioCalls.StarvedOnly | kernel/virtio_disk.c:188-221 | a caller sleeps for descriptors if and only if no three are free |
| VirtioCalls.StatusUnanswered | kernel/virtio_disk.c:248-276 | in every reachable state the status of a chain is 0xff until the device answers, and no buffer is kept past its request |
| VirtioCalls.NoDeadlock | kernel/virtio_disk.c:203-315 | while a call is in progress the holder of the lock can go on or, with the lock free, the caller can, unless the device reported an error |
| VirtioCalls.RequestGoesThrough | kernel/virtio_disk.c:203-315 | with three free descriptors and empty rings a request is submitted, served, acknowledged and returned, with the same descriptors free, the rings empty and no lock held |
| Pipe.StepInv | kernel/pipe.c:58-130 | every step of writers, readers and closes keeps the ring and the sleepers consistent |
| Pipe.ReachableInv | kernel/pipe.c:58-130 | every reachable state satisfies it |
| Pipe.FirstInFirstOut | kernel/pipe.c:76-130 | bytes taken followed by bytes in the ring are the bytes stored, in order; nwrite - nread stays within 0..PIPESIZE across uint32 wrap |
| PipeCalls.PipeDelivers | kernel/pipe.c:76-130 | in every run what has been taken out, followed by the ring, is the bytes of the writers' own buffers, each from its front on, in the order they were put in |
| PipeCalls.WriteEnds | kernel/pipe.c:76-103 | pipewrite is done if and only if all its bytes are in, and gives up if and only if some are not and the read end was closed |
| PipeCalls.ReadEnds | kernel/pipe.c:105-130 | piperead returns with the bytes it asked for, or fewer with the pipe empty, and they are the last ones taken out, in order |
| PipeCalls.Carries | kernel/pipe.c:76-130 | a write of at most PIPESIZE bytes into an idle empty pipe and a read of as many: the reader gets exactly those bytes |
| PipeCalls.NoDeadlock | kernel/pipe.c:76-130 | the caller that has the lock can go on, and with the lock free a woken one can |
| Pipe.ZeroMeansEnd | kernel/pipe.c:105-130 | a zero result for n > 0 means empty with the write end closed |
| Pipe.SleepersWait | kernel/pipe.c:58-130 | with the lock free, a sleeping reader faces an empty pipe with its write end open, a sleeping writer a full one with its read end open |
| HeapSpec.UnitOnce | user/umalloc.c:24-90 | every unit obtained from sbrk is in exactly one block, free or live |
| HeapSpec.FreeArenaOk | user/umalloc.c:24-44 | freeing a live block keeps the ring circular, address-ordered and fully coalesced, loses no unit and touches no other live block |
| HeapSpec.UnlinkedOk | user/umalloc.c:76-77 | taking a whole node off the ring keeps it so |
| HeapSpec.CutOk | user/umalloc.c:78-82 | cutting the tail off a node keeps it so |
| HeapSpec.GrantedOk | user/umalloc.c:46-61 | so do new units from sbrk above everything held |
| Heaps.Heap.constructor | user/umalloc.c:21-22 | nothing allocated, no ring yet, the break above the program |
| Heaps.BreakMoves | kernel/proc.c:260-279 | unless sbrk refuses, the break ends exactly nu units up if and only if nu < 2^27; otherwise it ends below the end of what morecore takes |
| Heaps.Heap.Sbrk | kernel/proc.c:260-279 | the break moves as growproc moves it; growing keeps everything handed out below it |
| Heaps.Heap.FindPlace | user/umalloc.c:29-32 | the search ends, at the node after which the block belongs |
| Heaps.Heap.Free | user/umalloc.c:24-44 | the block is no longer live; every unit is kept; other live headers are untouched; the ring stays coalesced |
| Heaps.NoFault | user/umalloc.c:54-58 | below 2^27 units the store of the header never faults |
| Heaps.Heap.Morecore | user/umalloc.c:46-61 | fails exactly when sbrk refuses, changing nothing; the process is killed exactly when the old break is on no page of it after sbrk; else at least the units asked for are added and one free block can hold them; all units lie below the break if and only if it failed or nu < 2^27 |
| Heaps.Heap.Malloc | user/umalloc.c:63-90 | for every uint: both loops end; it returns exactly unless morecore faults; 0 exactly when no free block fits and sbrk refuses; else a new live block of the right size, and units are added only if nothing fitted; all units lie below the break if and only if it failed, a block fitted, or nbytes is at most 0x7fffffe0 |
| Heaps.Heap.Take | user/umalloc.c:75-85 | the node's whole block or its tail becomes live; no unit is lost |
| Heaps.HugeRequest | user/umalloc.c:46-61 | malloc(0x7fffffff) in a fresh process: whatever memory there is, the break stays; the process is killed if the break is at the start of a page, and else a block is returned that it does not have |

## Left out

- sys_mmap, sys_munmap and the page-fault path: the file offset is stored but never used and write-back goes through the shared file offset, so they fix no clean page-to-file correspondence.
- Assembly, trap entry and exit, CSRs, PLIC, UART, timers and boot: hardware interaction.
- Spin-lock internals and memory fences: acquire and release are atomic steps on an owner.
- kernel/console.c, kernel/uart.c, kernel/exec.c, the shell and the user utilities: each works on one buffer or one argument at a time, and no invariant spans their calls.
- Path lookup (namei, nameiparent) and the inode table's reference counts: what a lookup finds is a parameter of create, link and unlink.
- kvmmake, uvminit, uvmclear: each is one or a few calls of mappages or walk, whose contracts say what they do. copyinstr: copyin's loop with a test for the zero byte.
- The byte layout of dinodes and directory entries on disk: inodes and entries are records; the log header and the indirect block are real bytes.
- A page's two readings: a page holds PTEs, bytes or a free-list link according to its last memset, rather than raw bytes read three ways.
- TLB flushes and the hardware's own page-table walk.
- Liveness: that a woken process eventually runs, that begin_op is eventually admitted, that the device eventually answers.
- Memories.Memory.UvmAlloc: requires newsz up to TRAPFRAME; beyond it the code would run out of physical memory or reach the trapframe's mapping.
- Memories.Memory.UvmDealloc: requires a level-0 table for every page in range, as uvmunmap panics without one.
- Memories.Memory.UvmFree: requires that nothing is mapped at or above sz, as freewalk panics at a leaf.
- FileSystems.FileSystem.Writei: user copies succeed; a copy that fails part-way is not modelled.
- FileSystems.FileSystem.Readi: user copies succeed; blocks missing below size are allocated on reading, as in the code.
- FileSystems.FileSystem.WriteChunk: the bound is for files without holes, which is what writei itself keeps.
- Links.FsTree.Create: a free inode and room in the directory are preconditions, as the code panics without them.
- Links.FsTree.Unlink: calls run one at a time; the freeing of an unlinked inode is the separate Reclaim.
- Pipe.SleepersWait: kill is not a step, because pipewrite's early return for a killed writer skips its wakeup.
- VirtioInv.InterruptSafe: what the driver does after an error is a panic, so nothing follows it.
- VirtioInv.OwnRequestServed: sleep and wakeup are abstracted to waking at any time, so nothing is claimed about being woken.
- ExitWaitInv.StepInv: yield and preemption are not steps, and wait is the only reason to sleep in this machine; SleepLock has both.
- ExitWaitInv.SleepersHaveNoZombie: wait is the only reason to sleep in this machine.
- Heaps.Heap.Malloc: block sizes do not wrap at 2^32; addresses and the break are counted in headers of 16 bytes.
- Heaps.Heap.Sbrk: requires a multiple of 16 bytes; after a program's own sbrk of another size morecore's header would not be aligned. That a process cannot grow beyond the machine's RAM is a constant; whether pages are left below that is a parameter.
- BufferRing.RunKeepsOk: buffers start out as device 0, so uniqueness is claimed for other devices.
- LogDriver.Log.Bread: the cache is a map with unlimited buffers; recycling is BufferRing's subject and the machine's Evict step.
- LogDriver.Log.Bwrite: buffers' sleep-locks are the machine's subject, not the driver's.
- LogDriver.Log.Brelse: the order of release is BufferRing's subject.
- LogDriver.Log.constructor: the recovery that initlog ends with is the separate call RecoverFromLog.
- LogDriver.Log.BeginOp: one turn of its loop; waiting is modelled by the machine.
- SleepLock.StepInv: a call begins with the step that takes its spin-lock; before that the process is simply running, and may yield.
- FileSystems.FileSystem.FileWrite: user copies succeed, as in Writei.
- LogReserve.RoomForNewBlock: the budget of MAXOPBLOCKS distinct blocks per operation is an assumption on callers, met by filewrite's chunks (WriteChunk).
