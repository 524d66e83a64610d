# xv6: file system, memory, processes and shell

A Dafny model of the parts of xv6 (the copy under `mp01/xv6-riscv`) whose correctness
is hardest to see from the code, with proofs of what they promise. Sequential code that
updates state is modelled as classes with methods and loops; protocols between
processes, devices and crashes are modelled as state machines whose steps are single
statements or critical sections, and the results hold in every reachable state.

- **Redo log and buffer cache.** `LogSpace` is the space accounting of `begin_op`,
  `log_write` and `end_op`. `LogFormat`, `LogMachine`, `LogInvariant` and `CrashSafety`
  are the log running over the buffer cache, with crashes between any two disk writes;
  `StrayData` is about contents that were changed but not logged. `LogRuns`, `LogOverrun`
  and `StrayRun` write down the runs that show where the laws end, `LogProgress` those that
  show that commits and recoveries come to their end. `LogWaiters` is about who sleeps in
  `begin_op`, and that every sleeper can get in.
  `LogDevice` is the code of commit and recovery, with the disk after each single write.
  `BufferCache` is `bio.c` with its doubly linked list.
- **Files.** `BlockBytes`, `FileBlocks` and `FileSystem` are block allocation, `bmap`,
  `itrunc`, `readi`, `writei` and the loop of `filewrite`, over what `bread` returns.
- **Memory.** `PageTable`, `FreeTree` and `VirtualMemory` are the page tables of `vm.c`
  over the free list of `kalloc.c`. `Malloc` is the user-level allocator.
- **Processes.** `SleepLock` and `SleepLockRun` are sleep and wakeup under sleep locks. `ExitWait` is fork,
  exit, wait and reparenting, and `MissedExit` the run in which initproc misses an exit.
- **Devices and pipes.** `VirtioRing`, `Virtio` and `VirtioSafety` are the virtio disk
  driver with its interrupt handler and device, `VirtioWakeups` is about who sleeps there, and `VirtioRun` carries requests out from
  beginning to end. `Pipe` and `PipeRun` are `pipe.c`.
- **User programs.** `ShellSyntax`, `ShellPrinter`, `ShellRoundTrip`, `ShellWords` and
  `Shell` are the shell's parser; `ShellTokens`, `ShellGrammar` and `ShellLayout` are the
  language it accepts, by tokens, by grammar and by characters. `Grep` is the pattern
  matcher. `Threads` is the user-level thread ring.

`Common` holds what several modules share.

`dafny verify dfyconfig.toml` checks everything.

## Findings

- The guard of `log_write` (`log.c:219`) runs before the lock is taken. With the log size
  that `mkfs` gives (LOGSIZE blocks with the header), two calls can both pass it and fill
  one block too many. `LogSpace.GuardRace` is that run of the bookkeeping, and
  `LogSpace.LogAreaSuffices` the exact condition, log.size at least LOGSIZE + 1. The run is
  one of calls that use nearly all of MAXOPBLOCKS; `write` calls use at most seven blocks
  each (`FileSystem.WriteBudget`).
- What an overfull log does to the disk depends on the number of buffers. With more than
  log.size of them the commit copies one block too many, over the home block behind the log
  area, and recovery does not bring it back (`LogOverrun.OverrunLosesBlock`). With NBUF equal
  to log.size, as in `param.h` and `mkfs`, the overfull log pins every buffer, `write_log`
  finds none for the log area and nothing reaches the disk. `LogOverrun.CrashAtomicityExact`
  is the exact condition: crash atomicity holds in every run if and only if log.size is at
  least LOGSIZE + 1, or there are at most log.size buffers, or the log has no data blocks.
- `writei` releases a buffer that it has changed without `log_write` when its copy fails
  (`fs.c:497-499`). If the block is already in the log, the commit stores bytes that were
  never logged (`StrayRun.StrayCommitted`); a reader may see them (`StrayRun.StrayRead`), or
  they get lost (`StrayRun.StrayRecycled`). Groups are still atomic:
  `CrashSafety.CrashAtomicity` is about what the cache holds when the commit starts.
  `CrashSafety.CommitIsWhole`, `BreadReturnsLatest` and `RecycledIsClean` say that the laws
  for logged contents hold exactly for buffers that were not released that way, and
  `CrashSafety.StrayStep` that no other step breaks them.
- The same guard comes before the test for absorption. On a full log it stops a call that
  only writes again a block that is already logged, which needs no room
  (`LogSpace.AbsorbedWriteRefused`). `LogSpace.GuardRefusesWhenFull` says that it refuses a
  call exactly when the log is full, and then only such a call.
- `wait` misses no exit, except that initproc may: a process reads its parent, and is given
  to initproc before it becomes a zombie; it then wakes the parent that it read.
  `MissedExit.InitMissesExit` is a run, for every table of at least three slots, after which
  initproc sleeps with a zombie child and nobody is left to wake it. The comments of `exit`
  call a missed wakeup harmless. `ExitWait.MissedOnlyIfGivenAway` says that this is the only
  way, and `MissedExit.NoExitMissedExact` that no exit is missed if and only if the table
  has at most two slots.
- A writer that has filled a pipe and finds itself killed returns without waking the readers
  (`pipe.c:86-88`). `Pipe.ReaderSleepsOn` is a run after which a reader sleeps before a full
  pipe. `Pipe.ReadersStep` says that this step, and no other, breaks the law that readers
  sleep only before an empty pipe.
- `writei` keeps its count in an unsigned variable, so after a failing copy, which sets it
  to -1, the size is still updated and the inode stored. The model does the same, and the
  files stay without holes.

## Model

| member | source | states |
|---|---|---|
| `LogSpace.StepKeepsInv` | mp01/xv6-riscv/kernel/log.c:126-175 | every critical section of begin_op, log_write and end_op, and the unlocked guard of log_write between them, keeps the reservation invariant |
| `LogSpace.ReservationBound` | mp01/xv6-riscv/kernel/log.c:126-175 | in every interleaving: logged blocks plus what running calls may still append stay within LOGSIZE, logged block numbers are distinct, a commit starts only with no call running, and between commits an idle log is empty |
| `LogSpace.GuardRace` | mp01/xv6-riscv/kernel/log.c:214-235 | counter-example run: two calls pass the unlocked guard before either appends, and the log overruns its area by one block |
| `LogSpace.LogAreaSuffices` | mp01/xv6-riscv/kernel/log.c:214-235 | the log stays inside its on-disk area in every interleaving if and only if log.size is at least LOGSIZE + 1 (mkfs makes it LOGSIZE) |
| `LogSpace.GuardAdmitsBudgetedAppends` | mp01/xv6-riscv/kernel/log.c:219-222 | a call with an append left of its MAXOPBLOCKS always passes the guard, without panic, if and only if log.size is at least LOGSIZE + 1 |
| `LogSpace.GuardRefusesWhenFull` | mp01/xv6-riscv/kernel/log.c:219-222 | with log.size at least LOGSIZE + 1, the guard refuses a running call if and only if the log is full; the call has then no append left, so only the rewriting of a logged block can be refused |
| `LogSpace.AbsorbedWriteRefused` | mp01/xv6-riscv/kernel/log.c:219-232 | such a refusal is reachable: a full log, and a call within its budget that would write a logged block again |
| `LogSpace.FullLog` | mp01/xv6-riscv/kernel/log.c:126-143 | three calls that use their whole budget fill the log to exactly LOGSIZE |
| `LogFormat.HeaderRoundTrip` | mp01/xv6-riscv/kernel/log.c:86-114 | read_head gives back the list that write_head stored |
| `LogFormat.InstalledAt` | mp01/xv6-riscv/kernel/log.c:68-83 | install_trans block by block, after any number of its copies |
| `LogFormat.RecoveredAt` | mp01/xv6-riscv/kernel/log.c:116-123 | recovery gives each logged home block its logged contents and leaves every other home block alone |
| `CrashSafety.StepKept` | mp01/xv6-riscv/kernel/log.c:116-235 | every step of calls, cache, commit, crash and recovery, releasing a changed buffer without log_write included, keeps the whole invariant |
| `LogProgress.CommitEnds` | mp01/xv6-riscv/kernel/log.c:164-175 | the last step of a commit leaves log.committing clear and the log empty, changes nothing else, and any call can then begin if one reservation fits an empty log |
| `LogProgress.EmptyCall` | mp01/xv6-riscv/kernel/log.c:146-203 | a call that logs nothing commits nothing: once it has ended, all is as before |
| `LogProgress.EveryNumberOfCommits` | mp01/xv6-riscv/kernel/log.c:126-235 | for every k a run with exactly k commits, each through begin_op, log_write, end_op, write_log, both headers and install_trans, after which begin_op is open again |
| `LogProgress.RecoveryCompletes` | mp01/xv6-riscv/kernel/log.c:53-123 | from every state a crash and a recovery lead, step by step, to a running system with an empty log and to exactly the recovered disk, whose home blocks are the committed ones; two buffers are enough |
| `CrashSafety.CrashAtomicity` | mp01/xv6-riscv/kernel/log.c:116-203 | after any run with any number of crashes, between any two disk writes of commit or of recovery itself, recovery gives every home block its contents after exactly the committed groups, as long as write_log has stayed in the log area; a group is what the cache holds for the logged blocks when no call is left |
| `CrashSafety.EveryRunFits` | mp01/xv6-riscv/kernel/log.c:126-235 | write_log stays in the log area in every run, so that the results of CrashSafety hold of every run, if log.size is at least LOGSIZE + 1, or there are at most log.size buffers, or the log has no data blocks |
| `CrashSafety.NoRoomToCopy` | mp01/xv6-riscv/kernel/log.c:178-192 | write_log can start on an overfull log only with more than log.size buffers, since every logged block keeps one |
| `LogOverrun.CrashAtomicityExact` | mp01/xv6-riscv/kernel/log.c:116-235 | for every number of buffers: crash atomicity holds in every run if and only if log.size is at least LOGSIZE + 1, or there are at most log.size buffers, or the log has no data blocks; on any disk with room for log.size + 1 blocks behind the log area |
| `LogOverrun.OverrunLosesBlock` | mp01/xv6-riscv/kernel/log.c:178-235 | for log.size from 2 up to LOGSIZE and any larger number of buffers, a whole run from first boot after which recovery does not give a home block its committed contents |
| `LogOverrun.BlockLost` | mp01/xv6-riscv/kernel/log.c:178-192 | write_log's copy number log.size lands on the home block behind the log area, though nothing was committed |
| `LogOverrun.Follow` | mp01/xv6-riscv/kernel/log.c:126-235 | the machine can follow any run of the log's bookkeeping that only fills the log, with every logged block changed in the cache |
| `CrashSafety.HomeUpToDate` | mp01/xv6-riscv/kernel/log.c:68-83 | when a commit or a recovery is over, the home blocks on disk are those after the committed groups |
| `CrashSafety.CommitIsWhole` | mp01/xv6-riscv/kernel/log.c:146-203 | at the commit point no call is running, nobody is changing a buffer, and the group has for exactly the logged blocks what their buffers hold; this is what was last passed to log_write if and only if none of them was released changed since |
| `CrashSafety.GroupIsDurable` | mp01/xv6-riscv/kernel/log.c:102-114 | the write of the header makes the group the durable contents of its blocks |
| `CrashSafety.StrayStep` | mp01/xv6-riscv/kernel/fs.c:494-503 | a step keeps all buffers free of contents that were released unlogged if and only if it is not the release of a changed buffer with contents other than the latest |
| `CrashSafety.CarefulRun` | mp01/xv6-riscv/kernel/log.c:116-235 | in a run without such a release, every commit stores exactly what was last passed to log_write and every buffer that nobody is changing has the latest contents |
| `StrayData.StepTold` | mp01/xv6-riscv/kernel/log.c:116-235 | every step keeps it true that a buffer nobody is changing differs from the latest contents of its block exactly if it was released that way |
| `StrayRun.StrayCommitted` | mp01/xv6-riscv/kernel/fs.c:494-503 | a whole run in which a call logs a block, changes it again and releases it, and the commit makes durable what was never passed to log_write; for any log with a data block and any two or more buffers |
| `StrayRun.StrayRead` | mp01/xv6-riscv/kernel/fs.c:494-503 | a run in which a reader finds such contents |
| `StrayRun.StrayRecycled` | mp01/xv6-riscv/kernel/fs.c:494-503 | a run in which bget recycles a buffer with such contents |
| `CrashSafety.BreadReturnsLatest` | mp01/xv6-riscv/kernel/bio.c:92-103 | a valid buffer of a home block that nobody is changing has the latest contents of its block, last logged or else committed, if and only if it was not released changed since |
| `CrashSafety.OneBufferPerBlock` | mp01/xv6-riscv/kernel/bio.c:58-89 | at most one buffer caches a block |
| `CrashSafety.RecycledIsClean` | mp01/xv6-riscv/kernel/bio.c:72-87 | a buffer that bget may recycle caches no logged block, and it holds what is on disk if and only if it was not released changed since |
| `CrashSafety.LatestChanges` | mp01/xv6-riscv/kernel/log.c:214-235 | the plain block store that cache and log refine changes only by log_write, in that block and to that data; a commit makes it what the cache holds for the logged blocks, and a crash takes it back to the committed groups |
| `CrashSafety.NeverOverruns` | mp01/xv6-riscv/kernel/log.c:214-235 | with log.size at least LOGSIZE + 1 the log is inside its area in every state of every run |
| `CrashSafety.RecoveryRestarts` | mp01/xv6-riscv/kernel/log.c:68-83 | a crash after any number of recovery's own copies: recovering again gives the same disk |
| `CrashSafety.RecoveryIdempotent` | mp01/xv6-riscv/kernel/log.c:116-123 | recovering a recovered disk changes nothing |
| `LogWaiters.SleepersHaveReason` | mp01/xv6-riscv/kernel/log.c:126-175 | in every interleaving, a process sleeps in begin_op only while a commit runs or the log has no room for one more call, and then there is a commit or a call whose end will wake it |
| `LogWaiters.SleeperGetsIn` | mp01/xv6-riscv/kernel/log.c:126-175 | from any point of any run with no call in the middle of log_write, the run can go on so that a process asleep in begin_op is woken and gets in |
| `LogWaiters.CallComesAndGoes` | mp01/xv6-riscv/kernel/log.c:126-175 | a call that finds room is counted, can log and leaves; one that finds none sleeps with the log unchanged; a killed sleeper asks again |
| `LogWaiters.NoNewRoom` | mp01/xv6-riscv/kernel/log.c:126-143 | no step of a running call, and no begin_op, makes room for a sleeper |
| `LogInvariant.DiskRecovers` | mp01/xv6-riscv/kernel/log.c:116-123 | the invariant alone makes the disk recoverable to the committed groups |
| `LogInvariant.HeaderCommits` | mp01/xv6-riscv/kernel/log.c:102-114 | the one write of the header block turns the logged group from absent into durable |
| `LogInvariant.LogWriteKept` | mp01/xv6-riscv/kernel/log.c:214-235 | log_write, with absorption and the pin, keeps the invariant |
| `LogInvariant.MissKept` | mp01/xv6-riscv/kernel/bio.c:58-89 | recycling a buffer keeps the invariant: no logged data is lost |
| `LogInvariant.CrashKept` | mp01/xv6-riscv/kernel/log.c:116-123 | losing all memory at any step keeps the invariant |
| `BufferCache.Cache.constructor` | mp01/xv6-riscv/kernel/bio.c:36-53 | binit builds a list of all buffers, the last one first, each unused and keyed (0, 0) |
| `BufferCache.Cache.Bget` | mp01/xv6-riscv/kernel/bio.c:58-89 | the first buffer on the list that has the block, the only one for a device other than 0, or the least recently used unreferenced one taken over for it; None exactly when the block is not cached and every buffer is referenced; if unreferenced buffers were clean, they still are, and no block's latest contents change |
| `BufferCache.Cache.Bread` | mp01/xv6-riscv/kernel/bio.c:92-103 | the buffer returned holds the latest contents of the block; if unreferenced buffers were clean, no block's latest contents change |
| `BufferCache.Cache.Bwrite` | mp01/xv6-riscv/kernel/bio.c:106-112 | the buffer's data reaches its disk block; the latest contents of every block of its device stay |
| `BufferCache.Cache.Brelse` | mp01/xv6-riscv/kernel/bio.c:116-137 | one reference less; the last one moves the buffer, and only it, to the front of the list; unreferenced buffers stay clean if and only if they were and this was not the last reference to data that is not on disk |
| `BufferCache.Cache.Bpin` | mp01/xv6-riscv/kernel/bio.c:140-144 | one reference more, nothing else |
| `BufferCache.Cache.Bunpin` | mp01/xv6-riscv/kernel/bio.c:147-151 | one reference less, nothing else; unreferenced buffers stay clean under the same condition as for brelse |
| `BufferCache.Moved` | mp01/xv6-riscv/kernel/bio.c:125-134 | brelse's six pointer updates take one buffer out of the doubly linked list and put it first |
| `BufferCache.RecycleKeepsView` | mp01/xv6-riscv/kernel/bio.c:72-87 | recycling an unreferenced clean buffer changes no block's latest contents and keeps buffers unique |
| `LogDevice.Device.WriteLog` | mp01/xv6-riscv/kernel/log.c:178-191 | after any number of the copies to the log area the home blocks are still recovered unchanged; at the end the area holds the whole group |
| `LogDevice.Device.WriteHead` | mp01/xv6-riscv/kernel/log.c:102-114 | the header block gets the list, in one disk write |
| `LogDevice.Device.ReadHead` | mp01/xv6-riscv/kernel/log.c:86-97 | the in-memory list becomes the one on disk |
| `LogDevice.Device.InstallTrans` | mp01/xv6-riscv/kernel/log.c:68-83 | after its k-th write the disk is the one with the first k blocks installed |
| `LogDevice.Device.RecoverFromLog` | mp01/xv6-riscv/kernel/log.c:116-123 | the disk becomes the recovered one, and so does every disk a crash during recovery leaves, once recovered |
| `LogDevice.Device.Commit` | mp01/xv6-riscv/kernel/log.c:193-203 | every disk a crash can leave before the header write recovers to the old home blocks, every one from it on to those with the whole group; at the end the group is installed and the header empty |
| `Malloc.Allocator.Malloc` | mp01/xv6-riscv/user/umalloc.c:63-90 | a new block of exactly the units needed, disjoint from all others, or 0 only if sbrk fails; at most one growth and only when nothing fits; no unit of another allocated block is written; the ring stays ordered, merged and a partition of what morecore obtained; it terminates |
| `Malloc.Allocator.Free` | mp01/xv6-riscv/user/umalloc.c:24-44 | the block leaves the allocated ones and becomes part of a free block; no unit of another allocated block is written; ring, partition and total stay in order |
| `Malloc.Allocator.Morecore` | mp01/xv6-riscv/user/umalloc.c:46-61 | at least 4096 fresh units join the free blocks, and then some block fits |
| `Malloc.Allocator.FindPlace` | mp01/xv6-riscv/user/umalloc.c:30-32 | free's search around the ring, from wherever freep is, ends at the one place in address order |
| `Malloc.FreeCodeCorrect` | mp01/xv6-riscv/user/umalloc.c:33-43 | free's assignments are exactly an insertion followed by a merge above and a merge below |
| `Malloc.FreedOk` | mp01/xv6-riscv/user/umalloc.c:24-44 | after a free the ring is ordered and the blocks still partition the units |
| `Malloc.FreedMerged` | mp01/xv6-riscv/user/umalloc.c:33-43 | after a free no two free blocks are adjacent |
| `Malloc.FreedCovers` | mp01/xv6-riscv/user/umalloc.c:24-44 | the freed units lie within one block of the new ring |
| `Malloc.BlocksPartition` | mp01/xv6-riscv/user/umalloc.c:24-90 | two different blocks, free or allocated, have no unit in common, and every unit obtained lies in a block |
| `Malloc.UnlinkOk` | mp01/xv6-riscv/user/umalloc.c:76-77 | an exact fit taken off the ring keeps the invariant |
| `Malloc.CarveOk` | mp01/xv6-riscv/user/umalloc.c:78-82 | splitting the tail off a larger block keeps the invariant |
| `Malloc.GrowOk` | mp01/xv6-riscv/user/umalloc.c:46-61 | fresh units form one more block |
| `PageTable.DescendOk` | mp01/xv6-riscv/kernel/vm.c:80-98 | the descent from a root through valid entries reaches, at each level, the one table for that part of the address |
| `PageTable.TableUnique` | mp01/xv6-riscv/kernel/vm.c:80-98 | no two tables serve the same part of the same address space |
| `PageTable.LinkedOk` | mp01/xv6-riscv/kernel/vm.c:88-95 | a new zeroed intermediate table keeps the invariant and changes no translation of any address in any tree |
| `PageTable.MapOk` | mp01/xv6-riscv/kernel/vm.c:146-153 | writing a leaf entry maps that page in that tree and changes no other translation |
| `PageTable.UnmapOk` | mp01/xv6-riscv/kernel/vm.c:171-182 | clearing a leaf entry unmaps that page in that tree and changes no other translation |
| `PageTable.OneMapping` | mp01/xv6-riscv/kernel/vm.c:137-157 | a user page owned by a tree is mapped at one address only, and in no other tree |
| `PageTable.AllocatedOk` | mp01/xv6-riscv/kernel/kalloc.c:68-82 | taking a page off the free list keeps the partition of pages and all translations |
| `PageTable.ReleasedOk` | mp01/xv6-riscv/kernel/kalloc.c:46-63 | putting a page on the free list keeps the partition of pages |
| `PageTable.PrefixStep` | mp01/xv6-riscv/kernel/riscv.h:342-345 | the three 9-bit indices of an address |
| `PageTable.PointerFacts` | mp01/xv6-riscv/kernel/riscv.h:335-339 | PTE2PA undoes PA2PTE, and the flags of a pointer entry say valid and not a leaf |
| `VirtualMemory.Memory.constructor` | mp01/xv6-riscv/kernel/kalloc.c:26-31 | kinit: every page from the end of the kernel to the end of memory is free, exactly once on the list, and the invariant holds |
| `VirtualMemory.Memory.Freerange` | mp01/xv6-riscv/kernel/kalloc.c:33-40 | the loop of kfree puts each page of the range on the list, the last one first |
| `VirtualMemory.Memory.Kalloc` | mp01/xv6-riscv/kernel/kalloc.c:68-82 | the first free page, or 0 exactly when there is none; no translation changes |
| `VirtualMemory.Memory.Kfree` | mp01/xv6-riscv/kernel/kalloc.c:46-63 | the page goes to the front of the free list |
| `VirtualMemory.Memory.Walk` | mp01/xv6-riscv/kernel/vm.c:80-98 | the entry for exactly that page; with alloc at most two tables are added, from free pages, and no translation changes; it fails only when a table is missing and, with alloc, no page is left |
| `VirtualMemory.Memory.Mappages` | mp01/xv6-riscv/kernel/vm.c:137-157 | exactly the pages that the bytes touch are mapped, in order, to the given pages; on failure a first part of them, and no page is left |
| `VirtualMemory.Memory.Uvmunmap` | mp01/xv6-riscv/kernel/vm.c:162-184 | exactly the range is unmapped, and with do_free exactly its pages are freed |
| `VirtualMemory.Memory.Uvmcreate` | mp01/xv6-riscv/kernel/vm.c:188-197 | a new tree without mappings, or 0 when no page is left |
| `VirtualMemory.Memory.Uvmalloc` | mp01/xv6-riscv/kernel/vm.c:217-241 | zeroed user pages for exactly the new range; on failure every translation is as before and no user page is kept; it cannot fail with three free pages for each new page, and must with less than one |
| `VirtualMemory.Memory.Uvmdealloc` | mp01/xv6-riscv/kernel/vm.c:247-259 | exactly the pages between the two sizes, rounded up, are unmapped and freed |
| `VirtualMemory.Memory.Uvmcopy` | mp01/xv6-riscv/kernel/vm.c:297-325 | the child maps the same addresses with the same flags to its own pages with equal contents, the parent is untouched; on failure the child's mappings and user pages are as before; it cannot fail with three free pages for each page of the parent, and must with less than one |
| `VirtualMemory.Memory.FreeWalk` | mp01/xv6-riscv/kernel/vm.c:263-279 | every table of the subtree is freed exactly once and nothing else; its panic is not reached |
| `VirtualMemory.Memory.Uvmfree` | mp01/xv6-riscv/kernel/vm.c:283-289 | every page the tree owned is on the free list, no other page changed hands, and every other tree translates as before |
| `VirtualMemory.UndoExtension` | mp01/xv6-riscv/kernel/vm.c:227-235 | unmapping what a failed uvmalloc or uvmcopy had mapped restores every translation |
| `FreeTree.TreeFreed` | mp01/xv6-riscv/kernel/vm.c:263-279 | when all tables of a tree are freed, the rest of memory satisfies the invariant |
| `FreeTree.ChildIntact` | mp01/xv6-riscv/kernel/vm.c:263-279 | freeing one subtree, before its entry is cleared, leaves the other subtrees intact |
| `SleepLock.RunKept` | mp01/xv6-riscv/kernel/proc.c:554-600 | every statement of acquiresleep, releasesleep, sleep and wakeup keeps the invariant of all processes and locks |
| `SleepLock.AcquireReturns` | mp01/xv6-riscv/kernel/sleeplock.c:21-31 | acquiresleep returns with the lock marked locked in the name of the caller |
| `SleepLock.ReleaseReturns` | mp01/xv6-riscv/kernel/sleeplock.c:33-41 | releasesleep returns with the lock free, held by nobody, and nobody asleep on it |
| `SleepLock.FreeWhileWaking` | mp01/xv6-riscv/kernel/sleeplock.c:33-41 | from where releasesleep clears the lock until it gives up the inner spin lock, nobody holds the sleep lock |
| `SleepLockRun.HandedOver` | mp01/xv6-riscv/kernel/sleeplock.c:21-41 | a run in which one process holds the lock while another sleeps on it, gives it up, and the other then holds it |
| `SleepLock.KilledSleeper` | mp01/xv6-riscv/kernel/proc.c:541-569 | a sleeper that is killed comes back to test the lock again, and nothing else changes |
| `SleepLock.NoLostWakeup` | mp01/xv6-riscv/kernel/sleeplock.c:21-41 | in every interleaving, when a sleep lock is not taken and its spin lock is free, nobody is SLEEPING on it |
| `SleepLock.WindowIsSafe` | mp01/xv6-riscv/kernel/proc.c:554-584 | between giving up the spin lock and being SLEEPING a process is always ahead of the wakeup of whoever will release, and nobody can look at it meanwhile |
| `SleepLock.MutualExclusion` | mp01/xv6-riscv/kernel/sleeplock.c:21-41 | at most one process holds a sleep lock, and then it is marked locked |
| `SleepLock.SleeperHasWaker` | mp01/xv6-riscv/kernel/proc.c:588-600 | a process SLEEPING on a sleep lock is waited for: somebody holds the lock, or somebody's wakeup scan is still to reach it |
| `ExitWait.RunKept` | mp01/xv6-riscv/kernel/proc.c:312-454 | every statement of fork, wait, exit and reparent keeps the invariant of all pairs of processes |
| `ExitWait.TowardsZombie` | mp01/xv6-riscv/kernel/proc.c:376-395 | a process becomes a zombie only while it holds the lock of the parent it read and after it has woken that parent, so that parent has not passed it in its scan |
| `ExitWait.MissedOnlyIfGivenAway` | mp01/xv6-riscv/kernel/proc.c:339-454 | in every interleaving and for every process: if it sleeps in wait and has a zombie child, it is initproc, and the child had read another parent, which gave it away afterwards |
| `MissedExit.InitMissesExit` | mp01/xv6-riscv/kernel/proc.c:312-454 | for every table of at least three slots, a run after which initproc sleeps in wait, its child is a zombie, and no other process is left |
| `MissedExit.NoExitMissedExact` | mp01/xv6-riscv/kernel/proc.c:312-454 | no exit is missed by any process in any run if and only if the table has at most two slots |
| `ExitWait.NoMissedExit` | mp01/xv6-riscv/kernel/proc.c:404-454 | in every interleaving, a process other than initproc that sleeps in wait has no zombie child |
| `ExitWait.ParentCannotChange` | mp01/xv6-riscv/kernel/proc.c:422-427 | the parent that wait and reparent test without a lock is still the parent when they use the process |
| `ExitWait.FreedHasStopped` | mp01/xv6-riscv/kernel/proc.c:427-440 | the zombie that wait frees is off its kernel stack and locked |
| `ExitWait.KilledWaiterReturns` | mp01/xv6-riscv/kernel/proc.c:446-450 | wait returns where it would sleep if the caller was killed, without its lock, and no other process has changed |
| `ExitWait.FailedCopyKeepsZombie` | mp01/xv6-riscv/kernel/proc.c:430-435 | wait returns without freeing the zombie if it cannot copy the exit status out; the zombie stays as it was |
| `ExitWait.NoChildrenReturns` | mp01/xv6-riscv/kernel/proc.c:416-450 | wait by a process without children returns without sleeping and has changed nothing |
| `ExitWait.ForkPassesOver` | mp01/xv6-riscv/kernel/proc.c:99-112 | fork passes over a slot that is in use and has changed nothing |
| `ExitWait.ParentIsAlive` | mp01/xv6-riscv/kernel/proc.c:312-334 | every process but initproc has a parent that has neither exited nor been freed |
| `ExitWait.LockHasOneHolder` | mp01/xv6-riscv/kernel/proc.c:339-454 | each process lock has one holder |
| `BlockBytes.WordStored` | mp01/xv6-riscv/kernel/fs.c:396-399 | storing one entry of an indirect block stores it in little-endian order and changes no other entry |
| `BlockBytes.BitStored` | mp01/xv6-riscv/kernel/fs.c:74-77 | setting or clearing a bit changes that bit only |
| `FileBlocks.MarkedUsed` | mp01/xv6-riscv/kernel/fs.c:89-103 | setting or clearing a block's bit in the free map changes that block's bit only |
| `FileBlocks.OnePlace` | mp01/xv6-riscv/kernel/fs.c:377-405 | each block belongs to at most one place of one inode, is a data block, and is marked in the free map |
| `FileBlocks.GrewOwned` | mp01/xv6-riscv/kernel/fs.c:377-405 | giving a free block to an empty place keeps the ownership invariant |
| `FileBlocks.GrowDirect` | mp01/xv6-riscv/kernel/fs.c:383-387 | bmap's direct case adds that one address and moves no other |
| `FileBlocks.GrowTable` | mp01/xv6-riscv/kernel/fs.c:392-394 | a new indirect block lists nothing |
| `FileBlocks.GrowIndirect` | mp01/xv6-riscv/kernel/fs.c:395-402 | bmap's indirect case adds that one address and moves no other |
| `FileBlocks.TruncatedOwned` | mp01/xv6-riscv/kernel/fs.c:409-437 | after itrunc the remaining owners and the free map agree again |
| `FileBlocks.DataOwned` | mp01/xv6-riscv/kernel/fs.c:494-504 | writing a data block changes no ownership |
| `FileBlocks.BytesPut` | mp01/xv6-riscv/kernel/fs.c:494-504 | writing bytes into one block changes those bytes of that file and no other byte of any file |
| `FileSystem.Files.constructor` | mp01/xv6-riscv/kernel/fs.c:42-47 | any disk whose free map and inodes agree |
| `FileSystem.Files.Balloc` | mp01/xv6-riscv/kernel/fs.c:64-86 | the first free block, marked and zeroed, with all before it in use; None exactly when all are in use |
| `FileSystem.Files.Bfree` | mp01/xv6-riscv/kernel/fs.c:89-103 | that block's bit is cleared |
| `FileSystem.Files.Bmap` | mp01/xv6-riscv/kernel/fs.c:377-405 | the file's block at that place: if it was there nothing changes, else a zeroed block nobody owned; no other address moves, no byte of any file changes, and only the blocks named are logged |
| `FileSystem.Files.IndirectBlock` | mp01/xv6-riscv/kernel/fs.c:391-395 | the indirect block, new and listing nothing if it was missing |
| `FileSystem.Files.Itrunc` | mp01/xv6-riscv/kernel/fs.c:409-437 | the file is empty, exactly the bits of its blocks are cleared, every other file keeps its bytes; "freeing free block" is not reached |
| `FileSystem.NextIsUsed` | mp01/xv6-riscv/kernel/fs.c:416-432 | the next block that itrunc frees is still marked in the free map |
| `FileSystem.Files.Iupdate` | mp01/xv6-riscv/kernel/fs.c:221-237 | the stored inode becomes the one in memory |
| `FileSystem.Files.Readi` | mp01/xv6-riscv/kernel/fs.c:452-477 | nothing if the offset lies beyond the end or offset and count wrap around, else exactly the bytes of the file from the offset on, as many as asked for or as there are, or -1 when the memory runs out; nothing changes |
| `FileSystem.Files.Writei` | mp01/xv6-riscv/kernel/fs.c:483-516 | the exact return value; on success the file is its old bytes with the range replaced or extended; every other file keeps its bytes; files stay without holes and inodes stored; only its own data, indirect, free map and inode blocks are logged |
| `FileSystem.Files.WriteThenRead` | mp01/xv6-riscv/kernel/fs.c:452-517 | a read behind a write that succeeded gives the bytes written back, also when it asks for more than is there; the write succeeds on any offset within the file, up to the largest file, while there are free blocks |
| `FileSystem.WriteBudget` | mp01/xv6-riscv/kernel/file.c:149-156 | a write of one chunk logs at most 7 blocks when the free map is one block, within MAXOPBLOCKS |
| `FileSystem.Files.Filewrite` | mp01/xv6-riscv/kernel/file.c:148-175 | n with all n bytes in the file, or -1, exactly when; the file offset; every operation it issues is within its log budget |
| `FileSystem.PatchedTwice` | mp01/xv6-riscv/kernel/file.c:157-174 | two chunks written one behind the other are one write |
| `VirtioRing.SlotIsFree` | mp01/xv6-riscv/kernel/virtio_disk.c:260-261 | writing the next slot of a ring that is not full overwrites no entry |
| `VirtioRing.Appended` | mp01/xv6-riscv/kernel/virtio_disk.c:265-266 | advancing a 16-bit index appends one entry, across the wrap-around |
| `VirtioRing.Taken` | mp01/xv6-riscv/kernel/virtio_disk.c:300-312 | taking an entry removes the oldest, across the wrap-around |
| `Virtio.StepKept` | mp01/xv6-riscv/kernel/virtio_disk.c:203-315 | every step of requesting threads, interrupt handler and device keeps the invariant |
| `VirtioWakeups.SleepersHaveReason` | mp01/xv6-riscv/kernel/virtio_disk.c:156-310 | in every interleaving, a thread that was not woken sleeps on its buffer only while b->disk is set, and for descriptors only while no three are free |
| `VirtioRun.AsAPlainDisk` | mp01/xv6-riscv/kernel/virtio_disk.c:203-315 | driver, interrupt handler and device carry out any sequence of changes, reads and writes as a plain disk would, from whatever ring indices, across wrap-around, and are idle again behind it |
| `VirtioRun.Transfers` | mp01/xv6-riscv/kernel/virtio_disk.c:203-315 | one virtio_disk_rw from its call to its return, with a spurious wakeup on the way: the block or the buffer has the contents of the other, and every descriptor is free again |
| `VirtioWakeups.WaitsForDescriptors` | mp01/xv6-riscv/kernel/virtio_disk.c:214-221 | a thread that does not get three descriptors gives the lock up and sleeps, and no descriptor changes hands |
| `VirtioWakeups.FreeingLetsIn` | mp01/xv6-riscv/kernel/virtio_disk.c:157-184 | when another thread has freed its chain and returned, a thread that waits for descriptors is woken and gets three |
| `VirtioWakeups.Alloc3Fails` | mp01/xv6-riscv/kernel/virtio_disk.c:187-201 | alloc3_desc fails if and only if no three descriptors are free |
| `VirtioWakeups.PlayedIsPath` | mp01/xv6-riscv/kernel/virtio_disk.c:203-315 | a run with wakeups is a run of the machine of Virtio, so that its results hold of it |
| `Virtio.DeviceFinds` | mp01/xv6-riscv/kernel/virtio_disk.c:226-258 | the chain the device follows leads to the header, buffer and status byte of the thread that sent it |
| `VirtioSafety.DescriptorsSplit` | mp01/xv6-riscv/kernel/virtio_disk.c:144-201 | every descriptor is free or in exactly one chain of three |
| `VirtioSafety.UsedEntriesComplete` | mp01/xv6-riscv/kernel/virtio_disk.c:300-312 | every entry of the used ring is the head of one waiting request, with its buffer in info and status 0 |
| `VirtioSafety.NoSlotOverwritten` | mp01/xv6-riscv/kernel/virtio_disk.c:260-266 | neither ring ever loses an entry to a write, whatever the 16-bit indices |
| `VirtioSafety.ClearedOnce` | mp01/xv6-riscv/kernel/virtio_disk.c:304-312 | b->disk is cleared only by the handler, for the request whose entry it takes, which is then gone from the ring |
| `VirtioSafety.TransferDone` | mp01/xv6-riscv/kernel/virtio_disk.c:203-280 | when virtio_disk_rw returns, a write has put the buffer's data on the disk, a read the disk's data in the buffer, and nothing else was done to them |
| `VirtioSafety.NoPanicNoGarbage` | mp01/xv6-riscv/kernel/virtio_disk.c:282-315 | the handler's panic is not reached, and the device meets no malformed chain |
| `VirtioSafety.ChainToFree` | mp01/xv6-riscv/kernel/virtio_disk.c:173-185 | the chain that is freed links the thread's own three descriptors, none of them free |
| `VirtioSafety.Descriptors.AllocDesc` | mp01/xv6-riscv/kernel/virtio_disk.c:144-154 | the first free descriptor, marked |
| `VirtioSafety.Descriptors.FreeDesc` | mp01/xv6-riscv/kernel/virtio_disk.c:157-170 | that descriptor is cleared and free |
| `VirtioSafety.Descriptors.Alloc3Desc` | mp01/xv6-riscv/kernel/virtio_disk.c:189-201 | the first three free descriptors, or none and then nothing has changed |
| `VirtioSafety.Descriptors.FreeChain` | mp01/xv6-riscv/kernel/virtio_disk.c:173-185 | exactly the three linked descriptors are freed |
| `Shell.Parser.Gettoken` | mp01/xv6-riscv/user/sh.c:265-308 | the token function, with the cursor behind it |
| `Shell.Parser.PeekFor` | mp01/xv6-riscv/user/sh.c:310-320 | the cursor moves over white space only |
| `Shell.Parser.Parseredirs` | mp01/xv6-riscv/user/sh.c:374-397 | the redirections at the cursor, in order, or the panic |
| `Shell.Parser.Parseexec` | mp01/xv6-riscv/user/sh.c:415-446 | the command at the cursor, or the panic |
| `Shell.Parser.Parseargs` | mp01/xv6-riscv/user/sh.c:428-442 | words and redirections up to the end of the command; more than nine words panic |
| `Shell.Parser.Parseblock` | mp01/xv6-riscv/user/sh.c:399-413 | the command in parentheses with its redirections, or the panic |
| `Shell.Parser.Parsepipe` | mp01/xv6-riscv/user/sh.c:361-372 | the pipeline at the cursor, or the panic |
| `Shell.Parser.Parseline` | mp01/xv6-riscv/user/sh.c:344-359 | the line at the cursor, or the panic; it terminates on every input |
| `Shell.Parser.Nulterminate` | mp01/xv6-riscv/user/sh.c:449-493 | NULs are written at the ends of the command's words and nowhere else |
| `Shell.Parser.Parsecmd` | mp01/xv6-riscv/user/sh.c:327-342 | the parsed command or the panic; afterwards every word read as a C string is its token |
| `ShellLayout.LanguageExactly` | mp01/xv6-riscv/user/sh.c:262-446 | an input is accepted with a tree if and only if it is written as a sentence of the grammar that stands for the tree, with any of the five white space characters around tokens and none needed beside a symbol |
| `ShellLayout.EveryLayoutParses` | mp01/xv6-riscv/user/sh.c:262-446 | the round trip for every layout, with redirections before, between and behind the words |
| `ShellLayout.LexLaid` | mp01/xv6-riscv/user/sh.c:262-311 | gettoken finds exactly the tokens of a layout |
| `ShellLayout.LaidOut` | mp01/xv6-riscv/user/sh.c:262-311 | every input is a layout of its tokens: nothing but white space is lost |
| `ShellLayout.WordsArePlain` | mp01/xv6-riscv/user/sh.c:262-263 | no word of an accepted command has white space or a symbol in it, and none can be made longer |
| `ShellTokens.OnlyTokensMatter` | mp01/xv6-riscv/user/sh.c:327-446 | the outcome, tree or panic, is a function of the tokens alone |
| `ShellGrammar.AcceptsExactly` | mp01/xv6-riscv/user/sh.c:344-446 | on tokens, the parser accepts exactly the sentences of the grammar, with their meaning |
| `ShellRoundTrip.ExecHere` | mp01/xv6-riscv/user/sh.c:415-446 | the parser reads a printed command, word list or block, back as that tree, wherever it stands |
| `ShellRoundTrip.PipeHere` | mp01/xv6-riscv/user/sh.c:361-372 | the parser reads a printed pipeline back as that tree |
| `ShellRoundTrip.LineHere` | mp01/xv6-riscv/user/sh.c:344-359 | the parser reads a printed line back as that tree |
| `ShellRoundTrip.PrintThenParse` | mp01/xv6-riscv/user/sh.c:327-446 | for every tree with well-formed words and at most nine per command, printing with parentheses where needed and parsing gives the same tree |
| `ShellWords.ParsedLine` | mp01/xv6-riscv/user/sh.c:344-359 | every word of whatever the parser accepts is a maximal stretch of word characters, with at most nine per command and the right file descriptors |
| `ShellWords.ParsePrintParse` | mp01/xv6-riscv/user/sh.c:327-446 | whatever the parser accepts can be printed, and parsing that text gives the same tree |
| `ShellWords.EachWordReads` | mp01/xv6-riscv/user/sh.c:449-493 | once the NULs are written each word reads as its own token, although words share the buffer |
| `Grep.Match` | mp01/xv6-riscv/user/grep.c:70-80 | true if and only if the pattern occurs in the text, at its start under ^ |
| `Grep.PlainMeans` | mp01/xv6-riscv/user/grep.c:70-105 | what characters and dots mean: found anywhere, at the start under ^, at the end before $, as the whole text with both |
| `Grep.CharMeans` | mp01/xv6-riscv/user/grep.c:83-94 | a character stands for itself, a dot for any, and a dollar at the end for the end of the text |
| `Grep.StarMeans` | mp01/xv6-riscv/user/grep.c:97-104 | a starred character stands for any number of it, a starred dot for anything, with the rest of the pattern behind |
| `Grep.Matchhere` | mp01/xv6-riscv/user/grep.c:83-94 | true if and only if a prefix of the text is in the language of the parsed pattern |
| `Grep.Matchstar` | mp01/xv6-riscv/user/grep.c:97-104 | true if and only if some fitting characters and then the rest of the pattern are a prefix of the text |
| `Grep.StarSplits` | mp01/xv6-riscv/user/grep.c:97-104 | a starred item splits the text in two, both directions |
| `Threads.RunQueue.AddRunqueue` | mp01/xv6-riscv/user/threads.c:29-45 | the thread is last in the queue that starts at the running thread, the others keep their places; both link directions stay inverse around one ring |
| `Threads.RunQueue.Schedule` | mp01/xv6-riscv/user/threads.c:81-83 | the running thread goes to the end of the queue and every other one moves up by one |
| `Threads.RunQueue.ThreadExit` | mp01/xv6-riscv/user/threads.c:84-113 | the running thread leaves the ring, and every other one moves up by one |
| `Threads.TurnsTaken` | mp01/xv6-riscv/user/threads.c:46-113 | how often a thread is dispatched before another one is, from their places in the queue |
| `Threads.RoundRobin` | mp01/xv6-riscv/user/threads.c:46-113 | between two dispatches of a thread every other thread that lives throughout is dispatched exactly once |
| `Pipe.PutKept` | mp01/xv6-riscv/kernel/pipe.c:93-95 | putting a byte into a pipe that is not full keeps the buffer equal to what is in flight, across wrap-around |
| `Pipe.GotKept` | mp01/xv6-riscv/kernel/pipe.c:117-122 | taking a byte keeps the buffer equal to what is in flight, across wrap-around |
| `Pipe.StepKept` | mp01/xv6-riscv/kernel/pipe.c:58-127 | every step of readers, writers and close keeps the invariant |
| `Pipe.FirstInFirstOut` | mp01/xv6-riscv/kernel/pipe.c:76-127 | in every interleaving the bytes taken out are a prefix of those put in, and nwrite - nread modulo 2^32 is the rest, at most PIPESIZE |
| `Pipe.CallsMoveTheirBytes` | mp01/xv6-riscv/kernel/pipe.c:76-127 | a write has at any time put exactly the first i bytes it was given, and returns i or -1; a read that returns r has copied the first r bytes it took to its caller, and took one more only if copyout failed |
| `Pipe.CallsDoAllTheyCan` | mp01/xv6-riscv/kernel/pipe.c:76-127 | a read returns at most the n bytes asked for, and less only if the pipe is empty or copyout failed; a write returns less than it was given only if copyin failed, and -1 only from a full pipe |
| `PipeRun.AllGetsThrough` | mp01/xv6-riscv/kernel/pipe.c:76-127 | for every text, however long, a run in which one write call puts it in, read calls take it out, the writer sleeping and being woken as often as needed, and exactly the text arrives |
| `Pipe.BrokenPipe` | mp01/xv6-riscv/kernel/pipe.c:85-89 | a writer at a full pipe with its read end closed returns -1 without sleeping |
| `Pipe.EndOfFile` | mp01/xv6-riscv/kernel/pipe.c:110-127 | a reader at an empty pipe with its write end closed returns 0 without sleeping, and wakes the writers |
| `Pipe.WritersAreWoken` | mp01/xv6-riscv/kernel/pipe.c:76-127 | in every interleaving, with the lock free a writer sleeps only while the pipe is full and its read end open |
| `Pipe.ReadersStep` | mp01/xv6-riscv/kernel/pipe.c:76-127 | a step keeps the law that readers sleep only before an empty pipe with its write end open if and only if it is not a killed writer returning from a full pipe to which it has added, while a reader sleeps |
| `Pipe.ReadersAreWoken` | mp01/xv6-riscv/kernel/pipe.c:76-127 | in every run without that step, with the lock free a reader sleeps only while the pipe is empty and its write end open |
| `Pipe.NewsLost` | mp01/xv6-riscv/kernel/pipe.c:85-91 | after that step a reader sleeps before a full pipe |
| `Pipe.ReaderSleepsOn` | mp01/xv6-riscv/kernel/pipe.c:85-91 | a run that gets there, with the lock free |

## Left out

- Reading and writing through `memmove` and the disk driver as separate steps in the log machine: a memory copy and the transfer it feeds are one step.
- Weak memory, fences, device registers and interrupt acknowledgement: steps are sequentially consistent, and the device completes each request once with status 0.
- Spin locks and interrupts below them: a spin lock is a lock; timer interrupts are steps of other processes.
- Panics of `bget` and `balloc` for lack of buffers or blocks are None results; `ilock`, `iget` and the inode cache are not modelled, and an inode's encoding in its disk block is a record.
- Directories, path names, link counts, `ialloc` and `sysfile.c`: they would add code but not a harder law.
- The trapframe and trampoline mappings of a process (`proc_pagetable`), `walkaddr`, `copyin` and `copyout`.
- Reuse of process ids, files and working directories of processes, and the `killed` flag except as a reason to wake up or return.
- BufferCache.Cache.Bget: latest contents are about devices other than 0, since binit leaves many buffers keyed (0, 0).
- CrashSafety.CrashAtomicity: about runs in which write_log stays inside the log area; LogOverrun.CrashAtomicityExact says when those are all runs. HomeUpToDate, CommitIsWhole, BreadReturnsLatest, OneBufferPerBlock and RecycledIsClean are about the same runs.
- Malloc.Allocator.Malloc: addresses count header-sized units, sbrk returns unit-aligned fresh memory above the static base, and requests are small enough for the int that sbrk takes.
- VirtualMemory.Memory.Mappages: the pages of the range are not mapped yet (remapping panics), and permissions make a leaf entry.
- VirtualMemory.Memory.Uvmfree: nothing is mapped beyond the size, as for the trees freed by `proc_freepagetable` once the two special pages are unmapped.
- FileSystem.Files.Iupdate: an inode is a record on disk of its own; how it is laid out in its slot of an inode block, and the other inodes there, are left out.
- FileSystem.Files.Writei: after a failing copy the bytes of the last block that were copied are in its buffer, though not logged; the contract then says only that the file is a prefix of the patched one, at least as long as before.
- FileSystem.Files.Filewrite: one thread at a time uses the inode, as under its sleep lock.
- Shell.Parser.Parseexec: command nodes are values, so redirections are put around a command after its words are read, not before; the resulting tree is the same.
- Executing commands, reading lines, and the buffer handling of `grep` around the matcher.
- Threads.RunQueue.Schedule: the switch itself (`setjmp`, `longjmp`, stacks) is left out; dispatching is coming to the front of the queue.
- Virtio.StepKept: lengths of descriptors are left out, a sector pair is one block, and sleeping threads may wake at any time; VirtioWakeups lets them go on only after a wakeup or a kill.
- The other coursework directories, boot, trap handling and the small user programs: no harder law than those above.
