# xv6: verified models of its storage, memory, process and tool code

This project models the parts of the xv6 RISC-V kernel and of its user programs that carry the
hardest invariants, and proves those invariants for every input, every run or every reachable
state. Code that works by changing things in place is modelled by classes with methods and loops;
protocols between several processes, CPUs or a device are modelled as machines whose steps
interleave freely. Each method is proved against a specification on values, and the main results
are proved about that specification.

- **Log and buffer cache** (`Bio`, `LogFormat`, `LogDevice`, `LogMachine`, `LogSafety`, `LogSteps`,
  `LogRuns`, `LogProgress`, `LogShort`). The doubly linked LRU list refines a list of keys. Group commit, the cache with its
  pins, and recovery form one machine with any number of threads, in which a crash can come between
  any two block writes, also during recovery. Every run of it agrees with a machine that is nothing
  but a map from block to data and the copy saved at the last commit point, and once the last operation
  has committed the two are the same. Commit and recovery can be brought to their end. It is
  also settled exactly when `log_write` can meet a full log, and when a commit can run out of buffers.
- **File contents and the free map** (`FsFormat`, `FsFiles`, `FsWrites`, `FsState`, `FsTrunc`, `FsLog`,
  `FileSystem`). Bitmap bits in bytes, block pointers in the words of indirect blocks, `bmap`,
  `itrunc`, `readi`, `writei` and the chunks of `filewrite` refine byte sequences; every data block
  in use is held in exactly one slot, and every block that is changed is in the log.
- **Directories and link counts** (`Links`, `LinkSteps`, `DirNames`, `Directories`). `create`, `sys_link` with its rollback,
  `sys_unlink` and the last `iput`, in any order and with links in the making, keep each link count
  equal to the number of entries. `create` and `sys_link` keep them so, now and after the last use of
  their directory, exactly when that directory is still linked. Names in a directory stay distinct, so
  that it is a map from name to inode.
- **Page tables and pages** (`PageFormat`, `PageTree`, `PageMoves`, `PagePrune`, `VirtualMemory`).
  Three-level tables in physical memory refine flat maps, and every physical page is in exactly one
  place, also on all out-of-memory paths.
- **Processes and sleep locks** (`SleepLock`, `ProcMachine`, `ProcSafety`, `ProcFrame`, `ProcSteps`,
  `ProcRuns`, `ProcCycles`, `ProcKill`). Interleavings of fork, exit, wait, kill, the scheduler, sleep and wakeup.
- **The virtio disk driver** (`Virtio`) against a device that completes requests in any order, also
  while the interrupt handler runs.
- **Pipes** (`Pipe`), **the user allocator** (`UserMalloc`), **the shell's parser** (`ShellGrammar`,
  `ShellLines`, `ShellReads`, `ShellAccepts`, `ShellRoundTrip`, `ShellWords`, `Shell`) and **grep's matcher** (`Grep`).

## Conventions

- Panics that the source uses against misuse are preconditions, or are shown to be unreachable.
  Panics because a resource is exhausted are outcomes (`None`, `ok == false`).
- What the code cannot control is a parameter: what `sbrk` grants, how far a user address can be
  read or written, which turns other processes take during a sleep, which thread moves next.
- Integer widths are written out where they matter: 16-bit ring indices, 32-bit pipe counters and
  file offsets, 16-bit link counts.

## Where the code and its documentation differ, or a promise has a limit

- `begin_op` reserves space so that `log_write` need not fail, but `log_write` panics on a full log even
  if the block is in it already. So three operations of ten blocks each can use up its LOGSIZE entries, however long the log is, and
  any of them panics when it logs a block of its own once more: `LogShort.RoomIff` gives the exact
  condition, which no disk of a usual size meets, and `LogShort.PanicIsReached` the run.
- For operations with reservation left, room is certain exactly if the log is longer than `LOGSIZE`
  (`LogShort.RoomWhileUnspentIff`). `mkfs` makes it `LOGSIZE` blocks long, header included, which is one
  block short (`LogShort.MkfsLogIsOneShort`, and `LogShort.FullLogIsReached` for the run).
- A longer log is no remedy: it can hold a block for each of the NBUF buffers, all pinned, and then the commit
  finds no buffer for its first log block. Commits can always be brought to their end exactly if the log has at
  most `LOGSIZE` blocks, header included (`LogShort.CommitsCompleteIff`). So on a disk with home blocks to spare
  no length gives both (`LogShort.NoLengthGivesBoth`).
- `kill(0)` matches the first unused entry of the process table, whose pid is 0, and `allocproc` does not clear
  `killed`: the next process put there is marked from the start (`ProcKill.KillZeroHitsTheNextChild`).
  `ProcKill.KilledIff` says exactly when a process is marked.
- `create` and `sys_link` do not refuse a directory that has been removed while in use. `mkdir` there
  makes a count wrong at once. A file made or linked there is counted right until the directory's last
  `iput`, which leaves it with a link and no name. `LinkSteps.MadeStaysRightIff` and
  `LinkSteps.FinishStaysRightIff` give the exact conditions, `Directories.UnlinkedParentExample` a tree
  in which both happen. `LinkSteps.StartKeepsInvIff` does the same for the range of `nlink`.
- `malloc` of more than 0x7fffffe0 bytes passes `sbrk` an amount that its `int` cuts short, and
  `morecore` records the full size all the same. `UserMalloc.GrantCoversIff` gives the exact bound,
  `UserMalloc.GrantTooShort` two requests beyond it, and `UserMalloc.Allocator.Malloc` says that the heap
  then reaches beyond the memory it has.
- `nextpid` is an `int` that wraps around: live processes have distinct ints in all runs with at most m
  forks exactly if m is below 2^32 (`ProcRuns.IntsStayDistinctIff`); `ProcRuns.WrappedPidRepeats` is a run
  in which a child gets the pid of init.
- `mappages` that runs out of memory leaves the pages it has mapped; `VirtualMemory.MapPages` says
  how many.
- A byte whose `copyout` faults in `piperead` is lost; `Pipe.Pipe.CopyOut` states it.

## Model

| member | source | states |
|---|---|---|
| Bio.Choose | kernel/bio.c:65-88 | what bget does: a hit is a buffer with that key, otherwise no buffer has it and the victim is unused; failure only when every buffer is referenced |
| Bio.GetKeepsUnique | kernel/bio.c:58-89 | no two buffers get the same (dev, blockno) with dev not 0 |
| Bio.VictimIsLeastRecent | kernel/bio.c:75-87 | the recycled buffer is behind every other unused one in the recency list |
| Bio.RecyclesEarliestReleased | kernel/bio.c:58-137 | however the cache has been used, the recycled buffer is, of the unused ones, the one whose last release by brelse is the earliest |
| Bio.OrderAtBoot | kernel/bio.c:44-52 | binit's list is as if the buffers had been released from the first to the last |
| Bio.MoveToFront | kernel/bio.c:126-134 | moving a buffer to the front keeps the list a permutation of all buffers |
| Bio.UnlinkOne | kernel/bio.c:128-129 | the two pointer writes take exactly that buffer out of the doubly linked ring |
| Bio.InsertOne | kernel/bio.c:130-133 | the four pointer writes put exactly that buffer in front |
| Bio.Bcache.constructor | kernel/bio.c:36-53 | binit links all buffers, last one first, all keyed (0, 0) and unused |
| Bio.Bcache.ScanForKey | kernel/bio.c:65-73 | the forward scan over next pointers finds the first buffer with the key |
| Bio.Bcache.ScanForVictim | kernel/bio.c:76-87 | the backward scan over prev pointers finds the last unused buffer |
| Bio.Bcache.BGet | kernel/bio.c:58-89 | on linked buffers bget is the lookup of the abstract cache, including its failure |
| Bio.Bcache.BRelse | kernel/bio.c:116-137 | brelse drops a reference and moves a buffer that becomes unused to the front, in the linked ring as in the abstract list |
| Bio.PinnedStays | kernel/bio.c:139-151 | however the cache is used after bpin, until bunpin gives up that reference the buffer keeps its block and bytes and bget of the block finds it |
| LogFormat.SetHead | kernel/log.c:102-114 | a header written is read back as the same list of blocks |
| LogFormat.ReplayAt | kernel/log.c:68-83 | installing copies each log block to the place its entry names |
| LogFormat.ReplayElsewhere | kernel/log.c:68-83 | installing changes no block that is not listed |
| LogFormat.RecoveryYieldsImage | kernel/log.c:116-123 | a complete recovery gives the home blocks of an image if and only if the log, laid over the disk, describes that image |
| LogFormat.RecoveryIsIdempotent | kernel/log.c:116-123 | recovering again changes nothing |
| LogDevice.PartRecoveredRecovers | kernel/log.c:68-83 | every disk state that a crash can leave during recovery still recovers to the same image |
| LogDevice.CrashedRecoveries | kernel/log.c:116-123 | so does any number of recoveries that crash one after the other |
| LogDevice.UncommittedRecovers | kernel/log.c:178-191 | before the header is written the disk recovers to the old home blocks |
| LogDevice.CommittedRecovers | kernel/log.c:193-203 | once the header is written it recovers to the new ones |
| LogDevice.Log.LogWrite | kernel/log.c:214-235 | a block is listed once however often it is logged; the panics are exactly the two guards |
| LogDevice.Log.WriteHead | kernel/log.c:102-114 | the header block holds the list, in one block write |
| LogDevice.Log.WriteLog | kernel/log.c:178-191 | the log blocks hold the listed blocks, and every disk state on the way is known |
| LogDevice.Log.InstallTrans | kernel/log.c:68-83 | the loop is the replay, state by state |
| LogDevice.Log.ReadHead | kernel/log.c:86-97 | the list in memory is the one on the disk |
| LogDevice.Log.RecoverFromLog | kernel/log.c:116-123 | the disk ends recovered, and each state on the way is partly recovered |
| LogDevice.Log.WriteTransaction | kernel/log.c:193-198 | all states but the last recover to the old disk, the last one to the new contents |
| LogDevice.Log.Commit | kernel/log.c:193-203 | home blocks end all new, and every intermediate disk state recovers to all old or all new, all new exactly from the header write on |
| LogSafety.AlwaysRecoverable | kernel/log.c:116-203 | in every reachable state the disk recovers to what the last commit point saved |
| LogSafety.HeldBufferShowsContents | kernel/bio.c:92-103 | whoever holds a buffer with data sees the current contents of its block |
| LogSteps.StepKeepsInv | kernel/log.c:68-235 | every step of every thread, of a commit, of recovery and every crash keeps the invariant of log, cache and disk |
| LogRuns.RunAgrees | kernel/log.c:68-235 | every run agrees with a plain map from block to data and the copy saved at commit points |
| LogRuns.CrashAtomicity | kernel/log.c:68-203 | in every run from power-on, with any crashes, recovery now would give exactly the home blocks of the last commit |
| LogRuns.Durability | kernel/log.c:146-203 | in every run, once no operation and no commit is under way, the log is empty and recovery now would give everything that all operations have written |
| LogRuns.CacheTransparency | kernel/bio.c:58-151 | in every run a held buffer reads what the plain map holds |
| LogRuns.ReservationHolds | kernel/log.c:126-175 | entries plus unspent reservations fit in the log, entries fit on the disk, commits run only without operations, no block is cached twice |
| LogRuns.EndOpNeverDuringCommit | kernel/log.c:151-154 | end_op's panic is unreachable |
| LogRuns.CommitPointDecides | kernel/log.c:193-203 | during a commit the disk recovers to the new contents if and only if the header has reached it |
| LogProgress.CommitCompletes | kernel/log.c:146-203 | the last end_op leads, through a commit, to a state at rest whose disk holds the contents, if fewer blocks are logged than there are buffers and nobody else holds one |
| LogProgress.RecoveryCompletes | kernel/log.c:53-123 | whatever disk the machine comes up with, recovery can be brought to its end, and the disk then holds the image it recovers to |
| LogShort.ReservationGivesRoom | kernel/log.c:214-223 | an operation with reservation left beyond what the log is short of finds room |
| LogShort.FullLogIsReached | kernel/log.c:126-223 | with a log of at most LOGSIZE blocks some run from power-on brings an operation with reservation left to a full log |
| LogShort.RoomWhileUnspentIff | kernel/log.c:126-223 | in every reachable state every operation with reservation left finds room if and only if the log is longer than LOGSIZE or there are too few home blocks to fill it |
| LogShort.MkfsLogIsOneShort | mkfs/mkfs.c:23-25 | so not with the log that mkfs makes |
| LogShort.PanicIsReached | kernel/log.c:214-223 | if the home blocks can fill the log, some run from power-on ends with a lawful call of log_write on a full log; in a long log the caller has spent its reservation and logs a block of its own again |
| LogShort.RoomIff | kernel/log.c:214-223 | in every reachable state every lawful call of log_write finds room if and only if there are fewer home blocks than LOGSIZE and than the log can list, or none |
| LogShort.EveryBufferPinned | kernel/log.c:214-235 | with as many blocks logged as there are buffers, every buffer is pinned |
| LogShort.StuckIsReached | kernel/log.c:126-191 | with a log of more than LOGSIZE blocks some run from power-on fills the cache with logged blocks |
| LogShort.CommitsCompleteIff | kernel/log.c:146-203 | from every reachable state with one operation left and no buffer in use the commit can be brought to its end if and only if the log has at most LOGSIZE blocks or there are fewer home blocks than that |
| LogShort.NoLengthGivesBoth | kernel/log.c:126-203 | on a disk with LOGSIZE home blocks or more, room for every operation with reservation left excludes that every commit completes, and the other way round |
| FsFormat.WordStored | kernel/fs.c:392-400 | a pointer stored in an indirect block is read back and no other entry changes |
| FsFormat.MarkedUses | kernel/fs.c:74-77 | setting a block's bit in its bitmap byte changes that block's bit alone |
| FsFormat.ClearedFrees | kernel/fs.c:95-100 | so does clearing it |
| FsFiles.ExactlyOneSlot | kernel/fs.c:370-405 | an owned block is held in exactly one slot: a direct pointer, an indirect pointer or an indirect entry |
| FsFiles.StorePtr | kernel/fs.c:383-400 | writing a pointer changes that slot and no other slot of any inode |
| FsFiles.OtherFile | kernel/fs.c:370-405 | changing blocks that a file does not own leaves its pointers and bytes alone |
| FsFiles.WrittenKeeps | kernel/fs.c:498-506 | writing one block of a file touches no other block of any file |
| FsState.BitIffOneSlot | kernel/fs.c:64-103 | a data block's bit is set if and only if exactly one slot holds the block |
| FsState.FilledConsistent | kernel/fs.c:383-400 | a fresh block put into an empty slot keeps bits and slots in agreement and moves nothing that was there |
| FsState.ClearedConsistent | kernel/fs.c:90-103 | a block held in a slot has its bit set, and clearing both keeps them in agreement |
| FsState.ReachCount | kernel/file.c:155-160 | a chunk, at any offset, reaches at most six blocks besides the bitmap |
| FsTrunc.DroppedIsHeld | kernel/fs.c:409-437 | what itrunc frees is exactly what the inode's slots held |
| FsTrunc.ResetKeepsOthers | kernel/fs.c:409-437 | the file is empty and every other file is as it was |
| FsLog.LoggedTrans | kernel/log.c:205-235 | what two pieces of a transaction change is in the log if each has logged what it changed |
| FsWrites.ChunkSplices | kernel/fs.c:497-506 | copying a chunk into one block splices it into the file |
| FsWrites.ChunkRead | kernel/fs.c:465-475 | a chunk of one block is the slice of the file |
| FileSystem.FileSystem.constructor | mkfs/mkfs.c:234-248 | the blocks before the data region are marked, all files are empty and consistent |
| FileSystem.FileSystem.BAlloc | kernel/fs.c:63-86 | the lowest free block, never an owned one, now marked and zeroed, with all that changed in the log; fails only when no block is free |
| FileSystem.FileSystem.BFree | kernel/fs.c:88-103 | the bit is cleared, and its bitmap block is in the log; a set bit is what it demands |
| FileSystem.FileSystem.BMap | kernel/fs.c:377-405 | the nth block, present afterwards; nothing moves, a block that is there is found without allocating, and every changed block is in the log, also on failure |
| FileSystem.FileSystem.ITrunc | kernel/fs.c:407-437 | exactly the inode's blocks become free, also those past its size; "freeing free block" is unreachable; other files keep their bytes; every changed block is in the log |
| FileSystem.FileSystem.ReadI | kernel/fs.c:455-477 | the slice of the file, 0 or -1 as the source says, and nothing is allocated |
| FileSystem.FileSystem.WriteI | kernel/fs.c:486-517 | the splice of as many bytes as whole chunks allow, -1 exactly when refused, other files unchanged, files without holes; every block that changed is in the log, also on failure, and only reachable blocks are |
| FileSystem.FileSystem.FileWrite | kernel/file.c:148-175 | the bytes are spliced in; all of them exactly when the file can take them and the source can be read; each transaction has every block that its chunk changed, and at most six blocks and the bitmap's, so at most MAXOPBLOCKS with four bitmap blocks |
| FileSystem.FileSystem.Run | kernel/fs.c:407-517 | any run of writes, reads and truncations does to the files what it does to plain byte sequences |
| Links.MadeCountsIff | kernel/sysfile.c:241-284 | right after create all link counts are right if and only if it made no directory, or made it in one that is still linked and can take a link more |
| Links.RevivedParent | kernel/sysfile.c:267-279 | mkdir in a removed directory makes a count wrong |
| LinkSteps.StartKeepsInvIff | kernel/sysfile.c:134-143 | counting a link ahead of its entry is right if and only if the short does not overflow |
| LinkSteps.FinishCounts | kernel/sysfile.c:145-153 | entering the link leaves all counts right, whatever the directory |
| LinkSteps.FileIsLost | kernel/sysfile.c:241-284 | a file created in a removed directory has a wrong count once the directory's last user has gone |
| LinkSteps.LinkIsLost | kernel/sysfile.c:145-153 | so has a file linked into one |
| LinkSteps.MadeStaysRightIff | kernel/sysfile.c:241-284 | after create counts are right, now and after the directory's last iput, if and only if the directory is still linked and can take the link |
| LinkSteps.FinishStaysRightIff | kernel/sysfile.c:145-153 | after a link is entered they are if and only if the directory is still linked |
| LinkSteps.UndoKeepsInv | kernel/sysfile.c:159-165 | the rollback restores the count |
| LinkSteps.UnlinkedFileKeepsInv | kernel/sysfile.c:218-229 | removing an entry of a file and one link keeps counts right |
| LinkSteps.EmptyDirRefs | kernel/sysfile.c:168-182 | an empty directory is named by its parent's entry alone |
| LinkSteps.UnlinkedDirKeepsInv | kernel/sysfile.c:213-229 | removing an empty directory takes one link from it and one from its parent, and all counts stay right |
| LinkSteps.ReclaimedKeepsInv | kernel/fs.c:332-358 | freeing an inode without links and references keeps counts right |
| DirNames.LookupIsMap | kernel/fs.c:529-553 | with distinct names a directory is a map, and dirlookup looks a name up in it |
| DirNames.PutInserts | kernel/fs.c:566-580 | writing an absent name into an empty entry keeps names distinct and is an insertion |
| DirNames.ClearRemoves | kernel/sysfile.c:218-220 | clearing an entry keeps names distinct and is a removal |
| DirNames.MadeInserts | kernel/sysfile.c:241-284 | create inserts one name into its directory, a new directory has the two dots, all others are as before |
| DirNames.EnteredInserts | kernel/sysfile.c:145-153 | so does the entry of a new link |
| DirNames.UnlinkedRemoves | kernel/sysfile.c:213-229 | unlink removes one name from its directory, all others are as before |
| Directories.Directories.constructor | mkfs/mkfs.c:117-129 | the root directory, its own parent, with the right counts and distinct names |
| Directories.Directories.DirLookup | kernel/fs.c:529-553 | the first entry in use under the name, or none; the value of the map of names |
| Directories.Directories.DirLink | kernel/fs.c:556-583 | -1 exactly when the name is there; otherwise the entry goes to the first empty place or the end |
| Directories.Directories.IsDirEmpty | kernel/sysfile.c:168-182 | whether nothing but the dots is in use |
| Directories.Directories.IAlloc | kernel/fs.c:195-215 | the lowest free inode, failing only when there is none |
| Directories.Directories.Create | kernel/sysfile.c:241-284 | an existing file is returned only for a file request, otherwise the new inode and its entries appear; counts are right now, and stay so after the directory's last iput, under exactly the conditions above; one name is added to the map of names |
| Directories.Directories.StartLink | kernel/sysfile.c:134-143 | directories are refused, otherwise one link more is counted |
| Directories.Directories.FinishLink | kernel/sysfile.c:145-165 | the entry appears, with right counts that stay right exactly when the directory is linked, or the link is taken back; one name is added or none |
| Directories.Directories.Unlink | kernel/sysfile.c:184-239 | refused exactly for the dots, missing names and directories in use; otherwise entry and links go and one name is removed; "nlink < 1" is unreachable |
| Directories.Directories.LastPut | kernel/fs.c:332-358 | an inode without links is freed with the last reference |
| Directories.Directories.Run | kernel/sysfile.c:119-284 | any run of these steps that works in linked directories keeps every link count right and the names distinct |
| Directories.LinkCountsExact | kernel/sysfile.c:119-284 | with no link in the making, nlink is the number of entries naming the inode, "." and the ".." of removed directories not counted |
| Directories.UnlinkedParentExample | kernel/sysfile.c:241-284 | after mkdir and unlink in a new tree, mkdir in the removed directory makes a count wrong, and creat one that is wrong after the last iput |
| PageFormat.PteRoundTrip | kernel/riscv.h:347-352 | address and flags are read back from an entry; it is a leaf, and the user's, exactly if its permissions say so |
| PageFormat.IndicesDetermine | kernel/riscv.h:354-363 | two page addresses below MAXVA have the same three indices if and only if they are equal |
| PageTree.TableOwned | kernel/vm.c:80-98 | every table page is a root or is reached through exactly one entry |
| PageTree.StoredPte | kernel/vm.c:148-152 | writing an entry changes that entry's meaning and no other's, in any table |
| PageMoves.TableAdded | kernel/vm.c:90-94 | hanging an empty table behind an empty entry changes no mapping |
| PageMoves.LeavesDistinct | kernel/vm.c:80-98 | distinct pages below MAXVA reach distinct leaf entries |
| PageMoves.OnePlace | kernel/kalloc.c:46-82 | a page that a table owns is behind exactly one entry and is neither free nor held nor a root |
| PageMoves.FilledUndone | kernel/vm.c:230-241 | taking back the pages added so far leaves all mappings and pages in use as they were |
| PageMoves.CopyIsDisjoint | kernel/vm.c:300-323 | after uvmcopy the child's pages are none of the parent's and show the same words with the same flags |
| PagePrune.PrunedStep | kernel/vm.c:266-282 | freeing the table behind an entry and clearing the entry removes that subtree and nothing else |
| PagePrune.RootFreed | kernel/vm.c:266-282 | once every subtree is gone the root page is free and nothing of the table is left |
| VirtualMemory.VirtualMemory.constructor | kernel/kalloc.c:26-31 | before freerange every page is held |
| VirtualMemory.VirtualMemory.FreeRange | kernel/kalloc.c:33-40 | exactly the whole pages of the range become free |
| VirtualMemory.VirtualMemory.KAlloc | kernel/kalloc.c:68-82 | the first page of the list, 0 exactly when there is none; no page in use changes |
| VirtualMemory.VirtualMemory.KFree | kernel/kalloc.c:46-63 | the page becomes the first of the list |
| VirtualMemory.VirtualMemory.KFreeMem | kernel/kalloc.c:84-98 | PGSIZE times the length of the free list |
| VirtualMemory.VirtualMemory.Walk | kernel/vm.c:80-98 | the page of the leaf entry; no mapping changes; it fails only for want of memory or, without alloc, when the table is missing |
| VirtualMemory.VirtualMemory.WalkAddr | kernel/vm.c:103-121 | the page behind a user address, 0 if it is not mapped for the user |
| VirtualMemory.VirtualMemory.MapPages | kernel/vm.c:137-160 | on the flat map an insertion of the range with any permission bits; on failure a known number of pages has been mapped and memory is out |
| VirtualMemory.VirtualMemory.UvmUnmap | kernel/vm.c:165-187 | on the flat map a removal of the range, the pages going to the free list or back to the caller |
| VirtualMemory.VirtualMemory.UvmCreate | kernel/vm.c:191-200 | an empty table, other tables unchanged |
| VirtualMemory.VirtualMemory.UvmDealloc | kernel/vm.c:250-262 | the pages between the two sizes go back to the free list |
| VirtualMemory.VirtualMemory.UvmAlloc | kernel/vm.c:220-244 | all pages between the two sizes, fresh, zeroed and with all rights for the user, or, when memory runs out, none, with every mapping as before; it reaches mappages' panic at the trapframe only with enough physical pages to fill all the space below |
| VirtualMemory.VirtualMemory.UvmCopy | kernel/vm.c:300-328 | fresh pages that show what the parent's show, or, when memory runs out, a child as before |
| VirtualMemory.VirtualMemory.FreeEntries | kernel/vm.c:266-282 | freewalk's loop frees every table below and clears the entries; "freewalk: leaf" is unreachable |
| VirtualMemory.VirtualMemory.UvmFree | kernel/vm.c:286-292 | every page of the table becomes free and nothing else changes |
| SleepLock.StepKeepsInv | kernel/sleeplock.c:21-41 | every step of acquiresleep, releasesleep, sleep and wakeup keeps the invariant |
| SleepLock.MutualExclusion | kernel/sleeplock.c:21-41 | in every run at most one process owns the lock, and its pid is recorded |
| SleepLock.NoLostWakeup | kernel/proc.c:535-580 | in every run, when lock and inner spin lock are free no process sleeps on it |
| SleepLock.FreeLockIsReachable | kernel/sleeplock.c:21-41 | and every process can move |
| SleepLock.FreeLockIsObtained | kernel/sleeplock.c:21-41 | and every process inside acquiresleep, left to itself, comes out with the lock after at most six steps |
| ProcRuns.StepKeepsInv | kernel/proc.c:276-604 | every step of fork, exit, wait, kill, the scheduler, sleep and wakeup keeps the invariant |
| ProcRuns.OneCpuEach | kernel/proc.c:444-472 | in every run no process is on two CPUs |
| ProcRuns.OnCpuUnlessOff | kernel/proc.c:444-496 | in every run a process is on a CPU exactly if it has not been switched out |
| ProcRuns.DispatchedIsOff | kernel/proc.c:444-472 | the scheduler, which looks at state and lock alone, never picks a process that is on a CPU |
| ProcRuns.PidsDistinct | kernel/proc.c:88-148 | in every run live processes have distinct pids, before they are cut to an int |
| ProcRuns.InitKeepsPid | kernel/proc.c:88-148 | in every run init is alive with pid 1 |
| ProcRuns.IntPidsDistinct | kernel/proc.c:88-98 | the ints of live processes are distinct as long as fewer than 2^32 processes have been forked |
| ProcRuns.WrappedPidRepeats | kernel/proc.c:88-98 | a run of 2^32 forks after which init and another live process have the same int |
| ProcRuns.IntsStayDistinctIff | kernel/proc.c:88-98 | ints stay distinct in all runs with at most m forks if and only if m is below 2^32 |
| ProcRuns.ParentsAlive | kernel/proc.c:330-386 | in every run no parent is a zombie or unused, and no process but init lacks one |
| ProcRuns.ReapedOnceByParent | kernel/proc.c:390-435 | a zombie is reaped once, by its parent at that moment |
| ProcRuns.ReapedStatusWasPassed | kernel/proc.c:346-435 | the status that wait hands out is the one that the reaped process passed to exit, in the one call of exit it has made |
| ProcRuns.OneExitCall | kernel/proc.c:346-386 | no process calls exit twice |
| ProcRuns.WaitDecides | kernel/proc.c:390-435 | wait gives up if and only if the caller has been killed or has no children, and sleeps only if no child is a zombie |
| ProcRuns.ForkedChild | kernel/proc.c:276-325 | when fork is done the child is runnable, has the caller as its parent and has not called exit |
| ProcRuns.ChildrenGivenAway | kernel/proc.c:330-386 | when a process becomes a zombie it has no children left, and its parent is not asleep in wait |
| ProcRuns.ExitsOnce | kernel/proc.c:346-386 | a process exits at most once |
| ProcRuns.NoZombieMissed | kernel/proc.c:390-435 | no process sleeps in wait while a child is a zombie, once wait_lock is free |
| ProcCycles.YieldReturns | kernel/proc.c:444-512 | a process that yields can be given its CPU back, or any idle one, and everything is then as it was |
| ProcCycles.SleepReturns | kernel/proc.c:444-580 | so can one that sleeps, once it has been woken |
| ProcCycles.LifeCycle | kernel/proc.c:276-435 | from every reachable state in which nothing is in the way a process can fork, its child can exit with any status and wait hands that status over; the whole table is then as it was |
| ProcKill.KilledIff | kernel/proc.c:585-605 | in every run a process is marked as killed if and only if kill has hit its entry since the entry was last freed |
| ProcKill.KillWakes | kernel/proc.c:585-605 | whoever kill hits is marked and not asleep |
| ProcKill.KillZeroHitsTheNextChild | kernel/proc.c:585-605 | a run in which a new process is marked although kill was never called with its pid |
| Virtio.AllocDesc | kernel/virtio_disk.c:143-154 | the lowest free descriptor, -1 exactly when there is none |
| Virtio.FreeChain | kernel/virtio_disk.c:172-185 | the loop ends and frees the three descriptors of the chain, without a panic |
| Virtio.Alloc3 | kernel/virtio_disk.c:187-201 | three distinct free descriptors, or none taken and no three were free |
| Virtio.AddChain | kernel/virtio_disk.c:189-253 | descriptors still split into free ones and disjoint chains |
| Virtio.RemoveChain | kernel/virtio_disk.c:172-185 | so they do when a chain is freed |
| Virtio.PutOnRing | kernel/virtio_disk.c:259-265 | a new entry overwrites no unread one, across the wrap-around of the 16-bit index |
| Virtio.ReadRing | kernel/virtio_disk.c:300-311 | the oldest unread entry is read back |
| Virtio.Disk.constructor | kernel/virtio_disk.c:77-141 | all descriptors free, both rings empty |
| Virtio.Disk.Submit | kernel/virtio_disk.c:203-269 | the request is offered under a head, for the sectors of the buffer's block, or nothing happens because no three descriptors are free |
| Virtio.Disk.Finish | kernel/virtio_disk.c:271-280 | once the buffer is released its chain is freed without a panic, and the buffer holds the bytes of the request: what its block held when a read was completed, what was submitted of a write |
| Virtio.Disk.DeviceTake | kernel/virtio_disk.c:259-269 | the device takes offered heads in order, each once |
| Virtio.Disk.DeviceComplete | kernel/virtio_disk.c:226-253 | a device that insists on a proper chain of descriptors gets one; with status 0 it transfers the right block between the right buffer and the disk, with another status it may leave anything there |
| Virtio.Disk.AckOne | kernel/virtio_disk.c:300-312 | one completion releases exactly the buffer submitted under that head, once, and panics if and only if its status is not 0 |
| Virtio.Disk.Intr | kernel/virtio_disk.c:282-315 | however the device works meanwhile, the loop ends; it panics exactly at a completion with a status other than 0, and otherwise every completion is acknowledged, also those that came during the loop, and nothing else |
| Pipe.CountersCompare | kernel/pipe.c:88-121 | the wrapped counters compare as the true counts do |
| Pipe.Pipe.PipeWrite | kernel/pipe.c:76-103 | its bytes enter the stream in order, all up to a fault; it waits only on a full pipe; it fails only with bytes left, the read end closed or the writer killed, and a writer of bytes that does not fail was not killed; the whole outcome is that of a function on values |
| Pipe.Pipe.CopyOut | kernel/pipe.c:120-126 | the oldest unread bytes, in order; a byte that faults is lost |
| Pipe.Pipe.PipeRead | kernel/pipe.c:105-130 | a piece of the stream right after what was consumed, as long as asked for, up to a fault or all there is; it waits only on an empty pipe, never once the write end is closed, and fails only if killed while it waits |
| Pipe.Pipe.RunTurns | kernel/pipe.c:76-130 | any interleaving of turns does to the pipe what it does to a queue of at most PIPESIZE bytes with two ends |
| UserMalloc.ReleasedIsFreeList | user/umalloc.c:29-43 | after free the list is circular, ordered, disjoint and fully coalesced |
| UserMalloc.ReleasedIsTiled | user/umalloc.c:29-43 | and the freed block's units, no others, have become free |
| UserMalloc.SplitIsTiled | user/umalloc.c:78-82 | cutting a tail off a free block gives a new live block, all units kept |
| UserMalloc.UnlinkedIsFreeList | user/umalloc.c:76-77 | taking a block out whole keeps the list well formed |
| UserMalloc.NeighboursShareBlock | user/umalloc.c:33-42 | free units next to each other belong to the same free block |
| UserMalloc.UnitsConserved | user/umalloc.c:24-90 | the units of the heap are the units of the free and live blocks together |
| UserMalloc.NewFitEndsAbove | user/umalloc.c:46-61 | if nothing fitted before morecore, what fits afterwards ends where the new memory ends |
| UserMalloc.GrantCoversIff | user/umalloc.c:46-61 | what sbrk's int grants covers the block morecore makes of it if and only if malloc was asked for at most 0x7fffffe0 bytes |
| UserMalloc.GrantTooShort | user/umalloc.c:46-61 | two larger requests, one passed to sbrk as 0 and one as a negative amount |
| UserMalloc.Allocator.FindPlace | user/umalloc.c:29-32 | the search ends at the list element that precedes the block |
| UserMalloc.Allocator.Free | user/umalloc.c:24-44 | the block is no longer live, everything else stays, and the next search starts behind the element below it |
| UserMalloc.Allocator.MoreCore | user/umalloc.c:46-61 | fails exactly when sbrk does, otherwise there is a fit, whatever sbrk's int made of the amount |
| UserMalloc.Allocator.FindFit | user/umalloc.c:73-89 | the search ends, also after morecore, with a fit or with no memory and no fit |
| UserMalloc.Allocator.Malloc | user/umalloc.c:63-90 | a new live block of the units asked for, disjoint from all others: the end of the first block that fits going round from where the last call left off, or else the end of the new memory; it fails only when nothing fits and sbrk fails; the heap stays within what sbrk handed out if and only if it did not grow or at most 0x7fffffe0 bytes were asked for |
| ShellGrammar.GetToken | user/sh.c:265-308 | a token lies between its delimiters, a word is a maximal run of word characters |
| ShellReads.PlainReads | user/sh.c:374-446 | a plain command, with redirections before, between and after its words, is parsed as the words with the redirections around them, the first one innermost |
| ShellReads.PipelineReads | user/sh.c:361-372 | units joined by bars are parsed as a pipeline nested to the right |
| ShellReads.JobReads | user/sh.c:344-359 | pipelines with any number of ampersands, joined by semicolons, are parsed as a list nested to the right; the bar binds tighter |
| ShellReads.LineReads | user/sh.c:327-446 | a line with the tokens of a list of jobs, spaced in any way, is parsed as what that list means |
| ShellAccepts.Accepted | user/sh.c:327-446 | a line is accepted if and only if its tokens are those of a list of jobs with at most nine words to a command |
| ShellRoundTrip.PrintedReads | user/sh.c:327-446 | a list of jobs printed bare is parsed back as what it means |
| ShellRoundTrip.RoundTrip | user/sh.c:327-446 | every tree of commands with at most nine words each is what some line is parsed as |
| ShellWords.ParseLineWords | user/sh.c:344-446 | every word of a parsed command is a maximal run of word characters |
| ShellWords.WordsBecomeStrings | user/sh.c:448-493 | nulterminate overwrites no byte of a word and makes every word a C string |
| Shell.Parser.PeekAt | user/sh.c:310-320 | the cursor skips whitespace and the answer is the grammar's |
| Shell.Parser.NextToken | user/sh.c:265-308 | the cursor moves past the token the grammar sees |
| Shell.Parser.ParseRedirs | user/sh.c:374-397 | the loop reads the redirections of the grammar or panics as it does |
| Shell.Parser.ParseExec | user/sh.c:415-446 | arguments and redirections as in the grammar, with the limit on arguments |
| Shell.Parser.ParseBlock | user/sh.c:399-413 | a block as in the grammar |
| Shell.Parser.ParsePipe | user/sh.c:361-372 | a pipeline as in the grammar |
| Shell.Parser.ParseLine | user/sh.c:344-359 | a line as in the grammar; it ends on every input |
| Shell.Parser.ParseCmd | user/sh.c:327-342 | the tree of the grammar, and each word a C string in the buffer; the buffer is untouched on an error |
| Shell.Parser.NulTerminate | user/sh.c:448-493 | NULs exactly at the ends of the words |
| Grep.LanguageCons | user/grep.c:82-94 | a text is in the language of an item and more if it splits into a fit and the rest |
| Grep.HereOne | user/grep.c:91-93 | a single character is consumed if it fits |
| Grep.MatchHere | user/grep.c:82-94 | true if and only if a prefix of the text is in the pattern's language (all of it with a trailing $) |
| Grep.MatchStar | user/grep.c:96-104 | true if and only if some run of the starred character can be followed by a match |
| Grep.Match | user/grep.c:70-80 | true if and only if the text contains a match, at its start with a leading ^ |

## Left out

- Assembly, CSR access, traps, boot, UART, PLIC and console: hardware behaviour.
- Spin locks and memory fences: acquire and release are atomic steps.
- Path resolution (`skipelem`, `namex`), the inode table (`iget`, `ilock`, `iunlock`), file descriptors, `sys_open` and the other system call wrappers: each holds no more state than a reference count or a table entry and hands its arguments on. Directory operations take resolved directories.
- The on-disk layout of inodes and directory entries: a directory is its sequence of entries, an inode a record.
- `exec`, `runcmd`, `copyin`, `copyout`, `copyinstr`, `uvminit`, `uvmclear` and `kvmmake`: orchestration of what is modelled.
- `virtio_disk_init`, which the model replaces by its result; device registers and interrupts as such.
- A partly copied, unlogged buffer after a fault inside `either_copyin`: a chunk is copied whole or not at all.
- Interleavings inside one file or directory operation: it runs under its inode's lock. Other inodes' operations interleave between calls.
- LogMachine: one device with a number other than 0, because `virtio_disk_rw` does not look at the device.
- SleepLock: the timer's yield is not a step; a process keeps its CPU until it sleeps. `ProcMachine` has yield.
- ProcRuns.PidsDistinct: is about pids before they are cut to an int; `ProcRuns.IntsStayDistinctIff` is about the ints.
- UserMalloc.Allocator.Malloc: the fault on touching memory that `sbrk` did not hand out is not modelled, and what `sbrk` hands out later lies above the heap. The break is a multiple of the header size.
- VirtualMemory.VirtualMemory.MapPages: demands what its panics demand: pages not yet mapped, and a range that ends at or below MAXVA.
- Progress: that commit, recovery, fork, exit, wait, yield and sleep can be brought to their end is shown for runs in which others stay out of the way; there is no fairness.
- Pipe.Pipe.PipeWrite: the wakeups of the other end are not modelled; which turns others take during a sleep is a parameter.
- ProcCycles.LifeCycle: demands that wait_lock and the locks of the children are free and that no other child is a zombie; what happens otherwise is in the theorems over all runs.
