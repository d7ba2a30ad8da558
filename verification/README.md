# xv6: verified models of the kernel's and the user programs' core

A Dafny model of the xv6 teaching kernel for RISC-V and of three of its user programs, with proofs about
whole runs, refinement, conservation and round trips. `dafny verify dfyconfig.toml` checks it.

| part | files |
|---|---|
| redo log and its reservations | `LogSpec`, `LogProtocol`, `LogCrash`, `LogLoose`, `LogAdmission`, `LogDriver` |
| buffer cache, and that it refines the log's | `BufferCache`, `CacheRefinement` |
| inodes, blocks, file contents | `Inodes`, `FileSystem` |
| link counts and path resolution | `Links` |
| page tables, address spaces, all processes' memory | `PageTable`, `Vm`, `FreeWalk`, `AddressSpace`, `Spaces`, `Sets` |
| process life cycle | `Proc`, `ProcLife` |
| pipes | `Pipe` |
| virtio disk queue | `Virtio` |
| user-level allocator | `FreeList`, `Umalloc` |
| grep, shell | `Grep`, `Shell` |

Code shared by several CPUs (log, processes, pipes, virtio) is a transition system over its lock-level
steps: `Enabled` says when a step can be taken, `Apply` what it does, and the theorems quantify over all
runs. Acquire and release are steps with an owner; a section that holds one lock and cannot block is one
step. Code that one caller runs to completion is a class or a method with the source's loops. `panic` is
a state that cannot be left, and where a property says so it is proved unreachable.

Where the code and its documentation disagree, the model follows the code:

- `log_write` tests for a full log before it looks for the block in the log, so an absorbed write can
  panic; in which logs is stated exactly (`LogAdmission.AbsorptionExact`).
- `mkfs` makes the log LOGSIZE blocks long, one less than the reservations of `begin_op` need
  (`LogAdmission.AdmissionExact`).
- A writer that is killed inside `pipewrite` returns without waking readers; which runs this strands
  is stated exactly (`Pipe.NoLostWakeup`, `Pipe.StrandedReader`).
- Entering a name in a directory that has been removed upsets link counts, and going up from one whose
  parent has been freed panics; which operations and which paths do is stated exactly (`Links.KeepsExactly`,
  `Links.WalkMeets`).
- A failed copy inside `writei` leaves a changed block that is not logged; which one is stated exactly
  (`FileSystem.Files.Writei`). Such a change can be lost without a crash or be committed with a later group;
  the log is proved with it (`LogCrash.StepRefines`), and for all other blocks keeps the plain promise
  (`LogLoose.PlainAtomicity`, `LogLoose.ChangeLost`).
- `malloc` computes a byte count that may not fit the int argument of `sbrk`; for which requests is stated
  exactly (`Umalloc.GarbledExactly`).
- `itrunc` logs one bitmap block per stretch of 8192 blocks; on which disks that keeps to the reservation is
  stated exactly (`FileSystem.TruncReservation`).
- `grep` stops at the first line that does not fit its buffer or holds a NUL (`Grep.SelectedLines`,
  `Grep.Decomposes`).

## Model

| member | source | states |
|---|---|---|
| `LogSpec.EmptyHeaderRecoversHome` | xv6-labs-2022/kernel/log.c:116-123 | Recovery from a disk whose header lists no blocks leaves every home block alone |
| `LogSpec.InstallKeepsRecovered` | xv6-labs-2022/kernel/log.c:68-83 | Copying any one listed block from its log slot to its home leaves what recovery would produce unchanged |
| `LogSpec.EraseKeepsRecovered` | xv6-labs-2022/kernel/log.c:116-123 | Once all listed blocks are home, erasing the header leaves what recovery would produce unchanged |
| `LogSpec.LogFillKeepsRecovered` | xv6-labs-2022/kernel/log.c:178-191 | Writes into log slots under an empty header are invisible to recovery |
| `LogSpec.HeaderWriteCommits` | xv6-labs-2022/kernel/log.c:102-114 | The one header write moves the recovered image from the home blocks to the home blocks overlaid with all logged copies |
| `LogCrash.Keeps` | xv6-labs-2022/kernel/log.c:126-235 | Every lock-level step of begin_op, end_op, log_write, the commit, the buffer cache, a crash or recovery keeps the whole invariant of log, flags, cache and pins; a changed block may be released unlogged |
| `LogCrash.StepRefines` | xv6-labs-2022/kernel/log.c:126-235 | Every such step is a step of a specification without log and cache: a header write makes all changes durable at once but those of blocks in no group, a crash drops the changes that are not durable, and eviction undoes the unlogged change of a block |
| `LogCrash.CrashAtomicity` | xv6-labs-2022/kernel/log.c:193-203 | At every point of every run, with crashes anywhere and repeatedly, also during recovery, the disk recovers to exactly the specification's durable image and readers see exactly its volatile one; headers are written only with no operation active |
| `LogCrash.RecoveryInstalls` | xv6-labs-2022/kernel/log.c:116-123 | When recovery returns, the home blocks are that durable image and the header is empty |
| `LogCrash.PinnedResident` | xv6-labs-2022/kernel/log.c:214-235 | Every block in the list stays resident, valid and referenced until it is installed, so each log slot receives what readers see; with an empty list no pin is left over |
| `LogCrash.CommitExclusion` | xv6-labs-2022/kernel/log.c:146-175 | `committing` implies `outstanding == 0`, the panic of end_op is unreachable, and log_write panics exactly when the log is full |
| `LogLoose.InHandKept` | xv6-labs-2022/kernel/fs.c:513-531 | A change that is not logged stays in the hands of the operation that made it under every step except one that releases the block |
| `LogLoose.PlainAtomicity` | xv6-labs-2022/kernel/log.c:205-235 | At every point of every run, for every block never released changed and unlogged, the disk recovers its contents as of the last header write, and readers see its last change since the last crash |
| `LogLoose.ChangeLost` | xv6-labs-2022/kernel/fs.c:521-524 | The condition is needed: in every geometry a run changes a block, releases it unlogged, evicts it and shows readers the old contents without a crash |
| `LogAdmission.ReservedKept` | xv6-labs-2022/kernel/log.c:126-142 | Every step of a run in which operations keep to MAXOPBLOCKS distinct blocks keeps n plus the unspent reservations within LOGSIZE |
| `LogAdmission.AdmissionSound` | xv6-labs-2022/kernel/log.c:126-142 | With log.size > LOGSIZE the sum of n and unspent reservations never exceeds LOGSIZE and no operation with reservation left is refused |
| `LogAdmission.SmallLogOverruns` | xv6-labs-2022/kernel/log.c:214-235 | With log.size at most LOGSIZE, as mkfs makes it, three operations within their budgets reach the panic of log_write |
| `LogAdmission.AdmissionExact` | xv6-labs-2022/kernel/log.c:214-235 | Reservations are honoured in all runs if and only if log.size > LOGSIZE |
| `LogAdmission.AbsorptionCanPanic` | xv6-labs-2022/kernel/log.c:214-235 | In every log that can hold a block, a run within the budgets re-logs a listed block in a full log and panics |
| `LogAdmission.AbsorptionExact` | xv6-labs-2022/kernel/log.c:214-235 | The full-log test precedes absorption: a write that would append nothing can panic if and only if log.size > 1 |
| `LogDriver.Log.Bread` | xv6-labs-2022/kernel/bio.c:92-103 | Reading a block returns the cached contents, or the disk's and caches them |
| `LogDriver.Log.Bwrite` | xv6-labs-2022/kernel/bio.c:106-112 | One atomic disk write, recorded in the trail of disk images |
| `LogDriver.Log.ReadHead` | xv6-labs-2022/kernel/log.c:86-97 | The in-memory list becomes the on-disk list |
| `LogDriver.Log.WriteHead` | xv6-labs-2022/kernel/log.c:102-114 | The on-disk header lists exactly the in-memory blocks, by one write |
| `LogDriver.Log.WriteLog` | xv6-labs-2022/kernel/log.c:178-191 | Each listed block's latest contents go to its slot; every disk image on the way recovers to the old image |
| `LogDriver.Log.InstallTrans` | xv6-labs-2022/kernel/log.c:68-83 | Every listed block goes home and, in a commit but not in recovery, is unpinned once; every disk image on the way recovers to the same image |
| `LogDriver.Log.Commit` | xv6-labs-2022/kernel/log.c:193-203 | Of all disk images that the commit passes through, those before the header write recover to the old image and those after it to the new one; at the end the log is empty and each block of the group has lost the pin that log_write gave it |
| `LogDriver.Log.RecoverFromLog` | xv6-labs-2022/kernel/log.c:116-123 | Every disk image during recovery recovers to the same image, and at the end the home blocks are that image |
| `LogDriver.Log.LogWrite` | xv6-labs-2022/kernel/log.c:214-235 | A block is appended and pinned once, or absorbed; the pins stay exactly the listed blocks; the panics occur exactly on a full log or outside a transaction |
| `LogDriver.Log.constructor` | xv6-labs-2022/kernel/log.c:53-65 | initlog on a disk left by any crash: the home blocks become the recovered image, the log is empty, and a crash on the way recovers to the same image |
| `BufferCache.Unlinked` | xv6-labs-2022/kernel/bio.c:116-137 | The two pointer stores that unlink a buffer leave a circular doubly linked list of the others |
| `BufferCache.Pushed` | xv6-labs-2022/kernel/bio.c:116-137 | The four pointer stores behind the head leave a circular doubly linked list with the buffer in front |
| `BufferCache.MovedPermutes` | xv6-labs-2022/kernel/bio.c:116-137 | Moving a buffer to the front permutes the list: the same buffers, each as often |
| `BufferCache.MovedByRelease` | xv6-labs-2022/kernel/bio.c:116-137 | After the move the list is still ordered from the latest release to the earliest |
| `BufferCache.Cache.constructor` | xv6-labs-2022/kernel/bio.c:36-53 | binit links all buffers into one circle, none referenced, none on a real device |
| `BufferCache.Cache.Bget` | xv6-labs-2022/kernel/bio.c:58-89 | Returns a buffer for (dev, blockno) if one is cached; else re-identifies the unreferenced buffer released longest ago; touches no other buffer and never a referenced one on a miss; panics exactly if all are referenced and the block is not cached; keeps at most one buffer per block |
| `BufferCache.Cache.FindCached` | xv6-labs-2022/kernel/bio.c:58-89 | The forward scan ends and finds the buffer exactly if one exists |
| `BufferCache.Cache.FindUnused` | xv6-labs-2022/kernel/bio.c:58-89 | The backward scan ends and finds the unreferenced buffer with the earliest release |
| `BufferCache.Cache.Brelse` | xv6-labs-2022/kernel/bio.c:116-137 | Takes one from the 32-bit reference count; when it reaches 0 the buffer becomes the most recently released; the list stays a circular permutation of all buffers |
| `BufferCache.Cache.Bpin` | xv6-labs-2022/kernel/bio.c:139-151 | Adds one to the 32-bit reference count and changes nothing else |
| `BufferCache.Cache.Bunpin` | xv6-labs-2022/kernel/bio.c:139-151 | Takes one from the 32-bit reference count and changes nothing else |
| `CacheRefinement.Regiven` | xv6-labs-2022/kernel/bio.c:58-89 | Giving a buffer to a block drops the block it held from the cached blocks of the device and adds the new one |
| `CacheRefinement.Get` | xv6-labs-2022/kernel/bio.c:58-89 | On the blocks of one device bget is the protocol's Get, after an Evict of a block without references where it recycles one; it panics only if every cached block is referenced |
| `CacheRefinement.Unref` | xv6-labs-2022/kernel/bio.c:116-137 | On the blocks of one device brelse is the protocol's Unref, with 32-bit counts |
| `CacheRefinement.Pin` | xv6-labs-2022/kernel/bio.c:139-151 | bpin is the reference that log_write takes when it appends the block, with 32-bit counts |
| `CacheRefinement.Unpin` | xv6-labs-2022/kernel/bio.c:139-151 | bunpin is the reference that install_trans gives back, with 32-bit counts |
| `FreeList.InsertOk` | xv6-labs-2022/user/umalloc.c:24-44 | Freeing a block keeps the list address-ordered and fully coalesced and adds exactly the block's units |
| `FreeList.TakeOk` | xv6-labs-2022/user/umalloc.c:63-90 | Allocating from a block keeps the list ordered and coalesced and removes exactly the units handed out |
| `FreeList.Canonical` | xv6-labs-2022/user/umalloc.c:24-44 | A fully coalesced address-ordered list is determined by the units it owns |
| `Umalloc.SearchStep` | xv6-labs-2022/user/umalloc.c:24-44 | The two stopping tests of the search in free succeed exactly at the place where the block belongs |
| `Umalloc.FreeStep` | xv6-labs-2022/user/umalloc.c:24-44 | free of a live block keeps the heap partitioned into free and live units, and the live blocks' headers |
| `Umalloc.UnlinkStep` | xv6-labs-2022/user/umalloc.c:63-90 | malloc of a whole block keeps that partition |
| `Umalloc.CutStep` | xv6-labs-2022/user/umalloc.c:63-90 | malloc of the tail of a block keeps that partition |
| `Umalloc.GrowStep` | xv6-labs-2022/user/umalloc.c:46-61 | A region from sbrk extends the partition by exactly its units |
| `Umalloc.RegionsApart` | xv6-labs-2022/user/umalloc.c:46-61 | Regions that sbrk gave to different calls of morecore have no unit in common, so the units obtained are counted once |
| `Umalloc.GarbledExactly` | xv6-labs-2022/user/umalloc.c:46-61 | The int argument of sbrk is the number of bytes that malloc needs if and only if the request is at most 0x7FFFFFE0 bytes |
| `Umalloc.GarbledRequests` | xv6-labs-2022/user/umalloc.c:46-61 | Larger requests: one for which sbrk is told to shrink the heap by 2^31 bytes, and one for which it is asked for nothing |
| `Umalloc.UnitsFor` | xv6-labs-2022/user/umalloc.c:63-90 | The number of header units covers the request plus one header |
| `Umalloc.Allocator.FindPlace` | xv6-labs-2022/user/umalloc.c:24-44 | The search of free terminates at the node after which the block belongs |
| `Umalloc.Allocator.Splice` | xv6-labs-2022/user/umalloc.c:24-44 | The stores of free link the block in and merge it with adjacent neighbours on both sides |
| `Umalloc.Allocator.Free` | xv6-labs-2022/user/umalloc.c:24-44 | The block leaves the live set, its units join the free list, everything stays circular, ordered, coalesced and disjoint |
| `Umalloc.Allocator.Morecore` | xv6-labs-2022/user/umalloc.c:46-61 | Asks sbrk exactly once, for at least 4096 units; fails exactly if sbrk fails; otherwise the free units grow by exactly the region that sbrk gave and some free block is large enough |
| `Umalloc.Allocator.Search` | xv6-labs-2022/user/umalloc.c:63-90 | One turn around the circle finds a block that is large enough or proves there is none |
| `Umalloc.Allocator.Malloc` | xv6-labs-2022/user/umalloc.c:63-90 | For every request: returns a fresh live block of the requested units disjoint from all others; asks sbrk at most once and only if no free block is large enough; fails exactly if that call fails; comes to a garbled call exactly if no free block is large enough and the byte count does not fit an int |
| `Umalloc.Allocator.TakeBlock` | xv6-labs-2022/user/umalloc.c:63-90 | Hands out all of a block or its tail and keeps the rest linked |
| `Grep.MatchHere` | xv6-labs-2022/user/grep.c:85-96 | Terminates and returns 1 exactly when a prefix of the text is in the language of the pattern |
| `Grep.MatchStar` | xv6-labs-2022/user/grep.c:99-106 | Terminates and returns 1 exactly when some number of repetitions followed by the rest matches a prefix |
| `Grep.Match` | xv6-labs-2022/user/grep.c:72-82 | Returns 1 exactly when the text contains a match in the declarative language of the pattern |
| `Grep.PrintedIsSelected` | xv6-labs-2022/user/grep.c:11-35 | The lines printed one by one are the lines that the whole input selects |
| `Grep.SelectedLines` | xv6-labs-2022/user/grep.c:11-35 | What an input of short NUL-free lines and a place where grep gets stuck selects is the concatenation of its matching lines, each with its newline |
| `Grep.Decomposes` | xv6-labs-2022/user/grep.c:11-35 | Every input is such lines followed by such a place: no further newline, a NUL, or a line that does not fit in 1023 bytes |
| `Grep.PrintLines` | xv6-labs-2022/user/grep.c:11-35 | The in-place line loop prints exactly the matching complete lines of the buffer and finds where the unfinished one starts |
| `Grep.Grep` | xv6-labs-2022/user/grep.c:11-35 | For every input and every way read splits it, the output is what the input as a whole selects |
| `Pipe.KeepsData` | xv6-labs-2022/kernel/pipe.c:76-130 | Every step keeps the ring equal to the bytes enqueued and not yet dequeued, with 32-bit counters that wrap |
| `Pipe.KeepsSleep` | xv6-labs-2022/kernel/pipe.c:58-130 | Every step but the kill of a writer that has enqueued keeps sleepers justified |
| `Pipe.Fifo` | xv6-labs-2022/kernel/pipe.c:76-130 | In every run the bytes dequeued are a prefix of the bytes enqueued and occupancy is at most 512 |
| `Pipe.NoLostWakeup` | xv6-labs-2022/kernel/pipe.c:58-130 | While the lock is free no reader sleeps on a non-empty or write-closed pipe and no writer on one with room or with its read end closed, up to a stranding step |
| `Pipe.StrandedReader` | xv6-labs-2022/kernel/pipe.c:76-103 | A stranding step (a killed writer leaves after enqueuing, with a reader asleep) does leave a reader asleep next to data: the condition is exact |
| `Pipe.UnkilledNeverStrands` | xv6-labs-2022/kernel/pipe.c:76-103 | Runs without kill have no stranding step |
| `Pipe.KillStrandsReader` | xv6-labs-2022/kernel/pipe.c:76-103 | A run that strands a reader exists |
| `Virtio.FirstFree` | xv6-labs-2022/kernel/virtio_disk.c:156-166 | The lowest free descriptor, or none is free |
| `Virtio.Alloc3` | xv6-labs-2022/kernel/virtio_disk.c:201-213 | The three lowest free descriptors; none exactly if no three are free |
| `Virtio.Disk.AllocDesc` | xv6-labs-2022/kernel/virtio_disk.c:156-166 | Takes exactly the lowest free descriptor |
| `Virtio.Disk.FreeDesc` | xv6-labs-2022/kernel/virtio_disk.c:169-182 | Frees and blanks one descriptor, or panics exactly on a free or out-of-range one |
| `Virtio.Disk.FreeChain` | xv6-labs-2022/kernel/virtio_disk.c:185-197 | Terminates on every table and frees exactly the descriptors along the next links |
| `Virtio.Disk.Alloc3Desc` | xv6-labs-2022/kernel/virtio_disk.c:201-213 | Takes three descriptors, or gives back what it took and leaves the table as it was |
| `Virtio.Disk.constructor` | xv6-labs-2022/kernel/virtio_disk.c:144-146 | At boot every descriptor is free and blank |
| `Virtio.ChainFreed` | xv6-labs-2022/kernel/virtio_disk.c:185-197 | For a request in flight free_chain releases exactly its three descriptors without a panic |
| `Virtio.Keeps` | xv6-labs-2022/kernel/virtio_disk.c:215-327 | Every step of a driver, the interrupt handler or the device keeps the whole invariant, except that the driver panics exactly when it sees a completion that reports a failure |
| `Virtio.DescriptorOwnership` | xv6-labs-2022/kernel/virtio_disk.c:215-292 | At every point of every run each descriptor is free or in the three-descriptor chain of exactly one request |
| `Virtio.PanicsExactly` | xv6-labs-2022/kernel/virtio_disk.c:294-327 | In every run, whatever statuses the device reports, the one panic that is reached is that of the interrupt handler, exactly when the oldest completion it has not seen reports a failure |
| `Virtio.CompletesOnce` | xv6-labs-2022/kernel/virtio_disk.c:294-327 | No submission completes twice; each interrupt iteration retires the oldest unseen completion and, unless it panics, clears that request's own buffer only; a driver frees its chain only after that |
| `Virtio.NeverLost` | xv6-labs-2022/kernel/virtio_disk.c:215-327 | At every point each submission has completed or is still queued or with the device |
| `Virtio.WrapIsHarmless` | xv6-labs-2022/kernel/virtio_disk.c:294-327 | Comparing the 16-bit indices tells exactly whether entries are pending, and never more than eight are |
| `ProcLife.Keeps` | xv6-labs-2022/kernel/proc.c:285-623 | Every lock-level step of scheduler, yield, sleep, wakeup, kill, fork, wait and exit keeps the whole invariant |
| `ProcLife.ReapIsSafe` | xv6-labs-2022/kernel/proc.c:401-451 | Whenever wait frees a slot it is a zombie child of the caller, on no CPU, and its pid was never reaped before |
| `ProcLife.ReapedOnce` | xv6-labs-2022/kernel/proc.c:401-451 | No pid is reaped twice and only exited ones are reaped |
| `ProcLife.ParentsLive` | xv6-labs-2022/kernel/proc.c:339-397 | At every point a recorded parent is RUNNABLE, RUNNING or SLEEPING, and every live or zombie process but init has one |
| `ProcLife.NoMissedExit` | xv6-labs-2022/kernel/proc.c:401-451 | While wait_lock is free nobody sleeps in wait with a ZOMBIE child |
| `ProcLife.SchedIsSafe` | xv6-labs-2022/kernel/proc.c:499-516 | A thread about to switch holds its own lock, no other process's lock and not wait_lock, and is not RUNNING: sched cannot panic |
| `ProcLife.OneCpu` | xv6-labs-2022/kernel/proc.c:460-490 | No process is on two CPUs, and a RUNNING one is on one |
| `ProcLife.WokenUp` | xv6-labs-2022/kernel/proc.c:581-597 | After wakeup has passed a slot, that process does not sleep in wait on that channel |
| `PageTable.SetLeafOk` | xv6-labs-2022/kernel/vm.c:142-192 | Writing one leaf entry changes exactly that translation and keeps the tree |
| `PageTable.AddTableOk` | xv6-labs-2022/kernel/vm.c:85-103 | Hanging a zeroed page into an empty entry changes no translation and keeps the table pages a tree disjoint from leaf frames |
| `Vm.LookUp` | xv6-labs-2022/kernel/vm.c:85-103 | The entry that a walk arrives at is the translation of the page |
| `Vm.MappedAt` | xv6-labs-2022/kernel/vm.c:142-165 | The mapped range changes exactly its own pages |
| `Vm.CutAt` | xv6-labs-2022/kernel/vm.c:170-192 | The unmapped range loses exactly its own pages, and no frame that backs another page |
| `Vm.CutBack` | xv6-labs-2022/kernel/vm.c:225-249 | Taking a fresh range out again restores translation and frames |
| `Vm.Kernel.Kalloc` | xv6-labs-2022/kernel/kalloc.c:67-81 | Takes the head of the free list, or fails exactly when it is empty |
| `Vm.Kernel.Kfree` | xv6-labs-2022/kernel/kalloc.c:46-62 | Puts the page at the head of the free list, which then still lists every free page once if and only if the page was not free already |
| `Vm.FreedOnce` | xv6-labs-2022/kernel/kalloc.c:46-62 | A page in front of a duplicate-free list leaves it duplicate-free if and only if it was not on it |
| `Vm.Kernel.constructor` | xv6-labs-2022/kernel/kalloc.c:28-41 | kinit frees exactly the whole pages within the given addresses, each once, and changes no other page |
| `Vm.Kernel.Walk` | xv6-labs-2022/kernel/vm.c:85-103 | Finds the table page of an address; allocating changes no translation, takes pages only from the pool, and fails only when it is empty |
| `Vm.Kernel.WalkAddr` | xv6-labs-2022/kernel/vm.c:108-126 | Exactly the user part of the translation, 0 elsewhere and beyond MAXVA |
| `Vm.Kernel.MapPages` | xv6-labs-2022/kernel/vm.c:142-165 | Adds exactly the requested range; on failure a prefix of it, with the pool empty |
| `Vm.Kernel.UvmUnmap` | xv6-labs-2022/kernel/vm.c:170-192 | Removes exactly the requested range and returns exactly its frames |
| `Vm.Kernel.UvmDealloc` | xv6-labs-2022/kernel/vm.c:255-267 | Removes exactly the pages between the rounded sizes |
| `Vm.Kernel.UvmAlloc` | xv6-labs-2022/kernel/vm.c:225-249 | Adds zeroed pages with the right flags on fresh frames for the whole range; or, exactly if kalloc ran out, restores the old leaves and frames |
| `Vm.Kernel.UvmCopy` | xv6-labs-2022/kernel/vm.c:305-333 | The child gets equal contents and flags on frames of its own; or, exactly if kalloc ran out, no page; the parent is unchanged; no page is lost |
| `FreeWalk.Freewalk` | xv6-labs-2022/kernel/vm.c:271-287 | Frees exactly the table pages of the subtree and never meets a leaf |
| `AddressSpace.UvmCreate` | xv6-labs-2022/kernel/vm.c:196-205 | An empty table from one page of the pool, or none exactly if kalloc ran out |
| `AddressSpace.UvmFree` | xv6-labs-2022/kernel/vm.c:291-297 | Returns every user frame and table page to the pool |
| `AddressSpace.ProcPagetable` | xv6-labs-2022/kernel/proc.c:180-212 | A table with trampoline and trapframe; or, exactly if kalloc ran out, nothing taken |
| `AddressSpace.ProcFreepagetable` | xv6-labs-2022/kernel/proc.c:216-221 | Returns every table page and user frame to the pool and changes nothing else |
| `AddressSpace.GrowProc` | xv6-labs-2022/kernel/proc.c:262-281 | Fails exactly if kalloc ran out, which comes before a growth can reach the trapframe; else the size changes by n, except that a shrink below zero changes nothing; pages that stay keep contents and flags and new ones are zero; pages move only between the space and the pool and no other page changes |
| `AddressSpace.Crowded` | xv6-labs-2022/kernel/vm.c:225-249 | An address space never has more pages than the machine, each being on a frame of its own |
| `AddressSpace.ResizeProc` | xv6-labs-2022/kernel/proc.c:262-281 | The same for a process with its trapframe: it stays intact, and every page is still held by it or free |
| `AddressSpace.AllocProc` | xv6-labs-2022/kernel/proc.c:107-154 | A trapframe page as kalloc filled it and a table with the two system pages; or, exactly if kalloc ran out, nothing taken |
| `AddressSpace.FreeProc` | xv6-labs-2022/kernel/proc.c:159-176 | Trapframe, table pages and user frames all return to the pool, and nothing else changes |
| `AddressSpace.ForkProc` | xv6-labs-2022/kernel/proc.c:285-335 | A child with the parent's contents, flags and saved registers, but 0 in a0, on pages of its own, and the rest of its trapframe page as kalloc filled it; or, exactly if kalloc ran out, nothing taken; no other page changes |
| `AddressSpace.Bystander` | xv6-labs-2022/kernel/proc.c:262-335 | A process is not affected by changes to pages of others and of the pool |
| `Spaces.WorldKept` | xv6-labs-2022/kernel/proc.c:107-335 | Pages that move between one process and the pool keep all pages divided between the pool and the processes, each process intact, and every page of the others unchanged |
| `Spaces.System.FindSlot` | xv6-labs-2022/kernel/proc.c:107-154 | The first unused slot, or none |
| `Spaces.System.Spawn` | xv6-labs-2022/kernel/proc.c:107-154 | A new process without user memory in the first unused slot; or, exactly without a slot or if kalloc ran out, nothing; no other process changes |
| `Spaces.System.Fork` | xv6-labs-2022/kernel/proc.c:285-335 | A child equal to its parent on pages of its own in the first unused slot; or, exactly without a slot or if kalloc ran out, nothing; no other process, not even the parent, changes a page |
| `Spaces.System.Sbrk` | xv6-labs-2022/kernel/sysproc.c:39-50 | Returns the old size, or -1 exactly if kalloc ran out; the pages that stay keep their contents and new ones are zero; no other process changes a page |
| `Spaces.System.Reap` | xv6-labs-2022/kernel/proc.c:159-176 | The slot is unused again, exactly the process's pages are back in the pool, and no other process changes a page |
| `Spaces.System.Run` | xv6-labs-2022/kernel/proc.c:107-335 | For every sequence of spawns, sbrks, forks and reaps by any processes, wherever an allocation fails: each operation does what its contract says from one state to the next, in each state the pool and the processes together hold the initial pages, each once, and when all processes are gone the pool is what it was |
| `Inodes.WordPut` | xv6-labs-2022/kernel/fs.c:382-421 | Little-endian entries of the indirect block are stored without disturbing their neighbours |
| `Inodes.Distinct` | xv6-labs-2022/kernel/fs.c:382-421 | All nonzero direct, indirect and entry block numbers over all inodes are distinct, in the data area and marked used |
| `Inodes.AttachKeeps` | xv6-labs-2022/kernel/fs.c:382-421 | Entering a fresh block in any slot keeps block ownership |
| `Inodes.AllocContent` | xv6-labs-2022/kernel/fs.c:382-421 | Allocation changes the content of no file |
| `Inodes.PatchKeeps` | xv6-labs-2022/kernel/fs.c:505-539 | Storing into a data block keeps block ownership |
| `Inodes.WroteContent` | xv6-labs-2022/kernel/fs.c:505-539 | After a write of which k bytes count and got bytes were stored, the file is the old byte string with the stored range replaced or extended up to the k-th byte, and every other file is unchanged |
| `Inodes.WriteThenRead` | xv6-labs-2022/kernel/fs.c:471-539 | Reading the written range back gives it, and the old bytes elsewhere |
| `FileSystem.Files.Balloc` | xv6-labs-2022/kernel/fs.c:65-88 | Marks and zeroes the lowest free block, or the disk is full |
| `FileSystem.Files.Bfree` | xv6-labs-2022/kernel/fs.c:91-105 | Clears exactly one mark and logs its bitmap block |
| `FileSystem.Files.Bmap` | xv6-labs-2022/kernel/fs.c:382-421 | The number of a file's block, direct or indirect, allocated if need be; keeps ownership and all contents, also when it fails midway; 0 only on a full disk |
| `FileSystem.Files.Iupdate` | xv6-labs-2022/kernel/fs.c:225-241 | The inode's on-disk copy becomes the in-memory one |
| `FileSystem.Files.Readi` | xv6-labs-2022/kernel/fs.c:471-496 | Returns exactly the content from off on, clipped to the size, or -1 with as much of it as could be copied out; changes nothing |
| `FileSystem.Files.Writei` | xv6-labs-2022/kernel/fs.c:505-539 | Refuses exactly the bad ranges; otherwise stores all of the data unless it comes to a missing block on a full disk or to memory that cannot be copied in; every other file is unchanged; no hole appears; the inode goes to disk and its block is logged; every other block changed is passed to log_write, but for one that a failed copy leaves half written, and how many those can be is bounded |
| `FileSystem.Files.Itrunc` | xv6-labs-2022/kernel/fs.c:425-453 | Clears exactly the marks of the inode's own blocks, never frees a free block, leaves every other file unchanged, and logs exactly the bitmap blocks of those blocks and the block of the inode |
| `FileSystem.TruncReservation` | xv6-labs-2022/kernel/fs.c:425-453 | itrunc keeps to MAXOPBLOCKS logged blocks on every disk of a layout if and only if the bitmap of its data area takes fewer than MAXOPBLOCKS blocks |
| `FileSystem.ChunkFits` | xv6-labs-2022/kernel/file.c:149-175 | Data, bitmap, indirect and inode blocks of a chunk at any offset are at most MAXOPBLOCKS |
| `FileSystem.FileWrite` | xv6-labs-2022/kernel/file.c:134-181 | Writes at the file offset and moves it by the bytes written; returns -1 exactly on a short write, which has one of three exact reasons; the transactions that it adds to the history lead from the old disk and inodes to the new ones, each changes only blocks that it logs (the last may leave one half written), and none logs more than MAXOPBLOCKS distinct blocks; the inode on disk is the new one unless the first chunk is refused |
| `Links.Find` | xv6-labs-2022/kernel/fs.c:551-575 | The first used entry with the name, or none |
| `Links.Gap` | xv6-labs-2022/kernel/fs.c:579-606 | The first unused entry, or none |
| `Links.LinkedCount` | xv6-labs-2022/kernel/fs.c:579-606 | A new entry adds one to the count of what it names and nothing to any other |
| `Links.PutKeeps` | xv6-labs-2022/kernel/fs.c:336-362 | iput, freeing an inode without links, keeps all counts |
| `Links.EmptyHasOne` | xv6-labs-2022/kernel/sysfile.c:188-243 | An empty directory has exactly one link |
| `Links.LinkKeeps` | xv6-labs-2022/kernel/sysfile.c:123-170 | sys_link of an allocated inode keeps all counts on every exit, unless it enters a name in a directory without links |
| `Links.UnlinkKeeps` | xv6-labs-2022/kernel/sysfile.c:188-243 | sys_unlink keeps all counts on every exit and never panics |
| `Links.CreateKeeps` | xv6-labs-2022/kernel/sysfile.c:245-302 | create keeps all counts on every exit, unless it enters a name in a directory without links or meets a freed inode |
| `Links.EntryToFree` | xv6-labs-2022/kernel/sysfile.c:245-302 | A lookup leads from a directory to a free inode exactly if the name is the .. of a directory without links whose parent has been freed |
| `Links.KeepsExactly` | xv6-labs-2022/kernel/sysfile.c:123-302 | An operation panics if and only if it locks a freed inode, which create does exactly for the .. of an orphaned directory; otherwise it keeps every nlink equal to the number of entries in live directories, not counting ., if and only if it does not enter a name in a directory whose nlink is 0 |
| `Links.LinkCounts` | xv6-labs-2022/kernel/sysfile.c:123-302 | In every run the counts hold up to the first operation that enters a name in a directory without links, which upsets one; no operation panics but those that meet a freed inode, so unlink never does |
| `Links.DeadDirectoryRun` | xv6-labs-2022/kernel/sysfile.c:245-302 | A run of five calls that ends with a wrong link count |
| `Links.FreedParentRun` | xv6-labs-2022/kernel/sysfile.c:245-302 | A run of five calls after which open of .. with O_CREATE panics in ilock |
| `Links.WalkMeets` | xv6-labs-2022/kernel/fs.c:651-684 | Resolving a path meets a freed inode exactly if somewhere it goes up from an orphaned directory |
| `Links.RunWalks` | xv6-labs-2022/kernel/fs.c:651-684 | The same in every run, up to the first name entered in a directory without links |
| `Links.Namespace.Namex` | xv6-labs-2022/kernel/fs.c:651-684 | The loop resolves the path, to the last name or to its parent, or panics |
| `Links.Namespace.Dirlookup` | xv6-labs-2022/kernel/fs.c:551-575 | The scan returns the first match |
| `Links.Namespace.Dirlink` | xv6-labs-2022/kernel/fs.c:579-606 | Fails exactly on a present name or without room; otherwise fills the first gap or appends |
| `Links.Namespace.IsDirEmpty` | xv6-labs-2022/kernel/sysfile.c:172-186 | True exactly when no entry past the first two is used |
| `Links.Namespace.Iput` | xv6-labs-2022/kernel/fs.c:336-362 | Frees the inode exactly when nothing refers to it and it has no links |
| `Links.Namespace.Ialloc` | xv6-labs-2022/kernel/fs.c:198-219 | Takes the first free inode |
| `Links.Namespace.SysLink` | xv6-labs-2022/kernel/sysfile.c:123-170 | Step by step has the effect that the link lemmas are about, with the same return value or panic |
| `Links.Namespace.SysUnlink` | xv6-labs-2022/kernel/sysfile.c:188-243 | Step by step has the effect that the unlink lemmas are about, with the same return value or panic |
| `Links.Namespace.Create` | xv6-labs-2022/kernel/sysfile.c:245-302 | Step by step has the effect that the create lemmas are about, with the same outcome or panic |
| `Shell.GetToken` | xv6-labs-2022/user/sh.c:266-309 | A token within the input, non-empty unless at the end |
| `Shell.ParseRedirs` | xv6-labs-2022/user/sh.c:375-398 | Terminates and never moves backwards |
| `Shell.ParseArgs` | xv6-labs-2022/user/sh.c:416-447 | Terminates and never moves backwards |
| `Shell.ParseExec` | xv6-labs-2022/user/sh.c:416-447 | Terminates and never moves backwards |
| `Shell.ParseBlock` | xv6-labs-2022/user/sh.c:400-414 | Terminates and never moves backwards |
| `Shell.ParsePipe` | xv6-labs-2022/user/sh.c:362-373 | Terminates and never moves backwards |
| `Shell.ParseLine` | xv6-labs-2022/user/sh.c:345-360 | Terminates and never moves backwards |
| `Shell.LineWords` | xv6-labs-2022/user/sh.c:345-360 | Every word a parsed command refers to is a whole word of the input |
| `Shell.WordsTerminated` | xv6-labs-2022/user/sh.c:450-494 | After nulterminate the C string at each word is exactly that word |
| `Shell.RoundTrip` | xv6-labs-2022/user/sh.c:328-343 | Parsing the fully parenthesised printing of any command with valid words and at most nine arguments gives the same command |
| `Shell.NextToken` | xv6-labs-2022/user/sh.c:266-309 | The tokenizer's loops compute the token |
| `Shell.RedirLoop` | xv6-labs-2022/user/sh.c:375-398 | The loop collects the redirections in order |
| `Shell.ArgLoop` | xv6-labs-2022/user/sh.c:416-447 | The loop collects arguments and redirections in order and panics exactly at ten arguments, a stray symbol or a missing file |
| `Shell.BackLoop` | xv6-labs-2022/user/sh.c:345-360 | The loop wraps one background command per '&' |
| `Shell.NulTerminate` | xv6-labs-2022/user/sh.c:450-494 | The in-place stores give the terminated buffer |

## Left out

- Assembly, trap entry, CSR access, PLIC, UART, timer and boot code; `swtch` is a control transfer and
  device registers are steps of the environment.
- Spinlock and sleep lock internals and memory fences.
- Liveness: that a sleeper which may go on is eventually scheduled.
- `copyout`, `copyin` and `copyinstr`, `either_copyin` and `either_copyout`: how far a copy between user and
  kernel memory gets is a parameter of `readi`, `writei` and `filewrite`, and both outcomes are steps of `wait`
  and of the pipe.
- `exec`: it builds a second address space with `uvmalloc`, fills it from the file and frees the old one.
- The system call layer and `skipelem`: a path is a list of names.
- `iget`, `ilock` and the inode cache: an inode is its in-memory copy, and `Iupdate` the write to disk.
- The bits inside bitmap bytes: the bitmap is one truth value per block, kept in bitmap blocks of 8192.
- Directory entries as bytes: `Links` keeps entries as records with names already cut to DIRSIZ.
- `freemem` (which counts the free list), `uvmfirst` (which maps one page of initial code), `uvmclear` (which takes
  one page from the user) and the kernel page table.
- `console`, `printf`, `ramdisk`, `mkfs` host I/O, the trace mask and the other user programs.
- The 32-bit wrap of `nextpid` and the 16-bit wrap of `nlink`.
- `kill` by pid: a step may mark any slot whose lock is free, which allows more runs than the source.
- LogDriver.Log.LogWrite: models one thread; its interleaving with others is in `LogProtocol`.
- BufferCache.Cache.Bget: does not model sleep locks and buffer data, which are in `LogProtocol`.
- CacheRefinement.Get: leaves out block 0 of device 0, as which binit leaves all unused buffers, and needs fewer than
  2^32 references to a block.
- CacheRefinement.Unref: leaves out block 0 of device 0.
- CacheRefinement.Pin: leaves out block 0 of device 0.
- CacheRefinement.Unpin: leaves out block 0 of device 0.
- Umalloc.Allocator.Malloc: ends where it would call sbrk with an argument that does not fit an int; assumes that
  `base` lies below the heap and that the heap has fewer than 2^32 units; sbrk may leave gaps.
- Virtio.Keeps: waiting for free descriptors is the step not being enabled; after its panic the driver takes no
  further step.
- Vm.Kernel.Kfree: asks for a page of the memory, since the others panic.
- Vm.Kernel.MapPages: asks for a non-empty unmapped range below MAXVA, since the other cases panic, and for
  permissions among the ten flag bits.
- Vm.Kernel.UvmAlloc: asks for a range below the trapframe, since mapping over it panics.
- Links.Namespace.Iput: does not model `valid`; in these calls every iput follows an ilock of the same inode,
  which sets it.
- Links.KeepsExactly: a system call is one step, so interleavings of the inode locks of two calls are not modelled.
- Shell.RoundTrip: is about commands as the parser builds them, not about running them.
