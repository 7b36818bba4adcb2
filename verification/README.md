# ginnOS in Dafny

A model of the hard core of the ginnOS kernel, with its properties stated and proved for
every input, every reachable state or every run. `dafny verify dfyconfig.toml` covers all
modules.

Code that works in place is modelled in place: frame bitmaps, page tables, heap memory,
linked queues, scratch buffers and the path output buffer are arrays and objects with
`modifies` clauses, each tied to a value (a set of free frames, a list of blocks, a
sequence of processes, a byte map, a name map), and the properties are proved of that value.

**Path normalisation** (`path.dfy`). The in-place buffer algorithm against a stack of
components; text and stack are inverse to each other, the normal form is idempotent and
leads wherever the path leads in every tree, and success is characterised exactly.

**Memory** (`bits.dfy`, `pmm.dfy`, `paging.dfy`, `mmu.dfy`, `words.dfy`, `heap.dfy`,
`heap_memory.dfy`, `kheap.dfy`). The next-fit frame allocator refines a set of free frames.
Page tables carry a role for every frame in use (kernel, directory, table, page); from it
follow isolation of frames and access rights over whole runs and conservation of frames through teardown. The kernel
heap keeps its block list as headers inside the very memory it hands out; the list tiles
the heap, live blocks are disjoint and keep their bytes.

**Processes and pipes** (`sched.dfy`, `ready_queue.dfy`, `wait_queue.dfy`, `kernel.dfy`,
`kernel_ops.dfy`, `kernel_calls.dfy`, `kernel_runs.dfy`, `kernel_wakes.dfy`,
`kernel_effects.dfy`, `kernel_places.dfy`, `kernel_waiting.dfy`, `kernel_flow.dfy`,
`kernel_stuck.dfy`, `kernel_early.dfy`, `kernel_streams.dfy`, `kernel_machine.dfy`, `ring.dfy`). A step protocol: each system call is
a sequence of segments, each segment runs up to its own block, yield or return, and timer
ticks fall between segments. `KernelInv` says that each process is in exactly one place, that
the reference counts of every pipe equal the descriptor slots that refer to it, that a parent
in waitpid waits for a live child of its own, and that delivered bytes followed by buffered
bytes are the accepted bytes. It holds at the end of a run from boot if and only if no process
had to wait before the first child was started; a process that does then keeps the processor
for ever. `KernelEffects` states what each event returns and leaves, without the functions
that compute it. `Machine` is the imperative form: every event, from a timer
tick to a resumed read, is done by a method over process table, queues and pipe rings and
proved equal to the step function, and so is every run.

**ext2** (`ext2_*.dfy`). The disk is a sequence of bytes reached through 512-byte sectors,
the volume an object with the scratch buffers of the driver. Regions of the disk
(superblock, descriptors, bitmaps, inode records, data blocks) are apart; bitmaps and
counts agree; every block a file refers to is allocated, referred to once and not metadata.
On top of that files are byte maps and directories name maps, and each operation changes
one of them in one place: `ext2_life.dfy` and `ext2_dirlife.dfy` create and remove files and
directories, `ext2_move.dfy` renames them, and `ext2_reach.dfy` says which directories can
then be reached from the root.

## What turned out false, and its exact condition

- A pipe can get stuck with several sleepers on one end, because a write or read wakes one
  process only: `FilledFlows` and `DrainedFlows` give the exact condition, at most one
  sleeper, `TwoReadersStick` the family of failures and `TwoReadersStuck` a run from boot.
- A process table entry can be in no place: process_create returns without memory and leaves the
  entry READY, in no queue. `PlacesExactly` says that these entries, and no others, are nowhere,
  `TableLeft` that each shortens the table for good, and `StrandedExample` gives a run from boot.
- A process can be in two places: before the first scheduler_ready a yield does nothing, so a
  process that waits is on the processor and in a wait queue at once, and its waiting loop never
  ends. `InvExactly` says that the kernel invariant holds in a run if and only if this does not
  happen, and `EarlyExample` gives a run from boot.
- A shrinking krealloc can leave two neighbouring free blocks: `ShrinkCoalesced` says exactly
  when, and `ShrinkExample` shows it in a fresh heap.
- paging_map_in without the user flag writes through a shared kernel table:
  `KernelFlagIsolation` says exactly when that stays inside the directory, and
  `KernelFlagEscapes` shows a mapping that does not. It also enters a table it makes like a
  kernel table, which teardown never hands back: `KernelFlagConserves` says which frames are lost.
- alloc_inode skips reserved inodes in the first group only: `ReservedInLaterGroups` says for
  which volumes that is not enough, and `ReservedExample` names one.
- The comment on paging_clone_directory in `src/arch/x86/cpu/paging.h` says entries 0 to 767
  start empty; the code copies all 1024 entries. `ClonedLow` says when the comment holds,
  exactly when the kernel directory has those entries empty, and `ClonedLowNot` shows that it may not.
- free_block and free_inode do not look whether the item is in use: `FreeBlock` and `FreeInode`
  keep the accounts if and only if it is, or the number is refused, and `FreeExample` frees a
  free block.
- A write that ends with NOSPC leaves the blocks it had assigned marked in the bitmap while
  the inode on disk does not refer to them: `WriteFile` gives the exact condition for NOSPC
  and the number of blocks taken, `LosesWhen` says that blocks are lost if and only if the write
  fails with an empty slot to fill and a free block to put there, and `LeakExample` shows one.
- ext2_rename can move a directory below itself, or make it its own parent, after which neither
  it nor anything below it can be reached: `RenameReach` says that all directories stay in reach
  if and only if the new parent is not the directory or below it, and which are lost otherwise;
  `BelowItself` shows it.
- A file or directory created and removed does not always leave the free space as it was:
  `CreateThenRemove` and `CreateThenRemoveDir` say that the free inodes are, and the free blocks
  if and only if a record of the parent had room for the name; `CreateExample` shows a volume that
  ends with a block less. The link count of the parent comes back unless it was 65535.

## Model

| member | source | states |
|---|---|---|
| `Path.ComponentsJoin` | src/kernel/vfs/vfs_path.c:15-118 | the slash-separated components of two paths joined by a slash are those of the first, then those of the second |
| `Path.RenderRoundTrip` | src/kernel/vfs/vfs_path.c:15-118 | the text written for a stack of names reads back as that stack |
| `Path.NormalOnlyNames` | src/kernel/vfs/vfs_path.c:15-118 | the normal form starts with a slash and has no empty, "." or ".." component |
| `Path.NormalIdempotent` | src/kernel/vfs/vfs_path.c:15-118 | normalising a normal form gives it back, and succeeds in any buffer the first call succeeded in |
| `Path.ParentLaw` | src/kernel/vfs/vfs_path.c:15-118 | the normal form of a path, a name and ".." is that of the path alone |
| `Path.RootLaw` | src/kernel/vfs/vfs_path.c:15-118 | a ".." at the root changes no normal form |
| `Path.DotLaw` | src/kernel/vfs/vfs_path.c:15-118 | a "." anywhere changes no normal form |
| `Path.SlashLaw` | src/kernel/vfs/vfs_path.c:15-118 | neither does a slash more |
| `Path.NormalLeadsThere` | src/kernel/vfs/vfs_path.c:15-118 | in every tree of directories, walked name by name with ".." going to the parent, a path that leads somewhere has a normal form that leads there |
| `Path.PopComponent` | src/kernel/vfs/vfs_path.c:70-85 | ".." leaves buffer, length and depth as those of the stack shorter by its last name, and of the empty stack at the root |
| `Path.PushComponent` | src/kernel/vfs/vfs_path.c:87-114 | a name is appended exactly when it fits buffer and component table; buffer, positions and depth then describe the longer stack |
| `Path.NormalizeAbsolute` | src/kernel/vfs/vfs_path.c:15-118 | succeeds exactly when every intermediate stack fits, and then leaves the normal form, NUL-terminated, without writing past the buffer |
| `Path.CombinedComponents` | src/kernel/vfs/vfs_path.c:174-214 | the scratch text built from working directory and input has the components of cwd, slash, input |
| `Path.Resolve` | src/kernel/vfs/vfs_path.c:120-228 | relative input resolves to the normal form of cwd, slash, input, absolute input to its own; success and failure exactly characterised |
| `Path.ResolveStable` | src/kernel/vfs/vfs_path.c:120-228 | a resolved path resolves to itself from any working directory |
| `Pmm.FrameAllocator.constructor` | src/kernel/memory/pmm.c:101-115 | the counter is the number of set bits, and the invariant tying bitmap, counter and free set holds |
| `Pmm.FrameAllocator.FindFree` | src/kernel/memory/pmm.c:119-138 | the wrap-around scan finds a frame if and only if one is free, and it is the first free one at or after the cursor, cyclically |
| `Pmm.FrameAllocator.AllocPage` | src/kernel/memory/pmm.c:119-138 | removes exactly that frame from the free set and moves the cursor behind it; 0 only when no frame is free |
| `Pmm.FrameAllocator.FreePage` | src/kernel/memory/pmm.c:140-163 | adds exactly the frame, or panics for exactly the unaligned, out-of-range or already free address and changes nothing |
| `Pmm.FrameAllocator.IsPageFree` | src/kernel/memory/pmm.c:196-204 | true if and only if the frame is in the free set |
| `Pmm.FrameAllocator.MarkPageUsed` | src/kernel/memory/pmm.c:206-218 | the free set loses the frame if it was there; counter and bitmap stay in step |
| `Pmm.FrameAllocator.MarkRegionUsed` | src/kernel/memory/pmm.c:180-194 | the free set loses exactly the frames of the region |
| `Paging.ClonedInv` | src/arch/x86/cpu/paging.c:253-273 | a clone keeps the invariant that every frame has one role and every role one frame; the new directory owns only its own frame |
| `Paging.ClonedTranslates` | src/arch/x86/cpu/paging.c:253-273 | a clone changes no translation, frame or flags, of any live directory or of the kernel, and starts with the kernel translations |
| `Paging.PrivatisedInvisible` | src/arch/x86/cpu/paging.c:326-370 | replacing a shared kernel table by a private copy changes the frame and the flags of no page anywhere |
| `Paging.MapIsolation` | src/arch/x86/cpu/paging.c:326-370 | mapping page v in directory D changes the frame and the flags of v in D only, for every live directory and the kernel, v gets exactly the frame and the flags given, and the frames of D and of the free set change by exactly the frames mapped and replaced |
| `Paging.Access` | src/arch/x86/cpu/paging.c:326-370 | in every state in order user code may read or write a page exactly if its table entry says so, the entry of the directory never standing in the way, and none through the kernel directory |
| `Paging.MapAccess` | src/arch/x86/cpu/paging.c:326-370 | a user mapping lets user code read that page, and write it exactly if the flags say so, and gives and takes no right to any other page of any directory |
| `Paging.KernelFlagIsolation` | src/arch/x86/cpu/paging.c:326-370 | a mapping without the user flag, through a table that is there or one made for it, is isolated if and only if the table is private or missing, or already holds the same entry; the page always gets its frame and flags |
| `Paging.KernelFlagEscapes` | src/arch/x86/cpu/paging.c:333-369 | a state in order in which mapping a page of a process without the user flag maps the page of the kernel too |
| `Paging.ReclaimsOwned` | src/arch/x86/cpu/paging.c:275-324 | what the teardown loops would hand back, read off memory, is exactly what the directory owns |
| `Paging.KernelFlagConserves` | src/arch/x86/cpu/paging.c:326-370 | what the allocator has or gets back loses exactly the table made for the mapping, or the page the private table had there: nothing is lost if and only if the table was there and held no page to hand back |
| `Paging.ClonedLow` | src/arch/x86/cpu/paging.c:253-273 | the lower 768 entries of a clone are empty if and only if those of the kernel directory are, and no entry of a clone lets user code in |
| `Paging.ClonedLowNot` | src/arch/x86/cpu/paging.c:253-273 | a state in order whose clone has a lower entry that is not empty |
| `Paging.TornDownInv` | src/arch/x86/cpu/paging.c:275-324 | freeing a directory keeps the invariant |
| `Paging.TornDownOwned` | src/arch/x86/cpu/paging.c:275-324 | freeing a directory leaves the frames of every other directory alone |
| `Paging.OpConserves` | src/arch/x86/cpu/paging.c:212-370 | every operation keeps the invariant and the pool of free, handed-out and mapped frames |
| `Paging.RunConserves` | src/arch/x86/cpu/paging.c:212-370 | so does every run of operations |
| `Paging.RunIsolation` | src/arch/x86/cpu/paging.c:212-370 | over every run of takes, clones, user mappings and frees, a page keeps its frame and its flags until that page is mapped or that directory freed |
| `Paging.TeardownConserves` | src/arch/x86/cpu/paging.c:275-324 | after any run that ends with no process directory and no frame in hand the free set and its size are those of the start |
| `Mmu.PageTables.GetPhysicalIn` | src/arch/x86/cpu/paging.c:212-232 | the two-level lookup in memory gives the address the translation function gives, or 0 |
| `Mmu.PageTables.CloneDirectory` | src/arch/x86/cpu/paging.c:253-273 | takes one free frame and makes it a copy of the kernel directory; 0 and no change when none is free |
| `Mmu.PageTables.MakePrivate` | src/arch/x86/cpu/paging.c:333-364 | fails exactly when the table is shared and no frame is free, then changing nothing; otherwise the table is private |
| `Mmu.PageTables.MapUser` | src/arch/x86/cpu/paging.c:326-370 | fails, changing nothing, exactly when a private table is needed and no frame is free; otherwise memory is that of the mapping step, which is isolated, gives the page the frame and the flags and accounts for every frame |
| `Mmu.PageTables.MapKernel` | src/arch/x86/cpu/paging.c:326-370 | fails, changing nothing, exactly when the table is missing and no frame is free; otherwise memory and free set are those of the kernel-flag mapping, isolated under exactly its condition |
| `Mmu.PageTables.FreeTable` | src/arch/x86/cpu/paging.c:300-319 | returns exactly the pages of one private table and the table; no double-free panic |
| `Mmu.PageTables.FreeDirectory` | src/arch/x86/cpu/paging.c:275-324 | returns exactly the frames the directory owns, never a shared or kernel frame nor one of another directory; the double-free and range panics are unreachable |
| `Heap.TiledDisjoint` | src/kernel/memory/heap.c:35-61 | blocks that tile the heap lie inside it and are pairwise disjoint |
| `Heap.AllocateEffect` | src/kernel/memory/heap.c:218-278 | allocating adds exactly one live block, large enough, at no live address, and keeps the tiling |
| `Heap.AllocateNumbers` | src/kernel/memory/heap.c:218-278 | the block handed out is the size asked for, rounded to four, if the fitting block leaves room for a header and 16 bytes more, and the whole block otherwise; free bytes fall and the number of blocks rises by just that |
| `Heap.ReleaseEffect` | src/kernel/memory/heap.c:382-437 | freeing removes exactly the given live block and keeps the tiling, through both coalescing passes |
| `KernelHeap.ReleaseNumbers` | src/kernel/memory/heap.c:382-437 | freeing gives back the size of the block, and a header for each free neighbour it is merged with, each of which is one block fewer |
| `Heap.ShrinkEffect` | src/kernel/memory/heap.c:321-334 | shrinking in place keeps the address and every other live block |
| `Heap.ShrinkNumbers` | src/kernel/memory/heap.c:321-334 | the block keeps exactly the size asked for if what is left makes a block, which becomes free, and otherwise its own |
| `Heap.GrowEffect` | src/kernel/memory/heap.c:336-358 | growing into the free neighbour keeps the address and every other live block |
| `Heap.GrowNumbers` | src/kernel/memory/heap.c:336-358 | the block becomes exactly the size asked for if what the free neighbour leaves makes a block, and both together otherwise; free bytes and number of blocks follow |
| `Heap.FirstFitLowest` | src/kernel/memory/heap.c:218-278 | the first fit is the fitting block of lowest address |
| `Heap.ExtendedFits` | src/kernel/memory/heap.c:144-194 | after an expansion for n bytes the second search succeeds |
| `Heap.ExtendNumbers` | src/kernel/memory/heap.c:144-194 | an expansion adds the fewest pages that hold the request and its header, but four at least: as a block of their own, or to the last block if that is free |
| `Heap.AllocateCoalesced` | src/kernel/memory/heap.c:218-278 | allocation keeps free blocks apart |
| `Heap.ReleaseCoalesced` | src/kernel/memory/heap.c:382-437 | freeing keeps free blocks apart |
| `Heap.GrowCoalesced` | src/kernel/memory/heap.c:336-358 | growing in place keeps free blocks apart |
| `Heap.ExtendCoalesced` | src/kernel/memory/heap.c:144-194 | expansion keeps free blocks apart |
| `Heap.ShrinkCoalesced` | src/kernel/memory/heap.c:321-334 | shrinking keeps free blocks apart if and only if it splits nothing off or the right neighbour is in use |
| `KernelHeap.ShrinkExample` | src/kernel/memory/heap.c:321-334 | in a fresh heap, 100 bytes allocated and shrunk to 48 leave two free blocks side by side |
| `Heap.Accounting` | src/kernel/memory/heap.c:199-216 | free bytes, used bytes and headers add up to the heap size |
| `KernelHeap.KHeap.constructor` | src/kernel/memory/heap.c:113-136 | one free block over the first sixteen pages, which are marked used in the frame allocator |
| `KernelHeap.KHeap.HeapSplit` | src/kernel/memory/heap.c:35-47 | the header chain in memory becomes that of the split list; no data byte of another block, nor the kept prefix, changes |
| `KernelHeap.KHeap.HeapCoalesce` | src/kernel/memory/heap.c:54-61 | the header chain becomes that of the merged list; no live byte changes |
| `KernelHeap.KHeap.ClaimPages` | src/kernel/memory/heap.c:155-170 | claims all pages if and only if all are free, and otherwise restores the free set exactly |
| `KernelHeap.KHeap.HeapExpand` | src/kernel/memory/heap.c:144-194 | succeeds if and only if the needed pages after the heap end are all free; failure changes nothing, success extends the list and keeps live bytes |
| `KernelHeap.KHeap.Kmalloc` | src/kernel/memory/heap.c:218-278 | 0 if and only if the size is 0, or nothing fits and the heap cannot grow; otherwise an aligned block at the lowest fitting address, of the rounded size exactly or less than a header and 16 bytes over it, free bytes, number of blocks and heap end changing by just that, in the old heap or in one grown by the fewest pages; all live bytes kept, counters and frame marks in step |
| `KernelHeap.KHeap.Kfree` | src/kernel/memory/heap.c:382-437 | removes exactly the block, keeps all other live bytes, coalesces, free bytes and number of blocks changing by just that; panics for exactly the outside pointer and the double free |
| `KernelHeap.KHeap.Krealloc` | src/kernel/memory/heap.c:297-380 | in place exactly when the block or its free right neighbour makes room, else fails exactly when kmalloc would, changing nothing; on all three paths the first min(old, new) bytes and every other live block survive, and the size of the block, the free bytes and the number of blocks are those of the cut, the merge, or the allocation and release |
| `KernelHeap.KHeap.Kcalloc` | src/kernel/memory/heap.c:280-295 | refuses exactly the products that overflow 32 bits, otherwise a zeroed allocation, of the size kmalloc gives |
| `KernelHeap.OverflowCheck` | src/kernel/memory/heap.c:280-295 | the division comparison detects exactly the products that do not fit 32 bits |
| `KernelHeap.KHeap.Totals` | src/kernel/memory/heap.c:449-483 | free size plus current usage plus header times block count is the heap size in every reachable state |
| `Sched.StepInv` | src/kernel/scheduler/scheduler.c:143-261 | every scheduling event keeps the queue duplicate-free and the running process out of it |
| `Sched.IdleOnlyWhenNothingRuns` | src/kernel/scheduler/scheduler.c:172-232 | idle is chosen if and only if the queue is empty and current cannot run |
| `Sched.BoundedWaiting` | src/kernel/scheduler/scheduler.c:172-232 | a process at position k is on the processor within k + 1 calls of schedule(), whatever else is readied, removed, blocked or exits |
| `Sched.TicksForceCalls` | src/kernel/scheduler/scheduler.c:234-250 | two ticks never pass without a call of schedule() |
| `Sched.BoundedTicks` | src/kernel/scheduler/scheduler.c:234-250 | hence within 2 (k + 1) ticks |
| `KernelWaiting.DoLeads` | src/kernel/scheduler/scheduler.c:143-261 | every step of the kernel is a sequence of scheduling events: wake-ups, then at most one event of another kind; a timer interrupt is a tick |
| `KernelWaiting.DoDue` | src/kernel/scheduler/scheduler.c:172-250 | in every step of the kernel a queued process gets the processor or comes no further from it, and every timer tick brings it nearer |
| `KernelWaiting.WaitingTicks` | src/kernel/scheduler/scheduler.c:172-250 | in every kernel run a process at position k of the ready queue has the processor within 2 (k + 1) timer ticks, whatever system calls are made |
| `ReadyQueue.Scheduler.constructor` | src/kernel/scheduler/scheduler.c:124-141 | an empty queue and the idle process |
| `ReadyQueue.Scheduler.QueuePush` | src/kernel/scheduler/scheduler.c:40-56 | the doubly linked list spells the old sequence with the process at its end |
| `ReadyQueue.Scheduler.QueuePop` | src/kernel/scheduler/scheduler.c:62-85 | takes the first element of the sequence, links of the rest intact |
| `ReadyQueue.Scheduler.QueueRemove` | src/kernel/scheduler/scheduler.c:91-114 | unlinks exactly one position, wherever it is |
| `ReadyQueue.Scheduler.QueueContains` | src/kernel/scheduler/scheduler.c:119-122 | the three pointer comparisons are true if and only if the process is queued |
| `ReadyQueue.Scheduler.SchedulerReady` | src/kernel/scheduler/scheduler.c:143-157 | refines the Ready event |
| `ReadyQueue.Scheduler.SchedulerRemove` | src/kernel/scheduler/scheduler.c:159-167 | refines the Remove event |
| `ReadyQueue.Scheduler.Schedule` | src/kernel/scheduler/scheduler.c:172-232 | refines the abstract decision, on links, current, states and ticks |
| `ReadyQueue.Scheduler.SchedulerTick` | src/kernel/scheduler/scheduler.c:234-250 | refines the Tick event |
| `ReadyQueue.Scheduler.SchedulerYield` | src/kernel/scheduler/scheduler.c:252-261 | refines the Yield event |
| `WaitQueue.Queue.Append` | src/kernel/sync/wait_queue.c:10-26 | the linked list spells the old sequence with the process at its end |
| `WaitQueue.Queue.WakeOne` | src/kernel/sync/wait_queue.c:56-69 | the first waiter, if any, moves to the end of the ready queue |
| `WaitQueue.Queue.WakeAll` | src/kernel/sync/wait_queue.c:71-86 | all waiters, in order, move to the end of the ready queue |
| `WaitQueue.Queue.Block` | src/kernel/sync/wait_queue.c:33-54 | current joins the wait queue and the scheduler makes a Stop step |
| `Kernel.BootInv` | src/kernel/process/process.c:16-21 | the empty kernel, with the scheduler not yet active, satisfies the invariant |
| `Kernel.OnePlace` | src/kernel/scheduler/scheduler.c:143-232 | under the invariant a process is in exactly one place: current, ready, one wait queue, in waitpid, or zombie; a stranded table entry is in none |
| `Kernel.UnreferencedUnwaited` | src/kernel/syscall/fd_table.c:114-132 | a pipe end with no references has no waiters |
| `KernelOps.WakeInv` | src/kernel/sync/wait_queue.c:56-86 | waking any number of waiters keeps the kernel invariant |
| `KernelOps.PutFdInv` | src/kernel/syscall/fd_table.c:62-112 | changing a descriptor slot together with the pipe counts keeps read_refs, write_refs and ref_count equal to the numbers of open ends |
| `KernelOps.SleepInv` | src/kernel/sync/wait_queue.c:33-54 | sleeping on a pipe or in waitpid keeps the kernel invariant |
| `KernelOps.DispatchInv` | src/kernel/scheduler/scheduler.c:172-232 | dispatching the next process keeps the kernel invariant |
| `KernelOps.YieldedSchedules` | src/kernel/scheduler/scheduler.c:172-232 | yielding in the process model is schedule() in the queue model |
| `KernelOps.SpawnInv` | src/kernel/process/process.c:23-75 | a new process keeps the kernel invariant |
| `KernelOps.BuryInv` | src/kernel/usermode/exec.c:177-206 | becoming a zombie, and waking a waiting parent, keeps the kernel invariant |
| `KernelOps.VacateInv` | src/kernel/process/process.c:87-148 | freeing the table entry of a process that nobody waits for keeps the kernel invariant |
| `KernelCalls.CloseFdInv` | src/kernel/syscall/fd_table.c:62-112 | closing a slot, with its wake-ups and the release of the last end, keeps the kernel invariant |
| `KernelCalls.ReleaseInv` | src/kernel/syscall/fd_table.c:134-142 | a released pipe has nobody waiting |
| `KernelCalls.FreshPipe` | src/kernel/syscall/fd_table.c:114-132 | re-initialising a free pool slot drops no waiter and keeps the invariant |
| `KernelCalls.AllClosedInv` | src/kernel/process/process.c:87-130 | closing all slots of a process keeps the invariant, disturbs no other process and leaves no pipe end |
| `KernelCalls.SysPipeInv` | src/kernel/syscall/sys_io.c:421-473 | pipe keeps the kernel invariant on success and on every failure path |
| `KernelCalls.SysDup2Inv` | src/kernel/syscall/sys_io.c:375-414 | dup2 keeps the kernel invariant |
| `KernelCalls.ReadSegmentInv` | src/kernel/syscall/sys_io.c:193-226 | a read segment, delivering or going to sleep, keeps the kernel invariant if and only if it does not sleep while the scheduler is inactive |
| `KernelCalls.WriteSegmentInv` | src/kernel/syscall/sys_io.c:56-92 | a write segment, likewise |
| `KernelCalls.SleepsIs` | src/kernel/syscall/sys_io.c:56-226 | a call, or the rest of one, leaves its process asleep if and only if it is a read of an empty pipe that has a write end, a write of more than fits into one that has a read end, or a wait for a child that lives |
| `KernelCalls.PartedInv` | src/kernel/sync/wait_queue.c:33-54 | a process that joined a wait queue and yields leaves the kernel invariant standing if and only if the scheduler is active |
| `KernelCalls.SysExecInv` | src/kernel/usermode/exec.c:75-175 | exec with inheritance of descriptors keeps the kernel invariant; so does a failed one, whether the table is full, memory is short, or the program does not load |
| `KernelCalls.RefusedInv` | src/kernel/process/process.c:23-71 | a failed creation keeps the invariant: a pid is used up, and without memory a table entry too |
| `KernelCalls.ReapInv` | src/kernel/syscall/sys_proc.c:107-128 | destroying a zombie child keeps the kernel invariant |
| `KernelCalls.SysWaitpidInv` | src/kernel/syscall/sys_proc.c:85-132 | waitpid, returning or going to sleep, keeps the kernel invariant |
| `KernelCalls.WokenFindsZombie` | src/kernel/syscall/sys_proc.c:115-131 | a parent woken in waitpid finds its child, and a zombie: the branch for a vanished child is unreachable |
| `KernelCalls.SysExitInv` | src/kernel/usermode/exec.c:177-212 | exit keeps the kernel invariant |
| `KernelCalls.TickedInv` | src/kernel/scheduler/scheduler.c:234-250 | a timer tick between segments keeps the kernel invariant |
| `KernelRuns.DoInv` | src/kernel/syscall/sys_io.c:19-473 | every segment of every call and every tick keeps the kernel invariant if and only if it does not make a process wait while the scheduler is inactive |
| `KernelRuns.RunInv` | src/kernel/syscall/sys_io.c:19-473 | at the end of every run the invariant holds (counts equal open ends, one place per process, streams conserved) if and only if no process had to wait while the scheduler was inactive |
| `KernelRuns.SpinsForever` | src/kernel/scheduler/scheduler.c:252-261 | a process that had to wait too early keeps the processor: only timer ticks follow, and they change nothing |
| `KernelPlaces.DoMoves` | src/kernel/scheduler/scheduler.c:143-158 | each step makes the scheduler active if and only if it starts a child, and strands a table entry if and only if it creates a process without memory in a free slot |
| `KernelPlaces.RunActive` | src/kernel/scheduler/scheduler.c:143-158 | at the end of every run the scheduler is active if and only if it was, or a child was started |
| `KernelPlaces.InvExactly` | src/kernel/sync/wait_queue.c:33-54 | from boot, the kernel invariant holds at the end of a run if and only if no process had to wait before the first child was started |
| `KernelPlaces.RunStranded` | src/kernel/process/process.c:23-71 | over every run the stranded entries are exactly those of processes created without memory, and as many |
| `KernelPlaces.TableLeft` | src/kernel/process/process.c:23-71 | from boot, processes and creations without memory together never exceed the process table: each of the latter takes an entry for good |
| `KernelPlaces.PlacesExactly` | src/kernel/process/process.c:23-71 | from boot, an entry of the process table is in no place if and only if its process was created without memory; any other is in exactly one if and only if no process had to wait before the first child was started |
| `KernelEarly.StrandedExample` | src/kernel/process/process.c:23-71 | a run from boot, program started and child without memory, after which an entry is in the table and nowhere |
| `KernelEarly.EarlyExample` | src/kernel/sync/wait_queue.c:33-54 | a run from boot, a program reading its own empty pipe, after which it is on the processor and in the wait queue at once |
| `KernelRuns.ReapDelivers` | src/kernel/syscall/sys_proc.c:107-128 | taking out a zombie hands its recorded exit code to its parent |
| `KernelRuns.DoDelivers` | src/kernel/syscall/sys_proc.c:85-132 | each step delivers nothing, or one zombie child to its parent as the result of the call; KernelEffects.DeliversExactly says when |
| `KernelRuns.RunHistory` | src/kernel/usermode/exec.c:177-206 | over any run, calm or not, recorded exits stay and deliveries are only added |
| `KernelRuns.ExitedNeverRuns` | src/kernel/usermode/exec.c:184-205 | after exit a process is never current, queued or asleep again: the panic after its yield is unreachable |
| `KernelRuns.DeliveredOnce` | src/kernel/syscall/sys_proc.c:85-132 | from boot on, each exit code is recorded as delivered at most once, to the parent, as the child gave it; KernelEffects.CodeOnce says the same of the results of calls |
| `KernelRuns.RunPipes` | src/kernel/syscall/sys_io.c:56-226 | at the end of every run, calm or not, the bytes delivered and then the bytes buffered are the bytes accepted, in every pipe |
| `KernelEffects.EndOfFile` | src/kernel/syscall/sys_io.c:193-226 | a read of a pipe, called or resumed, returns 0 if and only if no write end is open anywhere and every accepted byte was delivered |
| `KernelEffects.ReadDelivers` | src/kernel/syscall/sys_io.c:193-226 | a read, called or resumed, returns the next part of the accepted bytes, no more than it wants |
| `KernelEffects.WriteAccepts` | src/kernel/syscall/sys_io.c:56-92 | a write, called or resumed, appends to the accepted bytes the next part of its data: all of it, and the result is the count; or it sleeps beside a full ring; or no read end is open, and the result is EPIPE or the count so far |
| `KernelEffects.ReadEffect` | src/kernel/syscall/sys_io.c:193-226 | the whole effect of a read of a pipe, called or resumed: bytes are there, and as many of the first as it wants are returned and taken, and the first sleeping writer is woken; or none and no write end, and 0; or it sleeps; nothing else changes |
| `KernelEffects.ReadRefused` | src/kernel/syscall/sys_io.c:110-226 | a read of anything but the read end of a pipe, or of no bytes, gives EBADF, 0, or goes to the console or the file system for exactly its inputs, and changes nothing |
| `KernelEffects.WriteEffect` | src/kernel/syscall/sys_io.c:56-92 | the whole effect of a write to a pipe, called or resumed: without a read end EPIPE, or the count so far; otherwise what fits is appended, the first sleeping reader is woken, and it sleeps with the rest or returns the count |
| `KernelEffects.WriteRefused` | src/kernel/syscall/sys_io.c:19-92 | a write to anything but the write end of a pipe, or of no bytes, gives EINVAL, EBADF, 0, or goes to the console or the file system for exactly its inputs, and changes nothing |
| `KernelEffects.BytesAreRead` | src/kernel/syscall/sys_io.c:56-226 | bytes are the result of reads of a pipe only |
| `KernelEffects.WaitEffect` | src/kernel/syscall/sys_proc.c:85-132 | waitpid, called or resumed, collects the zombie child asked for, with all its descriptors, returns its code and wakes exactly those whom this cuts off; asked for a child that lives it sleeps, for any other process it gives ECHILD, for none ESRCH, and takes nothing out |
| `KernelEffects.DeliversExactly` | src/kernel/syscall/sys_proc.c:85-132 | a step delivers an exit code if and only if it is a wait of the parent for a zombie |
| `KernelEffects.CodeOnce` | src/kernel/syscall/sys_proc.c:85-132 | over every run after an exit, as results of calls: the first time the parent asks, it gets the code; whoever else asks before gets ECHILD, and whoever asks later ESRCH |
| `KernelEffects.DoPasses` | src/kernel/syscall/sys_proc.c:16-132 | a process leaves the table when its parent collects it or it exits without a parent, and never else; pids come in order, one at a time |
| `KernelStreams.StepStream` | src/kernel/syscall/sys_io.c:56-226 | each step moves through a pipe that stays in use exactly the bytes its result, or what is left of a sleeping write, reports |
| `KernelStreams.PipeIsStream` | src/kernel/syscall/sys_io.c:56-226 | over every run in which a pipe stays in use, for any readers and writers: ring contents at the start, then all bytes written since, are all bytes returned since, then the ring contents now |
| `KernelEffects.PipeEffect` | src/kernel/syscall/sys_io.c:421-473 | ENOBUFS if and only if every pipe is referred to, EMFILE if and only if a pipe is free but fewer than two slots are; otherwise a pipe nobody referred to gets its ends in two empty slots and nothing else changes |
| `KernelEffects.Dup2Effect` | src/kernel/syscall/sys_io.c:375-414 | the new slot becomes what the old one is, no other slot of any process changes, and of the others exactly those are woken whom the close cuts off; EBADF exactly for bad or empty slots |
| `KernelEffects.ExecEffect` | src/kernel/usermode/exec.c:75-175 | on success the child gets the standard slots and the files but no other pipe end, is ready at the end of the queue, and no other process changes; otherwise ENOENT, and at most the pid and, without memory, the table entry are used up |
| `KernelEffects.ExitEffect` | src/kernel/usermode/exec.c:177-206 | exit leaves a zombie with the code and closes nothing: all pipe ends stay open until it is collected, and a parent that waits for it no longer sleeps; a process without parent is taken out with its ends and the kernel gets the code |
| `KernelEffects.StartEffect` | src/kernel/usermode/exec.c:75-175 | a program started by the kernel runs at once, without parent, its three standard slots on the console; a failed start changes no process |
| `KernelEffects.CloseEffect` | src/kernel/syscall/sys_io.c:276-292 | close empties the slot, touches no other slot of any process and wakes exactly those whom it cuts off; EINVAL and EBADF for exactly their inputs, changing nothing |
| `KernelEffects.OpenEffect` | src/kernel/syscall/fd_table.c:19-39 | the lowest empty slot past the standard ones, and EMFILE exactly if there is none |
| `KernelEffects.TimerEffect` | src/kernel/scheduler/scheduler.c:234-250 | a tick changes nothing but which process runs and which are ready |
| `KernelWakes.CloseFdWakes` | src/kernel/syscall/fd_table.c:80-110 | a close wakes exactly the processes asleep in a read or write whose pipe has lost its last end at the other side, and changes nothing else in any other process |
| `KernelWakes.AllClosedWakes` | src/kernel/process/process.c:87-130 | so do all the closes of a process that is destroyed, together |
| `KernelFlow.FilledFlows` | src/kernel/syscall/sys_io.c:82-91 | a write keeps the pipe flowing if and only if at most one reader was asleep |
| `KernelFlow.DrainedFlows` | src/kernel/syscall/sys_io.c:213-225 | a read keeps the pipe flowing if and only if at most one writer was asleep |
| `KernelFlow.TwoReadersStick` | src/kernel/syscall/sys_io.c:82-91 | with two sleeping readers one write leaves a reader asleep beside data |
| `KernelStuck.TwoReadersStuck` | src/kernel/syscall/sys_io.c:56-226 | a run from boot, to a state that satisfies the kernel invariant, in which two children read one pipe, one byte is written, and a reader sleeps on beside it |
| `KernelFlow.CloseFdFlows` | src/kernel/syscall/fd_table.c:84-108 | the last close on either side wakes everybody on the other |
| `KernelFlow.RunFlows` | src/kernel/syscall/sys_io.c:19-473 | no run with at most one sleeper per end makes a pipe stuck |
| `KernelFlow.NeverStuck` | src/kernel/syscall/sys_io.c:19-473 | from boot: a sleeping reader faces an empty pipe with an open write end, a sleeping writer a full pipe with an open read end |
| `KernelMachine.Machine.WakeOne` | src/kernel/sync/wait_queue.c:56-69 | the loop-free wake is one step of the wake function |
| `KernelMachine.Machine.WakeAll` | src/kernel/sync/wait_queue.c:71-86 | the loop wakes all waiters, in order |
| `KernelMachine.Machine.CloseSlot` | src/kernel/syscall/fd_table.c:80-110 | the branches on pipe end, counts, alarms and release do what closing a slot means, and keep the invariant |
| `KernelMachine.Machine.FdFree` | src/kernel/syscall/fd_table.c:62-112 | fails exactly for an empty or out-of-range slot, otherwise closes it |
| `KernelMachine.Machine.ProcessDestroy` | src/kernel/process/process.c:87-148 | the loop closes every slot, then the entry is free |
| `KernelMachine.Machine.PipeAlloc` | src/kernel/syscall/fd_table.c:114-132 | the lowest pool slot without references, re-initialised with one reference to each end |
| `KernelMachine.Machine.TwoSlots` | src/kernel/syscall/sys_io.c:437-450 | the two lowest empty descriptor slots past the standard ones |
| `KernelMachine.Machine.PipeSystemCall` | src/kernel/syscall/sys_io.c:421-473 | the imperative call computes the pipe segment, on all failure paths |
| `KernelMachine.Machine.Dup2SystemCall` | src/kernel/syscall/sys_io.c:375-414 | the imperative call computes the dup2 segment |
| `KernelMachine.Machine.ExecProgram` | src/kernel/usermode/exec.c:75-175 | the imperative call computes the exec segment, on success and on every failure |
| `KernelMachine.Machine.Reserve` | src/kernel/process/process.c:23-71 | a slot and a pid exactly if the table has room, memory and program are there; otherwise what the failure leaves |
| `KernelMachine.Machine.GiveUp` | src/kernel/scheduler/scheduler.c:252-261 | the yield of a process that may not go on: schedule() if the scheduler is active, otherwise nothing |
| `KernelMachine.Machine.InheritFds` | src/kernel/usermode/exec.c:101-133 | the loop gives the child every inheritable descriptor and counts every pipe end |
| `KernelMachine.Machine.UsermodeExit` | src/kernel/usermode/exec.c:177-212 | the imperative call computes the exit segment, for a process with a parent and for one started by the kernel |
| `KernelMachine.Machine.WaitpidSystemCall` | src/kernel/syscall/sys_proc.c:85-132 | the imperative call computes the waitpid segment up to its return or its sleep, whose effect KernelEffects.WaitEffect states |
| `KernelMachine.Machine.WaitpidResumed` | src/kernel/syscall/sys_proc.c:115-131 | the code after the sleep computes the resumed segment |
| `KernelMachine.Machine.CloseSystemCall` | src/kernel/syscall/sys_io.c:276-292 | the imperative call computes the close segment |
| `KernelMachine.Machine.OpenSystemCall` | src/kernel/syscall/fd_table.c:19-39 | taking the lowest empty slot for an opened file computes the open segment |
| `KernelMachine.Machine.TakeFrom` | src/kernel/syscall/sys_io.c:213-220 | the copying loop over the ring takes the first bytes of the pipe |
| `KernelMachine.Machine.PutInto` | src/kernel/syscall/sys_io.c:66-86 | the copying loop over the ring appends what fits to the pipe |
| `KernelMachine.Machine.ReadPipe` | src/kernel/syscall/sys_io.c:193-226 | the pipe branch of read, over the ring, computes the read segment |
| `KernelMachine.Machine.WritePipe` | src/kernel/syscall/sys_io.c:56-92 | the pipe branch of write, over the ring, computes the write segment |
| `KernelMachine.Machine.ReadSystemCall` | src/kernel/syscall/sys_io.c:110-226 | the dispatch on the descriptor computes the read event, whose effect KernelEffects.ReadEffect and KernelEffects.ReadRefused state |
| `KernelMachine.Machine.WriteSystemCall` | src/kernel/syscall/sys_io.c:19-92 | the dispatch on the descriptor computes the write event, whose effect KernelEffects.WriteEffect and KernelEffects.WriteRefused state |
| `KernelMachine.Machine.TimerTick` | src/kernel/scheduler/scheduler.c:234-250 | the tick computes the timer event |
| `KernelMachine.Machine.StartProgram` | src/kernel/usermode/exec.c:75-175 | exec_program called by the kernel computes the start event |
| `KernelMachine.Machine.constructor` | src/kernel/process/process.c:16-21 | the boot state, every ring spelling the contents of its pipe |
| `KernelMachine.Machine.Perform` | src/kernel/syscall/sys_io.c:19-473 | every event is done by the code as the step function says, in every state that satisfies the invariant or in which a process waits too early, and every ring goes on spelling the contents of its pipe |
| `KernelMachine.Machine.PerformAll` | src/kernel/syscall/sys_io.c:19-473 | so is every run: the properties of runs are properties of the code |
| `Ring.PipeRing.Write` | src/kernel/syscall/sys_io.c:66-86 | the ring accepts as much as fits, at the end of the queue; write position stays read position plus count mod 4096 |
| `Ring.PipeRing.Read` | src/kernel/syscall/sys_io.c:213-220 | the ring hands out min(count, want) bytes from the front of the queue |
| `Ring.PipeRing.Reset` | src/kernel/syscall/fd_table.c:114-142 | an empty queue |
| `Ext2Layout.SoundApart` | src/fs/ext2/ext2_alloc.c:72-107 | superblock, descriptors, bitmaps, inode records and data blocks of a well laid out volume do not overlap |
| `Ext2Layout.PutReg` | src/fs/ext2/ext2_io.c:87-147 | writing one region changes it and no other |
| `Ext2Io.ReadAbs` | src/fs/ext2/ext2_io.c:12-35 | the sector loop reads exactly the bytes at the offset, and nothing else of the buffer changes |
| `Ext2Io.WriteAbs` | src/fs/ext2/ext2_io.c:87-130 | the read-modify-write loop replaces exactly the bytes at the offset |
| `Ext2Io.ReadBlock` | src/fs/ext2/ext2_io.c:44-54 | the buffer becomes the block |
| `Ext2Io.WriteBlock` | src/fs/ext2/ext2_io.c:139-147 | the block becomes the buffer, no other byte changes |
| `Ext2Space.ItemPlace` | src/fs/ext2/ext2_alloc.c:406-446 | a number decomposes to a group and bit that compose back to it |
| `Ext2Space.ItemBack` | src/fs/ext2/ext2_alloc.c:334-398 | a group and bit compose to a number that decomposes back to them |
| `Ext2Space.FlipAccounts` | src/fs/ext2/ext2_alloc.c:146-205 | turning a bit with the counts adjusted keeps every group count and both totals equal to the clear bits |
| `Ext2Space.TotalIsFree` | src/fs/ext2/ext2_alloc.c:146-205 | the superblock total is the number of free items |
| `Ext2Alloc.BitmapSet` | src/fs/ext2/ext2_alloc.c:20-32 | sets or clears exactly one bit |
| `Ext2Alloc.FindFree` | src/fs/ext2/ext2_alloc.c:42-61 | the lowest clear bit of the range, or none is clear |
| `Ext2Alloc.UpdateCounts` | src/fs/ext2/ext2_alloc.c:146-205 | fails, changing nothing, exactly when a count would become negative; otherwise adjusts descriptor and superblock |
| `Ext2Alloc.AllocBlock` | src/fs/ext2/ext2_alloc.c:334-398 | marks the lowest free block and keeps all accounts and contents, no other byte of descriptors changing but the counts; fails only if no block is free |
| `Ext2Alloc.AllocInode` | src/fs/ext2/ext2_alloc.c:213-280 | marks the lowest free inode the search may take; fails only if there is none |
| `Ext2Alloc.ReservedInLaterGroups` | src/fs/ext2/ext2_alloc.c:239-252 | alloc_inode never takes a reserved inode if and only if the reserved ones fit the first group |
| `Ext2Alloc.ReservedExample` | src/fs/ext2/ext2_alloc.c:239-252 | two groups of eight inodes, the first eleven less one reserved: inode 9 can be given out |
| `Ext2Alloc.FreeBlock` | src/fs/ext2/ext2_alloc.c:406-446 | refuses exactly the numbers outside every group; clears exactly the bit of a block in use and keeps the accounts; for any other number no block changes and the total is one more than the free blocks, so the accounts break |
| `Ext2Alloc.FreeInode` | src/fs/ext2/ext2_alloc.c:288-326 | likewise for inodes |
| `Ext2Leak.FreeExample` | src/fs/ext2/ext2_alloc.c:406-446 | on a volume with two free blocks, freeing one of them again leaves two free blocks and a total of three |
| `Ext2Space.IdleOvercounts` | src/fs/ext2/ext2_alloc.c:406-446 | clearing a bit that is not that of an item in use, with the counts raised, leaves every item as it was and the total one too high |
| `Ext2Tree.PathLegal` | src/fs/ext2/ext2_inode.c:126-236 | for the three block sizes and every 32-bit offset the index arithmetic stays inside each pointer block and leads back to the block index |
| `Ext2Tree.PathInjective` | src/fs/ext2/ext2_inode.c:126-236 | different block indices have different pointer slots |
| `Ext2Tree.ResolveDataBlock` | src/fs/ext2/ext2_inode.c:126-236 | returns what plain tree lookup returns, 0 as soon as a level is absent |
| `Ext2Write.InodeLocation` | src/fs/ext2/ext2_alloc.c:72-107 | refuses exactly number zero and numbers outside every group; the offset is that of the entry in the table of its group, for an inode of the volume where its record is |
| `Ext2Write.ReadInode` | src/fs/ext2/ext2_inode.c:238-273 | the record of the inode, or failure for exactly the numbers without one |
| `Ext2Write.WriteInode` | src/fs/ext2/ext2_alloc.c:116-135 | the record, padded with zeroes, and nothing else changes |
| `Ext2Spend.FreeIsTotal` | src/fs/ext2/ext2_alloc.c:146-205 | the free-block counter of the superblock is the number of free blocks |
| `Ext2Write.AssignDataBlock` | src/fs/ext2/ext2_file.c:667-701 | the block of a direct slot, allocated and cleared if absent: then i_blocks rises by the sectors of a block, mod 2^32, and no byte of the inode but these and the pointer changes; fails exactly past the direct slots, or for an empty slot with no block free; no byte of any file changes, ownership stays unique |
| `Ext2Write.WriteBlocks` | src/fs/ext2/ext2_file.c:724-757 | as far as the loop gets, the file has the written prefix and nothing else changed; it ends early exactly when the direct slots or the free blocks do not suffice, before the first slot for which they do not, with min(empty slots, free blocks) blocks taken |
| `Ext2File.WriteFile` | src/fs/ext2/ext2_file.c:703-773 | on success the raw bytes of the file are the old ones with exactly [offset, offset + length) replaced, the size grows to the end, i_blocks by the sectors of the blocks taken, mod 2^32, every other byte of the inode but the direct pointers stays, no byte or record of any other inode changes, and blocks stay allocated, distinct and apart from metadata; NOSPC if and only if the end lies past the direct blocks or more empty slots than free blocks are needed; in either case the free total falls by exactly the smaller of the two; on NOSPC the record stays, all blocks taken are those of no file, and a byte is new exactly in the blocks the file had before the slot at which blocks or slots run out |
| `Ext2File.LosesWhen` | src/fs/ext2/ext2_file.c:703-773 | a write loses blocks if and only if it fails with an empty slot before it and a free block to put there, and then exactly that many |
| `Ext2Leak.LeakExample` | src/fs/ext2/ext2_file.c:703-773 | on a volume with two free blocks, a write of three blocks fails and leaves both marked though no file has them |
| `Ext2File.ReadFile` | src/fs/ext2/ext2_file.c:233-308 | the bytes of the file as far as its size goes, 0 where unmapped; each error for exactly its inputs |
| `Ext2File.WriteThenRead` | src/fs/ext2/ext2_file.c:233-773 | what was written is what a following read returns |
| `Ext2Chain.FreeTree` | src/fs/ext2/ext2_alloc.c:483-588 | frees every block below and at the root exactly once, the tables being walked staying in their buffers |
| `Ext2Chain.ClearedTotal` | src/fs/ext2/ext2_alloc.c:454-591 | the free total rises by the number of blocks freed |
| `Ext2Chain.FreeInodeBlockChain` | src/fs/ext2/ext2_alloc.c:454-591 | clears the bit of every reachable data and pointer block and of no other, zeroes all 15 pointers, raises the free total by exactly that number, and leaves the other files in order |
| `Ext2DirBlock.RecordReads` | src/fs/ext2/ext2_dir.c:165-264 | a record written into a block reads back as its inode, name and type |
| `Ext2DirBlock.Surgery` | src/fs/ext2/ext2_dir.c:165-314 | replacing a record by records that fill its place keeps the block tiled and exchanges its names only |
| `Ext2DirScan.FindInBlock` | src/fs/ext2/ext2_dir.c:127-148 | finds the first record in use with the name, or there is none |
| `Ext2DirScan.InsertInBlock` | src/fs/ext2/ext2_dir.c:190-232 | inserts exactly one name, the block staying tiled, if and only if some record has room; every record that was there stays one, with its inode and name, unless it was unused and holds the new entry |
| `Ext2DirScan.RemovedNames` | src/fs/ext2/ext2_dir.c:426-454 | removal deletes exactly one name, the block staying tiled |
| `Ext2DirScan.RenamedNames` | src/fs/ext2/ext2_dir.c:276-314 | renaming in place exchanges exactly one name, the block staying tiled |
| `Ext2DirScan.RemoveInBlock` | src/fs/ext2/ext2_dir.c:447-452 | the block in the buffer stays tiled and its list of names loses exactly the one of the record |
| `Ext2DirScan.RenameInBlock` | src/fs/ext2/ext2_dir.c:305-312 | the block in the buffer stays tiled and its list of names has the new name in place of the old, bound to the same inode |
| `Ext2DirScan.FindOther` | src/fs/ext2/ext2_dir.c:346-369 | finds nothing if and only if the block holds only "." and ".." |
| `Ext2DirScan.InitBlock` | src/fs/ext2/ext2_dir.c:503-531 | the new block is tiled and binds exactly "." and "..", the second at the offset where the parent link is looked for |
| `Ext2Names.MapInserted` | src/fs/ext2/ext2_dir.c:165-264 | inserting a fresh name adds one binding and all others survive |
| `Ext2Names.InsertFresh` | src/fs/ext2/ext2_dir.c:165-264 | names stay different under an insertion if and only if the new one is not there yet |
| `Ext2Names.MapDeleted` | src/fs/ext2/ext2_dir.c:426-454 | deleting an entry removes one binding and all others survive |
| `Ext2Names.MapExchanged` | src/fs/ext2/ext2_dir.c:276-314 | exchanging an entry moves one binding to the new name |
| `Ext2Names.RenameEither` | src/fs/ext2/ext2_file.c:615-653 | renaming in place, and adding before removing, give the same map |
| `Ext2Dir.KeptMeans` | src/fs/ext2/ext2_dir.c:165-454 | a file or directory that was left alone has the same names, kind and bytes |
| `Ext2Dir.DirBlockPut` | src/fs/ext2/ext2_dir.c:165-454 | writing one block of a directory changes the names of that slot only, and no other file |
| `Ext2Dir.FindEntry` | src/fs/ext2/ext2_dir.c:96-152 | agrees with the name map: the binding, or absence |
| `Ext2Dir.HitUnique` | src/fs/ext2/ext2_dir.c:96-152 | a name has one place in a directory |
| `Ext2Dir.FindInDirectory` | src/fs/ext2/ext2_inode.c:62-116 | the second lookup loop agrees with the same map |
| `Ext2Dir.RemoveEntry` | src/fs/ext2/ext2_dir.c:426-454 | the map loses exactly the name, success if and only if it was bound, no other file or directory changes, nor the inode, nor any bit of the bitmaps or count |
| `Ext2Dir.RenameEntry` | src/fs/ext2/ext2_dir.c:276-314 | succeeds if and only if the name is bound, the new length is legal and fits the record, and then the binding is under the new name; otherwise nothing changed; no other file or directory, no inode and no count changes |
| `Ext2DirAdd.AddEntry` | src/fs/ext2/ext2_dir.c:165-264 | the map gains exactly the binding, in an old block or a new one; succeeds if and only if the name length is legal and some record has room, or there is an empty slot and a free block; one block is taken exactly if no record has room; size and i_blocks of the inode then rise by a block and no other byte of it but a pointer changes; the inode handed back is the one on disk; failure changes nothing |
| `Ext2DirAdd.GrownOk` | src/fs/ext2/ext2_dir.c:237-261 | a new directory block keeps accounts, ownership and all other files, and adds the one binding |
| `Ext2DirAdd.DirectoryIsEmpty` | src/fs/ext2/ext2_dir.c:322-373 | true if and only if nothing but "." and ".." is bound |
| `Ext2DirAdd.MoveEntry` | src/fs/ext2/ext2_file.c:623-651 | adding then removing moves the binding between two directories, or nothing changes for lack of space; the inode of the first stays, that of the second gains a block exactly if it had no room |
| `Ext2Move.InodePut` | src/fs/ext2/ext2_alloc.c:116-135 | an inode written back with the same pointers and mode is the same directory, with no other file changed |
| `Ext2Move.CountsUnchanged` | src/fs/ext2/ext2_alloc.c:146-205 | an update of the counts by nothing leaves the disk as it is |
| `Ext2Move.UpdateParentLink` | src/fs/ext2/ext2_dir.c:382-416 | succeeds if and only if the second record of the first block is ".."; then ".." is bound to the new parent and no other name, file or directory changes |
| `Ext2Move.MoveDirectory` | src/fs/ext2/ext2_file.c:623-651 | a directory that gets another parent, be it itself: the book of all directories is the old one with the name moved, the ".." of the directory bound to the new parent, the links of the parents one down and one up, and no other byte of any inode changed but for a block the new parent may gain; NOSPC and IO for exactly their inputs, with all names and links as before, the new parent keeping such a block on IO |
| `Ext2Move.Rename` | src/fs/ext2/ext2_file.c:593-653 | NOTFOUND, EXIST, NOSPC and IO each for exactly its inputs, with all names and links as before; otherwise the binding moved, within a directory, between two, or with its ".." and link counts, and the inodes are as that says |
| `Ext2Reach.ReachedAfter` | src/fs/ext2/ext2_file.c:561-654 | after a rename a directory can be reached from the root if and only if it could, and is not below the moved directory with the new parent below that too |
| `Ext2Reach.KeepsAllExactly` | src/fs/ext2/ext2_file.c:561-654 | a rename keeps every reachable directory reachable if and only if the new parent is not the moved directory or below it |
| `Ext2Reach.StaysRooted` | src/fs/ext2/ext2_file.c:561-654 | a rename leaves every directory one name at most and the root none |
| `Ext2Reach.RenameReach` | src/fs/ext2/ext2_file.c:593-653 | the same of the disk: what ext2_rename leaves reachable, exactly, whichever of its branches it takes |
| `Ext2Reach.BelowItself` | src/fs/ext2/ext2_file.c:623-651 | /a renamed to /a/x/y: both directories are out of reach, holding each other |
| `Ext2Life.FreeInodeAndBlocks` | src/fs/ext2/ext2_dir.c:614-638 | the free blocks grow by exactly the data and pointer blocks of the file, the free inodes by its inode; no file is touched |
| `Ext2Life.RemoveFile` | src/fs/ext2/ext2_file.c:457-493 | NOTFOUND, changing nothing, exactly unless the name is that of a regular file; otherwise the name is gone, exactly its blocks and inode are free, both totals rise by just these, the count of directories and the inode of the parent stay, and all other files and directories are untouched |
| `Ext2Life.CreateFile` | src/fs/ext2/ext2_file.c:310-368 | EXIST and NOSPC for exactly their inputs; after NOSPC names, files and free space are as before; otherwise the lowest inode to be had is an empty regular file with one link, permissions 0644 and nothing but zeros besides under the name, no block or exactly one is taken, of the parent only the times and what a block adds change, no count of directories does, and all other files and directories are untouched |
| `Ext2Life.CreateThenRemove` | src/fs/ext2/ext2_file.c:310-493 | a file created and removed: names, other files and the free inodes are as before, and the free blocks are one fewer if no block of the directory had room for the name |
| `Ext2Life.RestoredTotals` | src/fs/ext2/ext2_file.c:310-493 | the free blocks are what they were if and only if some record of the directory had room |
| `Ext2Leak.CreateExample` | src/fs/ext2/ext2_file.c:310-493 | on a volume whose directory has no block yet, creating and removing a file takes one block of two |
| `Ext2DirLife.CountDirs` | src/fs/ext2/ext2_alloc.c:146-205 | the count of directories of the group of the inode, and no other, changes by the number given, unless it would become negative, when nothing changes; accounts, marks and contents stay |
| `Ext2DirLife.CreateDir` | src/fs/ext2/ext2_file.c:370-455 | EXIST and NOSPC for exactly their inputs, inode and block being given back; otherwise a directory with exactly "." and ".." in one block of its own, two links, permissions 0755, the size and i_blocks of one block and zeros besides, ready to be moved; the count of directories of its group rises by one and no other changes; the parent has the name and one link more, and otherwise only its times and what a block adds change, and all else is untouched |
| `Ext2DirLife.RemoveDir` | src/fs/ext2/ext2_file.c:495-559 | NOTFOUND, IO and BUSY for exactly their inputs, changing nothing; otherwise name, blocks and inode are given back, the count of directories of its group falls by one if it was above zero and no other changes, the parent has one link less if it had any, and otherwise only its times change, and all else is untouched |
| `Ext2DirLife.CreateThenRemoveDir` | src/fs/ext2/ext2_file.c:370-559 | a directory created and removed: free inodes as before, free blocks too exactly if some record of the parent had room, the link count of the parent exactly if it was below 65535 |

## Left out

Assumptions and contracts stated for less than the code could be called with:

- Pmm.FrameAllocator.constructor: takes the bitmap as given and counts its bits; the walk over the E820 map in pmm_init, which increments once per page of each region, is not modelled.
- KernelHeap.KHeap.constructor: the heap starts at a page boundary above 0 with room for sixteen pages; zeroing the data area and memory_reserve_heap are not modelled.
- KernelHeap.KHeap.HeapSplit: the size is a positive multiple of four no larger than the block, as every caller passes.
- KernelHeap.KHeap.Kmalloc: request sizes up to 2^32 minus two pages, so that align4 and the header sums do not wrap.
- KernelHeap.KHeap.Krealloc: the same bound, and a pointer that is null or live.
- KernelHeap.KHeap.Kcalloc: the same bound on the product taken mod 2^32.
- KernelHeap.KHeap.Kfree: the pointer is null, outside the heap, or the data pointer of some block, free or used.
- Mmu.PageTables.MapUser: user mappings of a frame that is not mapped elsewhere; remapping a mapped page is covered, and shown to drop the old frame without returning it.
- Paging.RunIsolation: runs without kernel-flag mappings of process directories, which KernelFlagIsolation and KernelFlagConserves treat one at a time.
- Paging.RunConserves: runs map each page once, to a frame in hand or to a device frame.
- ReadyQueue.Scheduler.SchedulerReady: the process is not queued, not current and not idle; the code has no guard of its own, and the process protocol keeps to it in every run.
- ReadyQueue.Scheduler.QueueRemove: the process is queued; scheduler_remove asks queue_contains first.
- Kernel.BootInv: pids and next_pid are unbounded numbers.
- KernelRuns.RunInv: segments are atomic; the code between the condition and the block is not masked against interrupts, so nothing is claimed for preemption inside a segment.
- KernelRuns.SpinsForever: the loop of a process that waits before the scheduler is active is one endless segment; that each of its rounds appends the process to the wait queue once more is not modelled.
- KernelMachine.Machine.UsermodeExit: the longjmp of a process started by the kernel is modelled as the process leaving.
- KernelMachine.Machine.WakeAll: process table and pipe pool are maps and sequences held in fields, so aliasing between table entries is not captured here; the linked lists themselves are in ReadyQueue and WaitQueue, and the pipe rings are objects.
- KernelFlow.RunFlows: assumes at most one sleeper per pipe end at every point; FilledFlows and DrainedFlows show that this is exactly what is needed.
- Ext2Io.ReadAbs: disk transfers succeed; the byte range lies on the disk.
- Ext2Alloc.UpdateCounts: deltas between -1 and 1, the only ones the driver passes.
- Ext2Tree.ResolveDataBlock: block indices of 32-bit file offsets.
- Ext2Write.ReadInode: numbers beyond inode_count but still inside the last group, for which InodeLocation gives an offset past the table, are excluded here and in all that reads an inode.
- Ext2Write.WriteInode: likewise.
- Ext2Chain.FreeTree: the three nestings that the source writes out are one recursive method; the inode cleared is the one in memory, as in the source.
- Ext2DirAdd.AddEntry: the name is not bound yet, as every caller makes sure; despite its name the function never replaces an entry, and InsertFresh shows that for a bound name the names would no longer be different.
- Ext2Move.UpdateParentLink: if the directory has a first block, there is a record in it at the offset where initialize_directory_block puts "..", in use if it has that name; CreateDir makes directories so.
- Ext2Move.MoveDirectory: likewise, and a directory that is to be its own parent has a first block; the condition for IO leaves out the name "..", which only a directory without a parent entry could be given.
- Ext2Move.Rename: starts after both parents are looked up; the same holds for a directory that gets another parent.
- Ext2Reach.RenameReach: names other than "." and "..", in a tree where every directory has one name at most and both parents can be reached; it shows that a rename keeps this.
- Ext2Life.RemoveFile: starts after the parent is looked up; the name of a regular file is that of a file other than the directory itself.
- Ext2Life.CreateFile: starts after the parent is looked up; the inode of every file is marked in its bitmap, which creation and removal keep.
- Ext2DirLife.RemoveDir: as RemoveFile; if the inode is that of a directory, its blocks are in order.

Not modelled at all:

- Mounting, path lookup, truncate and directory listing in ext2; a volume object is made from given geometry, disk and superblock.
- ext2 volumes of 4 GiB or more, block sizes other than 1024, 2048 and 4096, and groups larger than one bitmap block.
- Disk failure and crash consistency: the driver has no journal.
- HEAP_DEBUG canaries and poisoning, sys_sbrk, sys_mmap and the ELF loader.
- Console and file branches of sys_read and sys_write, vfs dispatch, devfs, tty, drivers, interrupt setup and all assembly; a context switch is a change of the current process.
- libc, the shell and user programs.
