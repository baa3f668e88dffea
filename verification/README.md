# Verification of alpha_concurrent

alpha_concurrent is a C++ library of lock-free containers whose nodes are recycled
through hazard pointers, together with its own memory allocator and a dynamic
thread-local storage.  This project models the parts in which an error would be hardest
to see and proves what they promise.

The concurrent parts are step machines: a state holds the shared memory and one program
counter with its registers and hazard slots per thread, and one action is one load, store
or compare-and-exchange of one thread, under sequential consistency.  Any number of
threads take part, and a theorem about a run is about every interleaving.  The nodes have
a life cycle (`Reclaim`): a node that has left its structure is handed out again only after
a scan has read every registered hazard slot, one at a time, since it left.  A slot that
is merely published may hold any pointer, also that of a node in use again; invariants
speak only about slots that were verified against the structure.

Two kinds of theorem go together.  Those about every interleaving say what can never happen:
a wrong answer, a lost value, a node recycled too early.  Those about a call that nobody
interferes with (`FifoAlone`, `ListAlone`, `StackAlone`, `RegistryCalls`, `TlsCalls`,
`BumpChamber.AloneAllocates`) say what does happen: from any state that other threads may
have left in the middle of their calls, it ends, and has done what its name says.

The parts that run under a lock or for one thread are classes whose methods follow the
loops and assignments of the code; the raw links of a linked list are one memory that all
lists share.

| files | what they model |
|---|---|
| `Reclaim` | life of a node between the structure, the pool and a user |
| `FifoShared`, `FifoThreads`, `FifoSystem`, `FifoTheorems`, `FifoPushFront`, `FifoAlone` | the sentinel queue with `push_front` and node recycling |
| `MarkedLink`, `ListShared`, `ListThreads`, `ListSystem`, `ListTheorems`, `ListRecycling`, `ListSearch`, `ListAlone` | the ordered list with deletion marks |
| `LockfreeStack`, `StackAlone` | the stack in which the pool keeps spare nodes |
| `SimpleList`, `NodePool` | the lists and the decisions of the node pool |
| `HazardChain`, `HazardRegistry`, `RegistryCalls`, `ValidChainSearch`, `HazardSlots` | hazard slots, and the chain of groups that a scan walks |
| `TlsModel`, `TlsProof`, `TlsTheorems`, `TlsCalls`, `TlsArrays` | keys, cells, key release against thread exit; the arrays behind them |
| `SlotLayout`, `SizeClasses`, `PackedWord`, `SlotList`, `Gmem` | the small-memory allocator up to `gmem_allocate` and `gmem_deallocate` |
| `RetrievedSlots`, `BigCache` | slots that were given back; the byte-bounded cache of big blocks |
| `BumpChamber`, `MmapTrim` | the allocate-only chamber and the trimmed mapping underneath |

Four findings, where the code does not do what its comments or names say:

- `push_front` of the queue does not always put its value first: after it has seen an empty
  queue it links behind the current tail without looking at the head again, so a
  `push_back` that comes between is ahead of it.  `FifoPushFront.FrontExactly` says when it
  is first, and `FifoPushFront.NotAlwaysFirst` gives a run in which it is not.
- `merge_push_back` of a bare chain of nodes counts the links of the chain instead of its
  nodes, so that the list's count is one too small unless the chain is empty
  (`SimpleList.List.MergePushBackNodes`).
- The address that `gmem_allocate` returns for an alignment above eight is eight bytes past
  a multiple of the alignment, unless the data area of the slot happens to be aligned
  (`SlotLayout.AlignedExactly`).  Blocks are always aligned to eight.
- Both result lines in the comment of `try_set_mark` describe a failure.  The model follows
  the code: the result is true if and only if this call set the mark.

## Model

| member | source | states |
|---|---|---|
| `FifoTheorems.FifoIsLinearizable` | libalconcurrent/src/od_lockfree_fifo.cpp:81-240 | Every run from an empty queue is the run of a sequential queue: each successful link appends one element, each head CAS of a pop removes exactly the front one, each head CAS of a push_front prepends one, and an empty answer falls on an instant at which the queue was empty. |
| `FifoTheorems.RunIsSequential` | libalconcurrent/src/od_lockfree_fifo.cpp:81-240 | The same from any state that keeps the invariant: the recorded events replayed on the queue before give the queue after. |
| `FifoSystem.StepRefines` | libalconcurrent/src/od_lockfree_fifo.cpp:81-240 | One instruction of one thread changes the queue as its event says, and not at all without an event. |
| `FifoSystem.StepKeepsInv` | libalconcurrent/src/od_lockfree_fifo.cpp:81-240 | Every step of every interleaving, with recycling, keeps the shape of the chain and what each thread knows from its verified hazard slots. |
| `FifoTheorems.HeadReachesTail` | libalconcurrent/src/od_lockfree_fifo.cpp:88-110 | In every reachable state the links lead from the head to the tail, the tail is the last node or one link before it, and the last link is null. |
| `FifoTheorems.ActsOnce` | libalconcurrent/src/od_lockfree_fifo.cpp:81-240 | A call has its effect on the queue at most once. |
| `FifoTheorems.ReturnsWhatItDid` | libalconcurrent/src/od_lockfree_fifo.cpp:118-168 | What a call returns is what its own event did: the value taken, or nothing after it met the queue empty. |
| `FifoTheorems.RunConserves` | libalconcurrent/inc/alconcurrent/lf_fifo.hpp:121-133 | Over every run, as multisets: values pushed are values picked up, values queued and values whose head CAS has won but that are not yet read. |
| `FifoTheorems.HandOff` | libalconcurrent/src/od_lockfree_fifo.cpp:147-163 | The node whose value a popper has won keeps the value, and cannot be given to anybody, until the popper has read it, whatever any other thread does. |
| `FifoTheorems.RecycledIsUnprotected` | libalconcurrent/inc/alconcurrent/internal/od_node_pool.hpp:127-175 | A node that the pool can give away is in no verified hazard slot, not in the chain and in no call's hands. |
| `FifoPushFront.FrontExactly` | libalconcurrent/src/od_lockfree_fifo.cpp:170-240 | The node that push_front links comes first if and only if the head CAS linked it or the queue was empty at the tail CAS; when it may take the tail CAS at all is `FifoAlone.AppendedFrontSawEmpty`. |
| `FifoPushFront.NotAlwaysFirst` | libalconcurrent/src/od_lockfree_fifo.cpp:185-206 | A run from the empty queue in which the value of a push_front ends up behind that of a push_back. |
| `FifoAlone.AppendedFrontSawEmpty` | libalconcurrent/src/od_lockfree_fifo.cpp:185-217 | Over every run: if a push_front links at the tail, the queue was empty at some instant since the call began. |
| `FifoAlone.PushFrontAlone` | libalconcurrent/src/od_lockfree_fifo.cpp:170-240 | A push_front that runs alone, from any state that the invariant allows and with any lag of the tail, ends within 62 instructions and turns the queue q into [v] + q; other threads are as before. |
| `FifoAlone.PushBackAlone` | libalconcurrent/src/od_lockfree_fifo.cpp:81-116 | A push_back that runs alone ends within 62 instructions and turns q into q + [v], also when the weak CAS on the tail fails. |
| `FifoAlone.PopAlone` | libalconcurrent/src/od_lockfree_fifo.cpp:118-168 | A pop_front that runs alone ends within 62 instructions, returns the front value and removes it, and answers nothing if and only if the queue was empty. |
| `FifoThreads.ProtectedStable` | libalconcurrent/inc/alconcurrent/hazard_ptr.hpp:393-417 | While a slot keeps a protected node, no other thread's step takes the protection away or changes a link that was set. |
| `ListTheorems.ListIsLinearizable` | libalconcurrent/src/od_lockfree_list.cpp:84-137 | Every run from an empty list is the run of a sequential list of values. |
| `ListShared.InsertAdds` | libalconcurrent/src/od_lockfree_list.cpp:352-380 | A successful insert CAS adds exactly one element, at the place behind its predecessor. |
| `ListShared.MarkRemoves` | libalconcurrent/src/od_lockfree_list.cpp:402-410 | A successful mark CAS removes exactly the marked element. |
| `ListShared.UnlinkKeepsList` | libalconcurrent/src/od_lockfree_list.cpp:625-632 | A successful unlink CAS leaves the sequence of elements as it was. |
| `ListSystem.StepKeepsInv` | libalconcurrent/src/od_lockfree_list.cpp:84-137 | Every step of every interleaving keeps the chain, the marks and what each thread knows from its verified slots. |
| `ListSystem.StepRefines` | libalconcurrent/src/od_lockfree_list.cpp:352-410 | One instruction changes the sequence of elements as its event says, and not at all without one. |
| `ListTheorems.HistoryConserves` | libalconcurrent/inc/alconcurrent/lf_list.hpp:483-519 | In every legal history, as multisets: elements before and values inserted are elements after and values removed. |
| `ListTheorems.RecordsItsEvent` | libalconcurrent/inc/alconcurrent/lf_list.hpp:483-519 | Any call but remove_all_if acts on the list at most once, and what it keeps for its answer is that act. |
| `ListTheorems.ReturnsWhatItDid` | libalconcurrent/inc/alconcurrent/lf_list.hpp:382-416 | A pop returns the value it removed or nothing after it met the list empty; an insert has inserted its value once; remove_all_if returns the number of its marks. |
| `ListTheorems.PushFrontIsFirst` | libalconcurrent/src/od_lockfree_list.cpp:352-369 | A successful push_front puts the value at position zero. |
| `ListTheorems.PushBackIsLast` | libalconcurrent/src/od_lockfree_list.cpp:371-380 | A successful push_back puts the value behind every element. |
| `ListTheorems.PopBackTakesLast` | libalconcurrent/src/od_lockfree_list.cpp:454-497 | A successful pop_back removes the element that is last at its marking CAS. |
| `ListTheorems.PopFrontWasFirst` | libalconcurrent/src/od_lockfree_list.cpp:412-452 | The node that pop_front marks was the first element at some instant of the call. |
| `ListTheorems.InsertsBeforeFound` | libalconcurrent/inc/alconcurrent/lf_list.hpp:494-500 | insert puts its node directly between the two nodes that the search returned; the second satisfies the predicate unless it is the end or was marked meanwhile; that the search does not miss an element is `ListSearch.InsertsNotBehind` and `ListAlone.CallAlone`. |
| `ListTheorems.RemovesOnlyWanted` | libalconcurrent/inc/alconcurrent/lf_list.hpp:147-165 | remove_one_if and remove_all_if remove only values that satisfy the predicate; that they remove what is there is `ListSearch.RemoveOneFinds`, `ListSearch.RemoveAllGoesOn` and `ListAlone.CallAlone`. |
| `ListSearch.RemoveOneFinds` | libalconcurrent/inc/alconcurrent/lf_list.hpp:506-519 | Over every run: while one element that satisfies the predicate stays in the list unmarked, remove_one_if does not answer nothing, whatever the others insert, mark and unlink. |
| `ListSearch.RemoveAllGoesOn` | libalconcurrent/inc/alconcurrent/lf_list.hpp:147-165 | Over every run: while such an element stays, remove_all_if does not end. |
| `ListSearch.InsertsNotBehind` | libalconcurrent/inc/alconcurrent/lf_list.hpp:494-500 | Over every run: while such an element stays, insert puts its value at a position not behind it. |
| `ListSearch.OrderStable` | libalconcurrent/src/od_lockfree_list.cpp:84-137 | No effect of anybody changes the order of two linked nodes, and a node that a thread holds does not come back behind another one. |
| `ListAlone.CallAlone` | libalconcurrent/src/od_lockfree_list.cpp:84-137 | A call that runs alone on the list q, from any state and with any marked nodes still linked, can always go on until it ends; then push_front gives [v] + q, push_back q + [v], insert puts v before the first wanted element or at the end, the pops take the ends of q or answer nothing for an empty q, remove_one_if takes the first wanted element and answers nothing if and only if there is none, and remove_all_if leaves exactly the unwanted elements and answers how many it removed. |
| `ListAlone.CallAloneEnds` | libalconcurrent/src/od_lockfree_list.cpp:84-137 | Each of the seven calls ends when it runs alone: nodes to unlink, elements to remove and nodes to pass run out. |
| `ListRecycling.ElementsAreReachable` | libalconcurrent/src/od_lockfree_list.cpp:84-137 | In every reachable state the links from the head lead through exactly the linked nodes; every node that was inserted, is unmarked and is not recycled is among them, and the elements read along the links are the list. |
| `ListRecycling.PathExists` | libalconcurrent/src/od_lockfree_list.cpp:84-137 | In every reachable state the links lead from the head to the sentinel. |
| `ListRecycling.MarkedIsFrozen` | libalconcurrent/inc/alconcurrent/internal/od_node_essence.hpp:198-237 | No step changes mark or link of a marked node before the pool hands it out again. |
| `ListRecycling.TurnsBalance` | libalconcurrent/src/od_lockfree_list.cpp:114-123 | Over every run each node is given to the pool as often as it was inserted, up to once: never twice for one insertion. |
| `ListRecycling.GivenIsUnreachable` | libalconcurrent/src/od_lockfree_list.cpp:382-400 | A node is given to the pool only when it is marked and not reachable from the head, and by one thread only. |
| `ListRecycling.HandOff` | libalconcurrent/inc/alconcurrent/lf_list.hpp:382-416 | The value of a claimed node stays in it, and the node is given to nobody, until the claimer has read it. |
| `ListRecycling.RecycledIsUnprotected` | libalconcurrent/inc/alconcurrent/lf_list.hpp:452-458 | A node that the pool can give away is in no verified hazard slot, not in the chain and in no call's hands. |
| `ListRecycling.RemoveAllCounts` | libalconcurrent/inc/alconcurrent/lf_list.hpp:147-165 | Over the whole call remove_all_if returns the number of nodes that it has marked itself; that these are all the wanted ones, when it runs alone, is `ListAlone.CallAlone`. |
| `MarkedLink.RoundTrip` | libalconcurrent/inc/alconcurrent/hazard_ptr.hpp:956-1014 | Pointer and mark come back from the packed word if and only if the pointer leaves the lowest bit free; otherwise the link reads as marked. |
| `MarkedLink.ZipIsInjective` | libalconcurrent/inc/alconcurrent/hazard_ptr.hpp:956-1014 | Comparing two words compares both the pointers and the marks. |
| `LockfreeStack.PopInstallsSuccessor` | libalconcurrent/src/od_lockfree_stack.cpp:78-94 | When the head CAS of a pop succeeds, the pointer it installs is the successor of the popped node at that instant, although popped nodes go to users without a scan. |
| `LockfreeStack.StackIsLinearizable` | libalconcurrent/src/od_lockfree_stack.cpp:53-105 | Every run, with nodes overwritten and pushed again by their users, is the run of a sequential stack. |
| `LockfreeStack.StepKeepsInv` | libalconcurrent/src/od_lockfree_stack.cpp:53-105 | Every step of every interleaving keeps the chain below the head and what the verified slots protect. |
| `LockfreeStack.LeavesForGood` | libalconcurrent/inc/alconcurrent/internal/od_node_pool.hpp:127-175 | A node in a verified slot that has left the stack does not come back while the slot keeps it. |
| `StackAlone.CallAlone` | libalconcurrent/src/od_lockfree_stack.cpp:53-105 | A call that runs alone from any state takes at most five instructions; a push has put its node on top, a pop has taken the top node, or null if and only if there was none. |
| `SimpleList.List.SplitIf` | libalconcurrent/src/od_simple_list.cpp:210-257 | A stable partition: the nodes that satisfy the predicate go to the answer, the others stay, both in order, with head, tail and count right and all other links untouched. |
| `SimpleList.KeepSplits` | libalconcurrent/src/od_simple_list.cpp:210-257 | The two parts of the partition are together the list that was split. |
| `SimpleList.KeepMembers` | libalconcurrent/src/od_simple_list.cpp:210-257 | A node is in a part if and only if it is in the list and the predicate says so. |
| `SimpleList.List.MergePushBack` | libalconcurrent/src/od_simple_list.cpp:157-170 | The other list is appended and left empty; head, tail and count are right. |
| `SimpleList.List.MergePushFront` | libalconcurrent/src/od_simple_list.cpp:125-138 | The other list is put in front and left empty; head, tail and count are right. |
| `SimpleList.List.MergePushBackNodes` | libalconcurrent/src/od_simple_list.cpp:172-187 | The chain is appended, and the count is right if and only if the chain is empty. |
| `SimpleList.List.PushBack` | libalconcurrent/src/od_simple_list.cpp:105-123 | The node becomes the last one. |
| `SimpleList.List.PopFront` | libalconcurrent/src/od_simple_list.cpp:189-203 | The first node comes out with its link cleared, or null exactly from an empty list. |
| `NodePool.ScanSplits` | libalconcurrent/inc/alconcurrent/internal/od_node_pool.hpp:498-511 | A scan with any sequence of reported pointers loses no node, and what it puts aside was reported. |
| `NodePool.Pool.Push` | libalconcurrent/inc/alconcurrent/internal/od_node_pool.hpp:127-176 | For any hazard set and lock outcome the node is afterwards in the pool once more than before, no other node is lost, nothing becomes reusable that a slot holds, and without the lock the shared lists stay as they are. |
| `NodePool.Pool.Pop` | libalconcurrent/inc/alconcurrent/internal/od_node_pool.hpp:178-250 | The result leaves the pool once and nothing else changes hands; it was clean or was found in no slot by a scan of this call; without a result no list that could be used had a free node; without the lock the shared lists stay as they are. |
| `NodePool.Pool.TryPopStill` | libalconcurrent/inc/alconcurrent/internal/od_node_pool.hpp:481-521 | The drain moves exactly the nodes without hazard, the first to the caller and the others to the clean list in order. |
| `HazardRegistry.ScanIsComplete` | libalconcurrent/src/hazard_ptr.cpp:586-606 | A scan visits every group that was in the chain when it loaded the top and is not marked before it ends, whatever is registered, marked or unlinked meanwhile and even while it stands on an unlinked group. |
| `HazardRegistry.StepKeepsInv` | libalconcurrent/src/hazard_ptr.cpp:190-312 | Every step of every interleaving of registrations, removals, searches and scans keeps the chain and what each thread counts on. |
| `HazardRegistry.RemovedIsGone` | libalconcurrent/src/hazard_ptr.cpp:213-254 | When a thread gives its group back, the group is marked and cannot be reached from the top, and none of the error exits was taken. |
| `HazardRegistry.GoneForever` | libalconcurrent/src/hazard_ptr.cpp:228-243 | A group that has left the chain is not reached from the top again in any later state. |
| `HazardRegistry.RegisteredIsReachable` | libalconcurrent/src/hazard_ptr.cpp:190-212 | A registered group without a mark can be reached from the top, and so is seen by a scan that starts now. |
| `RegistryCalls.RegistrationIsDone` | libalconcurrent/src/hazard_ptr.cpp:190-212 | Over every run: when a registration has returned, and until its owner removes it, the group is in the chain, unmarked and reachable from the top. |
| `RegistryCalls.RemovalIsDone` | libalconcurrent/src/hazard_ptr.cpp:213-254 | Over every run: when a removal has returned, the group is marked and out of reach, and stays so. |
| `RegistryCalls.ScanIsDone` | libalconcurrent/src/hazard_ptr.cpp:586-606 | Over every run: when a scan has returned, it has visited every group that was in the chain when the call began and is not marked. |
| `RegistryCalls.ReturnsAlone` | libalconcurrent/src/hazard_ptr.cpp:190-312 | A registration, a removal or a scan that runs alone returns, whatever marked groups stand in the chain. |
| `HazardChain.UnlinkCuts` | libalconcurrent/src/hazard_ptr.cpp:279-287 | After the unlink CAS nothing that leads to the predecessor leads to the unlinked group. |
| `HazardChain.AheadStable` | libalconcurrent/src/hazard_ptr.cpp:586-606 | What lies ahead of a scan stays ahead of it under every effect of another thread, unless it gets marked. |
| `ValidChainSearch.IsInValidChain` | libalconcurrent/src/hazard_ptr.cpp:255-312 | Without interference, for any chain with any marks: it ends, is true exactly if the group is present and unmarked, keeps the unmarked groups in order and all writer counts, and leaves no marked group when it fails. |
| `ValidChainSearch.Turn` | libalconcurrent/src/hazard_ptr.cpp:278-304 | One turn unlinks the marked group under the accessor, recognises the group or passes it; the unmarked groups stay the same. |
| `ValidChainSearch.TwinAccessor.Shift` | libalconcurrent/src/hazard_ptr_impl.hpp:189-199 | The current group becomes the predecessor, and each group counts exactly the accessors that stand on it. |
| `HazardSlots.Group.TryAssign` | libalconcurrent/src/hazard_ptr.cpp:60-124 | The pointer goes to the first free slot at or after the hint, going round; it fails exactly when all slots are taken. |
| `HazardSlots.BindList.SlotAssign` | libalconcurrent/src/hazard_ptr.cpp:473-511 | The pointer goes to the first group with a free slot, a new group is added only when all are full, null is published as a mark, and every other slot keeps its pointer. |
| `HazardSlots.Group.Holds` | libalconcurrent/src/hazard_ptr.cpp:146-171 | True if and only if some slot holds the pointer; null is never held. |
| `HazardSlots.Group.Scan` | libalconcurrent/src/hazard_ptr.cpp:173-182 | The callback gets exactly the published pointers, in slot order. |
| `TlsTheorems.TlsIsSafe` | libalconcurrent/src/dynamic_tls.cpp:170-312 | Every run is a run of a table of live values: a deallocator gets the value the cell has then, a get returns the live value, and a key or a head is free again only when the table has nothing under it. |
| `TlsTheorems.ExactlyOnce` | libalconcurrent/src/dynamic_tls.cpp:254-312 | A cell is destroyed as often as it was initialized, up to the one time it may be in use at the end, by thread exit and key release together. |
| `TlsTheorems.StepRefines` | libalconcurrent/src/dynamic_tls.cpp:170-312 | One instruction changes the table of live values as its event says, and not at all without one. |
| `TlsTheorems.UnusedKeyIsClear` | libalconcurrent/src/dynamic_tls.cpp:1371-1449 | A key that is not in use has no initialized cell in any thread. |
| `TlsTheorems.DropsUnderItsKey` | libalconcurrent/src/dynamic_tls.cpp:254-312 | A deallocator runs for the same allocation of the key for which the cell was initialized. |
| `TlsTheorems.FirstGetIsFresh` | libalconcurrent/src/dynamic_tls.cpp:170-192 | With an allocator the first get of a thread stores and returns what the allocator made, whatever an earlier key left in the cell. |
| `TlsTheorems.NoUnexpectedState` | libalconcurrent/src/dynamic_tls.cpp:183-231 | get and set never meet a cell that is being destroyed. |
| `TlsCalls.DoesItsDuty` | libalconcurrent/src/dynamic_tls.cpp:170-312 | Over every run, when a call has returned: set_tls has put its argument into the table, get_tls has answered from its cell or stored a first value there, release_key has freed its key and a thread exit its head, with all that the table requires of these events. |
| `TlsCalls.KeyIsHandedOut` | libalconcurrent/src/dynamic_tls.cpp:660-689 | Over every run: when allocate_key has returned, its key was handed out, in use and with the allocator and deallocator that were asked for. |
| `TlsCalls.CallReturns` | libalconcurrent/src/dynamic_tls.cpp:992-1040 | Every call returns when nobody else runs and nobody else holds the lock. |
| `TlsProof.StepKeepsInv` | libalconcurrent/src/dynamic_tls.cpp:992-1040 | Every step of key creation, release, access, thread exit and head reuse keeps the states of keys and cells consistent. |
| `TlsArrays.KeyManager.AllocateKey` | libalconcurrent/src/dynamic_tls.cpp:727-739 | The key that is handed out was unused, it is the only one that changes, and a new array is added only when every key of every array is in use. |
| `TlsArrays.KeyArray.AllocateKey` | libalconcurrent/src/dynamic_tls.cpp:660-689 | The ring search from the hint finds an unused key if the counter shows one, and fails exactly when none is left. |
| `TlsArrays.KeyArray.ReleaseKey` | libalconcurrent/src/dynamic_tls.cpp:1371-1449 | Only a key of this array that is in use is released; then it is unused, the counter shows it, and no other key changes. |
| `TlsArrays.ContentHead.Search` | libalconcurrent/src/dynamic_tls.cpp:460-504 | The array that covers the key's index is found, or added in front without touching the others. |
| `TlsArrays.OneCellPerKey` | libalconcurrent/src/dynamic_tls.cpp:427-438 | Two different keys never share a cell of a thread. |
| `SlotLayout.SlotsTile` | libalconcurrent/src_mem/mem_small_memory_slot.hpp:283-324 | For every aligned base and every sufficient buffer at least one slot exists, the slots end inside of the buffer, and less than one slot is left over. |
| `SlotLayout.SlotsFollow` | libalconcurrent/src_mem/mem_small_memory_slot.hpp:152-171 | Slots are aligned to eight and follow one another without overlap or gap. |
| `SlotLayout.IndexIsExact` | libalconcurrent/src_mem/mem_small_memory_slot.hpp:133-142 | An address has index i if and only if it is one of the bytes of slot i. |
| `SlotLayout.BlockInSlot` | libalconcurrent/src_mem/mem_small_memory_slot.hpp:65-84 | For every size and power-of-two alignment the block and its header, displaced or not, lie in the slot, behind the slot's own header and before its last bytes. |
| `SlotLayout.AlignedExactly` | libalconcurrent/src_mem/mem_small_memory_slot.hpp:65-84 | The returned address has the requested alignment if and only if the slot's data area has it; otherwise it is eight past. |
| `SlotLayout.OverflowIsExact` | libalconcurrent/src_mem/mem_gmem_allocator.cpp:215-222 | In 64-bit arithmetic the test finds exactly the requests whose size does not fit. |
| `SizeClasses.EntryIsExact` | libalconcurrent/src_mem/mem_gmem_allocator.cpp:160-195 | Against all 128 table entries: a class is large enough if and only if it does not come before the computed entry, and requests beyond the table have none. |
| `SizeClasses.TableIs` | libalconcurrent/src_mem/mem_gmem_allocator.cpp:26-158 | The table entries follow the stepped pattern that the index formula assumes. |
| `PackedWord.RoundTrip` | libalconcurrent/src_mem/mem_allocated_mem_top.hpp:103-111 | An aligned manager address, the memory type and the used flag come back from the packed word. |
| `PackedWord.Word.FetchSet` | libalconcurrent/src_mem/mem_allocated_mem_top.hpp:129-143 | Returns the flag that was there, sets the new one and leaves address and type. |
| `PackedWord.Word.CompareAndExchangeUsed` | libalconcurrent/src_mem/mem_allocated_mem_top.hpp:158-169 | Succeeds if and only if the flag was the expected one, reports it otherwise, and leaves address and type. |
| `PackedWord.Word.StoreAddr` | libalconcurrent/src_mem/mem_allocated_mem_top.hpp:113-127 | Replaces the address and keeps type and flag. |
| `SlotList.List.Allocate` | libalconcurrent/src_mem/mem_small_memory_slot.cpp:64-125 | With a slot that the manager of given-back slots offers, that one; else a slot that was never assigned, from the open head group; no slot if and only if none is offered and every slot of every group has been assigned; no other slot changes. |
| `SlotList.List.FindOpen` | libalconcurrent/src_mem/mem_small_memory_slot.cpp:78-122 | The search with the two cursors ends, and finds an open group if and only if the head group is open. |
| `SlotList.List.RequestGroup` | libalconcurrent/src_mem/mem_small_memory_slot.cpp:180-200 | After a failed allocation a new group is put in front, it is the only one that is not full, and the size of the next group doubles up to the limit and never beyond it. |
| `SlotList.List.AssignNewSlot` | libalconcurrent/src_mem/mem_small_memory_slot.hpp:180-202 | The next slot of the group belongs to no assigned slot of any group. |
| `SlotList.List.Deallocate` | libalconcurrent/src_mem/mem_small_memory_slot.cpp:127-178 | True exactly for a slot in use; a second call before it is used again returns false and changes nothing. |
| `Gmem.Allocator.Allocate` | libalconcurrent/src_mem/mem_gmem_allocator.cpp:210-239 | A block is placed in a slot without a live block and no other block changes; it comes from the first class that is large enough and not exhausted, where exhausted means that no given-back slot is offered, every slot of every group was assigned and no new group can be had; a request fails only if its size overflows or every class that is large enough is exhausted; an alignment that is no power of two is refused. |
| `Gmem.Serve` | libalconcurrent/src_mem/mem_gmem_allocator.cpp:226-236 | One class is asked, grown by a group if it was full, and asked again: it answers no slot if and only if it was exhausted, and takes what the first attempt offers. |
| `Gmem.Allocator.Deallocate` | libalconcurrent/src_mem/mem_gmem_allocator.cpp:274-301 | The pointer leads back to the slot it came from; true exactly if its block is live, so a second free before reuse is false; no other block changes. |
| `Gmem.Allocator.LeadsBack` | libalconcurrent/src_mem/mem_gmem_allocator.cpp:283-293 | At every point of a run the word in front of a block and the block's address give the slot's group and index, also through a displaced header. |
| `Gmem.Allocator.BlocksDiffer` | libalconcurrent/src_mem/mem_gmem_allocator.cpp:210-239 | At every point of a run the blocks of two slots, with their headers, share no byte and start at multiples of eight. |
| `Gmem.Allocator.MaxAllocatable` | libalconcurrent/src_mem/mem_gmem_allocator.cpp:315-337 | The answer reaches from the block to the next slot and exceeds what was asked for. |
| `Gmem.SlotsApart` | libalconcurrent/src_mem/mem_small_memory_slot.hpp:152-171 | Two slots of whatever groups and classes do not overlap. |
| `RetrievedSlots.Stack.Merge` | libalconcurrent/src_mem/mem_retrieved_slot_array_mgr.hpp:66-84 | The other stack is put in front and left empty; head and count are right. |
| `RetrievedSlots.Stack.Push` | libalconcurrent/src_mem/mem_retrieved_slot_array_mgr.hpp:43-51 | The slot becomes the top; null changes nothing. |
| `RetrievedSlots.Manager.RequestReuse` | libalconcurrent/src_mem/mem_retrieved_slot_array_mgr.hpp:341-383 | For any hazard set and outcome of the attempts: the result leaves the stacks once and nothing else, the whole new state is stated, and a slot comes back only if no hazard slot held it when it was last returned or none holds it now. |
| `RetrievedSlots.Manager.Retrieve` | libalconcurrent/src_mem/mem_retrieved_slot_array_mgr.hpp:312-339 | The slot is in the stacks once more: put aside if a hazard slot holds it, else pushed to the thread's stack or the shared one; everything in the stacks without a check was seen in no hazard slot when it was last returned. |
| `RetrievedSlots.Manager.Exit` | libalconcurrent/src_mem/mem_retrieved_slot_array_mgr.hpp:276-301 | At the end of a thread the slots it had put aside go in front of the locked ones and its other slots, in reverse order, in front of the shared ones; none is lost, and a slot that was put aside does not get into a stack without a check. |
| `BigCache.Cache.ReuseAllocate` | libalconcurrent/src_mem/mem_big_memory_slot.cpp:35-77 | The loop ends; it finds a slot whenever the thread's own stack of slots without hazard has one that fits; a reused slot was cached, is large enough and was in no hazard slot when it was returned or is in none now, every other candidate is cached as before, and the byte counter falls by its size. |
| `BigCache.Cache.Deallocate` | libalconcurrent/src_mem/mem_big_memory_slot.cpp:79-138 | False exactly for null and a slot not in use; the memory is unmapped if and only if it is very large or would exceed the limit; the counter stays the sum of what is cached and within the limit. |
| `BigCache.Cache.AllocateNewly` | libalconcurrent/src_mem/mem_big_memory_slot.cpp:140-158 | The new slot is in use, has the size of its mapping, which is large enough, and is marked as very large exactly if its size is; the counter and all other slots stay. |
| `BigCache.BlockInBigSlot` | libalconcurrent/src_mem/mem_big_memory_slot.hpp:72-91 | For every size and power-of-two alignment the block lies in its mapping, behind the header. |
| `BumpChamber.StepKeepsInv` | libalconcurrent/src_mem/alloc_only_allocator.cpp:491-533 | Every step of every interleaving of allocations keeps the rooms tiling the chamber from the initial offset to the offset. |
| `BumpChamber.RunKeepsInv` | libalconcurrent/src_mem/alloc_only_allocator.cpp:491-533 | Over every run rooms are only added behind the others, and the offset never falls. |
| `BumpChamber.RoomsApart` | libalconcurrent/src_mem/alloc_only_allocator.cpp:491-533 | Two rooms do not overlap. |
| `BumpChamber.MemoryInRoom` | libalconcurrent/src_mem/alloc_only_allocator.cpp:154-213 | The memory has the requested alignment; border and header lie in front of it and the tail byte behind it, inside of its own room. |
| `BumpChamber.MemoryApart` | libalconcurrent/src_mem/alloc_only_allocator.cpp:491-533 | The memory of two rooms does not overlap, which is what `Gmem` requires of the memory for a new slot group. |
| `BumpChamber.GivesUpRightly` | libalconcurrent/src_mem/alloc_only_allocator.cpp:497-515 | A round of the loop returns null only if at that step there is no place: no address behind the offset and the border with the requested alignment, together with a multiple of the room unit behind the bytes and inside of the chamber.  With the current offset it wins a room if and only if there is a place; with an old one it looks again. |
| `BumpChamber.PlaceExactly` | libalconcurrent/src_mem/alloc_only_allocator.cpp:497-510 | The test of the code for no space holds if and only if there is no place in that sense. |
| `BumpChamber.AloneAllocates` | libalconcurrent/src_mem/alloc_only_allocator.cpp:491-533 | A call that runs alone writes one room for the bytes asked for at the offset if there is a place, and otherwise returns null and changes nothing. |
| `BumpChamber.WalkVisitsAll` | libalconcurrent/src_mem/alloc_only_allocator.cpp:334-342 | Without a call under way the walk over the chopped sizes visits every room once, in order, and ends at the offset. |
| `BumpChamber.SearchFinds` | libalconcurrent/src_mem/alloc_only_allocator.cpp:535-546 | The room found for an address is the one whose memory contains it, and none is found exactly if there is none. |
| `BumpChamber.EndInWord` | libalconcurrent/src_mem/alloc_only_allocator.cpp:497-510 | For bounded requests no computed address leaves the 64-bit word. |
| `MmapTrim.TrimPartitions` | libalconcurrent/src_mem/mmap_allocator.cpp:52-120 | For every size, power-of-two alignment and page-aligned mapping the three pieces make up the mapping with no underflow; the kept one starts at the first multiple of the alignment and is large enough by less than a page; what was mapped exceeds it by the alignment less a page and no more. |
| `MmapTrim.AllocateByMmap` | libalconcurrent/src_mem/mmap_allocator.cpp:85-165 | It fails exactly for a too large request or a failed mapping; the kept piece is aligned and large enough, and exactly the rest is unmapped. |
| `MmapTrim.EveryByteOnce` | libalconcurrent/src_mem/mmap_allocator.cpp:112-151 | Every byte of the mapping is kept or unmapped, not both, and no other byte is touched. |

## Left out

- Weak memory: every load, store and compare-and-exchange is one step of a sequentially consistent memory.
- Values of the containers are integers, and a predicate of the list is the set of the values it accepts; moving and copying of values, exceptions of user code and element types are not modelled.
- The list's `clear`, move and `swap`, and `for_each`, the const `find_if` and `count_size` while nodes are removed: they walk through marked or popped nodes, and `swap` is documented as not thread-safe.
- Registering a hazard group again after its removal while an old search may still write its link: groups are registered once in `HazardRegistry`.
- A thread's groups beyond its first one in the scan of `HazardRegistry`; `HazardSlots` covers the slots of all of them.
- Thread-local storage with a null allocator, deallocators that use it themselves, use of a key during its release, and releasing a key a second time after it was handed out again: the header forbids them.
- The three stores of an allocated key (parameter, allocator, deallocator) are two steps in `TlsModel`.
- SlotList.List.Allocate: which of the slots that were given back is offered is a parameter, because the manager decides by hazards and by whether its attempts succeed; `RetrievedSlots` models the manager.
- RegistryCalls.ReturnsAlone: weak compare-and-exchanges that fail without a reason are left out there, because a call in which they always fail does not return.
- SlotList.List.RequestGroup: requires a preceding allocation that failed, as its only caller has it; adding groups at other times, and limits below one slot, are not covered.
- Gmem.Allocator.Allocate: requests beyond the size classes end in failure here, because the big-block path is modelled by itself in `BigCache`; the used flag in a displaced copy of the header, which nothing reads, is not kept.
- Gmem.Allocator.Deallocate: pointers that never came from the allocator, or whose slot has been handed out again, are not covered, because the code reads whatever stands in front of them.
- Concurrent calls of the small-block and big-block allocators: `SlotList`, `Gmem` and `BigCache` follow one thread; the lock-free stack between threads is `LockfreeStack`.
- The lists of `NodePool` and the stacks of `RetrievedSlots.Manager` are sequences; that the linked lists behave so is what `SimpleList.List` and `RetrievedSlots.Stack` prove, and sharing of nodes between them is not modelled there.
- BumpChamber.StepKeepsInv: requests near the top of the address range are excluded by a bound on size and alignment, because the overflow test of the code does not catch all of them; the list of chambers and marking memory as freed are not modelled.
- `mmap` and `munmap` themselves, the totals of mapped bytes, logging, backtraces, profiling counters, destructors, `operator new` and `operator delete`, and the functions that exist for tests.
