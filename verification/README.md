# Four concurrency labs, modelled and proved

The repository holds four labs in C and C++: a matrix product whose rows are
split between threads, three spin locks, a lock-free stack with hazard pointers
and a lock-free skip list with epoch-based reclamation, the last three with a
benchmark each. This project models their shared-memory protocols and proves
what the benchmarks only probe.

## How the code is modelled

Concurrent code becomes a labelled transition system. A `State` holds the shared
memory and one program counter per thread, a step is one access to shared
memory by one thread, and a run is any interleaving of steps; every theorem
about runs is for all of them, of any length, and nearly all for any number of
threads within the stated limit. Memory is sequentially consistent: this is an
assumption, the code itself uses weaker orders in many places. Integer widths
are written out where the code depends on them (16-bit tickets, `unsigned`
counters and keys, `char` log cells, epochs modulo 4).

Code that works on the data structure alone becomes a class whose methods
change its fields, with the memory as a map from addresses to nodes so that
every access has to be to memory that is still allocated.

- `StackMachine` is `stack_push`, `stack_pop`, slot claiming and cleanup, the
  reclaim list and the reclaim pass, one access at a time. `malloc` may hand out
  a freed address again and returns garbage, the weak CAS of the reclaim list may
  fail spuriously and writes the actual head into `node->next` when it fails.
  Touching freed memory, freeing twice or using a missing hazard slot raises
  `fault`. `NodeOwnership` and `HazardSlots` are reasoning about node ownership and
  slot ownership for any number of lists and hands; `StackInvariant`, `StackSafety`
  and `StackGuard` the invariant; `AtomicStack` the specification;
  `StackLinearizability` and `StackRetirement` the theorems; `StackBenchmark` the
  client; `StackObject` the reclaim pass, the destructor and a pop as methods.
  `StackLaw` and `StackAnswers` say what a stack is by its calls and answers alone,
  `StackReclaim` and `StackFreed` what the reclaim pass frees, `StackProgress` that no
  thread waits for another.
- `SpinLocks` is the three locks with the counter benchmark as their client;
  `SpinLockProofs`, `SpinLockBenchmark` and `SpinLockProgress` the theorems.
- `EpochMachine` is `enter_epoch`, `leave_epoch`, retirement and `reclaim_nodes`;
  `EpochReclamation` keeps unbounded epochs behind the modulo-4 values, and
  `EpochLimits` says when anything is freed at all. `CellClaiming` is the loop of
  `epoch_init` alone, as written.
- `ListMemory`, `ListMachine`, `ListInvariant` and `ListHistory` are the bottom
  level of the skip list with any number of threads on any keys. The levels above
  appear as the places a search may come down from: any tower with a smaller key
  that has been linked. `ListOwnership`, `ListLinearizability` and `ListBenchmark`
  add the discipline the benchmark keeps, each key being used by one thread, and
  prove results correct; `ListSharing` shows that the discipline is needed. The epoch
  protocol needs two things of the list: that towers are retired once, which
  `ListRetirement` proves on any keys, and that they are unlinked by then, which
  holds exactly if no key is shared (`ListSharing.UnlinkedExactly`).
- `IndexMachine` is the skip list with all 16 levels, any number of threads and
  one access per step: the descent with its tables, linking and marking level by
  level, the searches that unlink. `IndexInvariant`, `IndexSteps` and
  `IndexRefinement` show that with owned keys the bottom level of each of its runs
  is an owned run of `ListMachine`, where its searches come down included;
  `IndexLinearizability` and `IndexBenchmark` are the theorems without that
  assumption. `IndexLevels` shows that each level is a list of its own, over
  `ListChanges`, `IndexUnlinking` that a retired tower is off all of them, and
  `IndexProgress`, over `ListDistance`, that a thread finishes its operation alone.
- `ReclaimedSkipList` runs `IndexMachine` and `EpochMachine` as one machine, whose
  retired towers are really freed: there the skip list is proved linearizable and
  free of uses after free, with nothing assumed but that no key is shared and that
  each thread has its own cell.
- `SkipListLevels`, `SkipListChanges` and `SkipListObject` are the whole
  multi-level skip list, used by one thread at a time, as a class that refines a
  map. `AtomicMap` is the one specification of both the concurrent list and the
  class; `MapLaw`, `ListAnswers`, `IndexAnswers` and `SkipListAnswers` say what is
  answered without it.
- `MatrixProduct` is the row split, the methods of the program and the workers
  running at once, over any scalar type with any addition and multiplication.
  `MatrixTerms` reads off from a run on symbols which products are added, in which
  order.

Where the code does not keep what it seems to promise, the model follows the
code and a lemma says exactly when it does:

- the stack is free of undefined behaviour in all runs if and only if there are at
  most 64 threads (`StackLimits.ThreadLimitExact`);
- the ticket lock excludes if and only if there are at most 65536
  (`SpinLockProofs.TicketLockExact`); it spins with `TTAS_CYCLES_TO_SPIN`, and its own
  `TICKET_CYCLES_TO_SPIN` is not used (lab2/SpinLocks.c:150-171);
- with one cell for each thread, the epoch protocol frees nothing if and only if
  there are fewer than 256 threads (`EpochLimits.FreesExactly`);
- the loop that claims the cells never claims one with an odd number, because a
  failed CAS leaves the value it found in `previous`. So it has cells for 128
  threads and no more (`CellClaiming.CapacityExact`), and `reclaim_nodes` never finds all
  cells up to date (`CellClaiming.ScanNeverPasses`);
- the keys of the list stay unique in all runs if and only if no two threads use
  one key (`ListSharing.UniqueExactly`), and on the same condition no tower is retired
  while it is still linked (`ListSharing.UnlinkedExactly`);
- the keys of the skip list benchmark are disjoint exactly if they do not wrap or
  the number of threads divides the range (`ListBenchmark.KeysDisjointExact`).

## Model

| member | source | states |
|---|---|---|
| `StackLinearizability.Linearizable` | lab3/Stack.c:284-397 | every run with at most 64 threads is, with the same calls and results, a run of an atomic stack; push and pop take effect at their successful CAS, an empty pop at the validated NULL read; addresses may be reused |
| `StackLinearizability.Refines` | lab3/Stack.c:306-381 | each step of each thread is a step of the atomic stack, hidden or visible |
| `StackLinearizability.NoUndefinedBehaviour` | lab3/Stack.c:132-185 | no reachable state has touched freed memory, freed twice or used a missing slot |
| `StackLinearizability.HazardSafety` | lab3/Stack.c:350-371 | a node is allocated, and is not the one being freed, while any thread is between validating it as head and its CAS, though slots are scanned one by one |
| `StackLinearizability.NoAba` | lab3/Stack.c:367-368 | when a pop's CAS succeeds, the installed pointer is the popped node's present successor |
| `StackLinearizability.ExactOwnership` | lab3/Stack.c:149-185 | every allocated node is in exactly one place: stack, reclaim list, a list being reclaimed, or one thread's hand |
| `StackRetirement.PoppedOnce` | lab3/Stack.c:367-391 | a node is popped at most once between its `malloc` and its `free`: between two pops of one address that memory has been freed |
| `StackRetirement.OffTillFreed` | lab3/Stack.c:149-185 | from its pop on a node is off the stack, whatever passes, retirements and pushes happen, until it is freed |
| `StackLinearizability.EmptyMeansNull` | lab3/Stack.c:365-378 | the abstract stack is empty exactly when `head` is NULL |
| `StackLinearizability.QuiescentLayout` | lab3/Stack.c:235-240 | between operations all memory is the stack and the reclaim list, each node once: the state the destructor assumes |
| `StackLinearizability.PopTakesEffect` | lab3/Stack.c:367-381 | the successful CAS of a pop takes the top value off the abstract stack and makes it the result |
| `StackLinearizability.PushTakesEffect` | lab3/Stack.c:315-324 | the successful CAS of a push puts its value on top |
| `StackLinearizability.EmptyTakesEffect` | lab3/Stack.c:357-367 | the validated NULL read finds the abstract stack empty |
| `StackLaw.LastInFirstOut` | lab3/Stack.c:306-397 | in every run of the atomic stack a push is acknowledged; a pop answers empty exactly if as many values have been taken as pushed, and otherwise the value of the latest push of which all later ones have been taken and it has not |
| `StackLaw.LatestIsUnique` | lab3/Stack.c:306-397 | there is only one such push |
| `StackLaw.AnswersAreEffects` | lab3/Stack.c:306-397 | every answer is the one with which the thread's last call took effect, between the call and the answer |
| `StackAnswers.PopAnswers` | lab3/Stack.c:333-397 | in every run of the machine `stack_pop` fails exactly if all values pushed before had been taken, and otherwise hands out the latest not taken |
| `StackReclaim.ScanDecides` | lab3/Stack.c:163-185 | whatever the other threads do meanwhile: if one of the pass's looks at the slots has found the node, it goes back on top of the reclaim list; otherwise the pass has looked at each of the 64 slots and the node is freed |
| `StackFreed.NodesAreFreed` | lab3/Stack.c:388-393 | a run is given in which 128 nodes have been popped and are all still allocated, and the pass of the 128th pop frees them all |
| `StackProgress.FinishesAlone` | lab3/Stack.c:306-397 | from every reachable state a thread that runs alone finishes its operation, the reclaim pass included, wherever the others have stopped |
| `StackProgress.FailureMeansProgress` | lab3/Stack.c:315-368 | a CAS on the head fails only if the push or pop of another thread has succeeded since the head was read |
| `StackGuard.StepInv` | lab3/Stack.c:71-397 | every step keeps ownership, slot ownership and, for each thread, the guard of the node its hazard names |
| `StackGuard.GuardOther` | lab3/Stack.c:132-185 | no step of another thread, nor a scan already past the slot, breaks the guard of a validated node |
| `StackSafety.NoFault` | lab3/Stack.c:132-185 | a step from a state that meets the invariant is never undefined |
| `StackSafety.OwnsPop` | lab3/Stack.c:367-381 | the CAS of a pop moves exactly the top node into the popper's hand |
| `StackSafety.OwnsRetire` | lab3/Stack.c:149-161 | the weak CAS moves the node in hand to the reclaim list or leaves it in hand |
| `StackSafety.SlotsStep` | lab3/Stack.c:71-112 | claiming and cleanup keep slots exclusive |
| `StackLimits.ThreadLimitExact` | lab3/Stack.c:83-103 | no run is undefined if and only if there are at most 64 threads; one more dereferences a NULL slot |
| `HazardSlots.ClaimNeverFails` | lab3/Stack.c:83-94 | with at most 64 threads the claiming walk never passes the last slot, though slots change hands meanwhile |
| `HazardSlots.SlotsExclusive` | lab3/Stack.c:88-92 | no two threads own one slot |
| `HazardSlots.ClaimSucceeds` | lab3/Stack.c:88-92 | the CAS on a free slot keeps the slot invariant |
| `HazardSlots.ReleaseSlot` | lab3/Stack.c:105-112 | cleanup frees the slot and keeps the slot invariant |
| `NodeOwnership.Publish` | lab3/Stack.c:324-324 | a CAS that links the node in hand moves it to that list and leaves all other nodes where they are |
| `NodeOwnership.Unpublish` | lab3/Stack.c:368-368 | taking the top of a list moves exactly that node into the hand |
| `NodeOwnership.TakeAll` | lab3/Stack.c:166-166 | the exchange moves the whole list to the reclaimer |
| `NodeOwnership.Allocate` | lab3/Stack.c:293-293 | a fresh or reused address goes into the hand |
| `NodeOwnership.Release` | lab3/Stack.c:175-175 | freeing the node in hand takes it out of every place |
| `StackBenchmark.BenchmarkPasses` | lab3/StackBenchmark.c:86-104 | for any number of threads up to 64 and values up to the `unsigned` range: when all threads are done the stack is empty and each of the values has been popped exactly once |
| `StackBenchmark.NoPopFails` | lab3/StackBenchmark.c:98-104 | in no interleaving does a pop of the benchmark find the stack empty, and no value is ever logged twice |
| `StackBenchmark.StepConserves` | lab3/StackBenchmark.c:86-104 | every step keeps: each value is on the stack, popped and not yet logged, or logged, once if pushed and else not at all |
| `StackBenchmark.PopFinds` | lab3/StackBenchmark.c:98-100 | when a pop takes effect the stack holds something, by counting pushes against pops |
| `StackBenchmark.LogExact` | lab3/StackBenchmark.c:239-247 | what the final check finds, from the conservation of values |
| `StackBenchmark.LogCounts` | lab3/StackBenchmark.c:179-221 | a char of the log holds how often its value has been handed out, modulo 256 |
| `StackBenchmark.CorrectnessTestPrintout` | lab3/StackBenchmark.c:229-251 | passes exactly if the stack is empty and every log cell is 1 |
| `StackBenchmark.FinalCheck` | lab3/StackBenchmark.c:229-251 | after every finished run of all threads, run on the memory they have left, the check passes |
| `StackObject.Stack.constructor` | lab3/Stack.c:191-233 | takes over any memory that is laid out as a stack and a reclaim list, such as the one a run leaves behind |
| `StackObject.Stack.OutstandingHazardPointersFor` | lab3/Stack.c:132-143 | true exactly if some slot names the node |
| `StackObject.Stack.AddToReclaimList` | lab3/Stack.c:149-161 | the node heads the reclaim list and nothing else changes, however often the weak CAS fails |
| `StackObject.Stack.DeleteNodesWithNoHazards` | lab3/Stack.c:163-185 | with hazards fixed a pass frees exactly the listed nodes no slot names, lists the others again once each, at most as many as there are slots, and leaves the stack alone |
| `StackObject.AtMostSlots` | lab3/Stack.c:163-185 | distinct nodes that slots name are no more than the slots |
| `StackObject.Stack.Pop` | lab3/Stack.c:333-397 | the only thread pops the top value, or finds nothing exactly if the stack is empty; its hazard is cleared, the node retired, and every 128th time the reclaim list is cut down to the nodes slots name |
| `StackObject.Stack.FreeList` | lab3/Stack.c:242-256 | frees a list from the top, each node once, giving data to the destructor in that order |
| `StackObject.Stack.StackFree` | lab3/Stack.c:235-276 | every remaining node is freed exactly once, nothing is left, and only data still on the stack is destroyed, top first |
| `SpinLockProofs.MutualExclusion` | lab2/SpinLocks.c:25-190 | in every reachable state at most one thread is past the acquisition of the TAS, TTAS or ticket lock, the ticket counters wrapping at will |
| `SpinLockProofs.TicketLockExact` | lab2/SpinLocks.c:158-190 | the ticket lock excludes in all runs if and only if there are at most 65536 threads |
| `SpinLockProofs.TooManyThreads` | lab2/SpinLocks.c:161-176 | with one thread more a run is given in which two are inside |
| `SpinLockProofs.FirstComeFirstServed` | lab2/SpinLocks.c:161-189 | sections are entered in ticket order, and a thread enters after as many releases as tickets were outstanding when it drew, fewer than there are threads |
| `SpinLockProofs.PollExact` | lab2/SpinLocks.c:171-176 | the 16-bit comparison lets a thread through exactly when its unbounded ticket is the one served |
| `SpinLockProofs.Enters` | lab2/SpinLocks.c:176-184 | a thread that gets through enters an empty section as the next in order |
| `SpinLockProofs.TicketStep` | lab2/SpinLocks.c:158-190 | every step keeps the ticket invariant over the unbounded counters |
| `SpinLockProofs.FlagStep` | lab2/SpinLocks.c:25-136 | every step keeps: the flag is set exactly while one thread holds the TAS or TTAS lock |
| `SpinLockBenchmark.CounterExact` | lab2/SpinLockBenchmarks.c:71-85 | when all threads are done the counter is threads * acquisitions * cycles for each lock, provided that is below 2^64, and else that modulo 2^64 |
| `SpinLockBenchmark.CountStep` | lab2/SpinLockBenchmarks.c:79-82 | with mutual exclusion no increment is lost though it reads and writes in two steps |
| `SpinLockProgress.CanAlwaysFinish` | lab2/SpinLockBenchmarks.c:65-86 | no deadlock: from every reachable state of the benchmark, with each of the locks, the run can go on until all threads are done |
| `SpinLockProgress.FreeAdvances` | lab2/SpinLocks.c:25-190 | each step of a thread that finds the lock free, or its ticket served, brings it nearer to its end |
| `SpinLockProgress.BenchmarkFinishes` | lab2/SpinLockBenchmarks.c:65-86 | for any number of threads up to 65536 a finished run exists and its counter is right |
| `SpinLockProgress.SpinsTenTimes` | lab2/SpinLocks.c:98-98 | a thread that finds the TTAS lock taken, or another ticket served, polls ten times without sleeping, not more and not less |
| `EpochReclamation.NoUseAfterFree` | lab4/SkipList.c:245-339 | while an operation runs, no tower that was not retired when it began is freed |
| `EpochReclamation.FreeIsSafe` | lab4/SkipList.c:298-339 | a freed tower had been retired before each running operation began |
| `EpochReclamation.EpochSkew` | lab4/SkipList.c:265-314 | each claimed cell holds the global epoch or the one before, and all hold the global one while a reclaimer takes or frees a list |
| `EpochReclamation.NextListEmpty` | lab4/SkipList.c:317-331 | the list of the next epoch is empty |
| `EpochReclamation.NotDrained` | lab4/SkipList.c:277-327 | no running operation retires into the list a reclaimer is draining |
| `EpochReclamation.RetireAndFreeOnce` | lab4/SkipList.c:277-327 | labels name existing lists and a tower is freed only once, after it was retired |
| `EpochReclamation.StepInv` | lab4/SkipList.c:245-339 | every step keeps the epoch invariant over the unbounded epochs |
| `EpochLimits.NeedsAllCells` | lab4/SkipList.c:304-314 | as long as any of the 256 cells is unclaimed the epoch stands still and nothing has been freed |
| `EpochLimits.SomethingFreed` | lab4/SkipList.c:298-339 | with 256 threads a run is given in which the epoch moves twice and the tower retired first is freed |
| `EpochLimits.FreesExactly` | lab4/SkipList.c:298-339 | nothing is freed in any run if and only if there are fewer than 256 threads |
| `CellClaiming.OddCellsStayUnclaimed` | lab4/SkipList.c:226-243 | as the loop is written no two threads share a cell, but odd cells are never claimed |
| `CellClaiming.CapacityExact` | lab4/SkipList.c:226-243 | no thread runs out of cells in any run if and only if there are at most 128 threads |
| `CellClaiming.ScanNeverPasses` | lab4/SkipList.c:304-314 | whenever a reclaimer reads the 256 cells, one after the other, and whatever the global epoch, one of them holds something else |
| `ListInvariant.StepInv` | lab4/SkipList.c:179-521 | every step of any interleaving, also on equal keys, keeps the bottom level a walk to NIL that passes every unmarked tower |
| `ListInvariant.MemoryEvolves` | lab4/SkipList.c:206-206 | no step unlinks, renames or unmarks a tower in memory, or moves a marked pointer |
| `ListMemory.UnlinkKeeps` | lab4/SkipList.c:203-209 | the unlinking CAS drops exactly the marked tower from the walk |
| `ListMemory.LinkKeeps` | lab4/SkipList.c:402-403 | the inserting CAS adds exactly the new tower to the walk |
| `ListMemory.MarkKeeps` | lab4/SkipList.c:461-468 | marking keeps the walk |
| `ListHistory.WalkComplete` | lab4/SkipList.c:192-219 | in every reachable state the walk from the header is sorted, duplicates allowed, ends, and passes every linked unmarked tower |
| `ListHistory.MarksPermanent` | lab4/SkipList.c:461-468 | marks are for ever and a marked pointer never changes, over any stretch of a run |
| `ListHistory.ReachableOverHistory` | lab4/SkipList.c:192-215 | a tower that was linked while another with a smaller key was linked and unmarked stays reachable from it until marked, even after that one has been marked and unlinked |
| `ListHistory.ReachStep` | lab4/SkipList.c:199-209 | a step takes nothing out of reach but the very tower it unlinks |
| `ListOwnership.OwnStep` | lab4/SkipList.c:179-521 | with owned keys every step keeps: one live tower per key, and each search will still pass its key |
| `ListOwnership.StopOwned` | lab4/SkipList.c:211-219 | where the search stops, the successor is the live tower of the key or there is none |
| `ListOwnership.WillPassStep` | lab4/SkipList.c:192-215 | steps of others do not make a search miss its key, wherever it is |
| `ListOwnership.ClosedStep` | lab4/SkipList.c:447-468 | with owned keys no tower marked at the bottom is still open at the level above, so no search comes down from it |
| `ListOwnership.LiveStep` | lab4/SkipList.c:402-468 | only the inserting CAS makes a tower live and only the marking CAS ends that |
| `ListLinearizability.Linearizable` | lab4/SkipList.c:345-521 | with owned keys every run of the bottom level is, with the same calls and results, a run of an atomic map, from wherever searches come down |
| `ListLinearizability.Refines` | lab4/SkipList.c:345-521 | each step of the bottom level is a hidden or visible step of the map; the effect is at the inserting CAS, the value store, the marking CAS or the end of the search |
| `MapLaw.AnswersFollowWrites` | lab4/SkipList.c:345-521 | in every run of the atomic map insertions and removals answer 0, whether or not the key was there; a search finds a value exactly if the last write of its key was an insertion, and that one's value |
| `MapLaw.ContentsAreLastWrites` | lab4/SkipList.c:345-521 | the map holds exactly what the last write of each key has left |
| `MapLaw.AnswersAreEffects` | lab4/SkipList.c:345-521 | every answer is the one with which the thread's last call took effect, between the call and the answer |
| `ListAnswers.WritesAnswerDone` | lab4/SkipList.c:345-521 | on the bottom level, on any keys: the answer to an insertion or a removal is 0, that to a search never is |
| `ListLinearizability.RetiredAreOff` | lab4/SkipList.c:470-477 | with owned keys no retired tower is met by a walk from the header on the bottom level, in any state of any run |
| `ListLinearizability.RetiredStaysOff` | lab4/SkipList.c:470-477 | a tower that is being given to the reclaim list is off that walk at once and for ever |
| `ListRetirement.RemovedAreRetiredOnce` | lab4/SkipList.c:458-477 | in every interleaving, on any keys, a tower is retired at most once and only after it was marked; with no removal under way exactly the marked towers have been retired |
| `ListRetirement.StepKeeps` | lab4/SkipList.c:458-477 | each marked tower is in the hand of one remover or once on a reclaim list, and no other tower is |
| `ListSharing.UniqueExactly` | lab4/SkipList.c:402-409 | for any assignment of keys to threads, no reachable state has two live towers of one key if and only if no two threads share a key |
| `ListSharing.UnlinkedExactly` | lab4/SkipList.c:470-477 | on the same condition, and only then, no retired tower is still linked in any reachable state |
| `ListSharing.SameKeyTwice` | lab4/SkipList.c:402-409 | for any two threads among any number that share a key, a state with two live towers of it can be reached |
| `ListSharing.RetiredStillLinked` | lab4/SkipList.c:470-477 | and a state in which a tower has been retired that a walk from the header still meets |
| `ListBenchmark.NeverFails` | lab4/SkipListBenchmarks.c:196-240 | on the bottom level, in every interleaving the first searches hit with value = key and the second ones miss: `executed_correctly` is never cleared |
| `ListBenchmark.EndsEmpty` | lab4/SkipListBenchmarks.c:222-222 | on the bottom level, when all threads are done every tower has been marked |
| `ListBenchmark.KeysDisjointExact` | lab4/SkipListBenchmarks.c:86-104 | keys of different threads differ exactly if the products do not wrap or the number of threads divides 2^32 |
| `ListBenchmark.BenchIsOwned` | lab4/SkipListBenchmarks.c:203-231 | the key scheme is the ownership discipline |
| `ListBenchmark.StepKeeps` | lab4/SkipListBenchmarks.c:196-240 | every step keeps: the list holds exactly what the threads have inserted and not yet removed, value = key |
| `ListBenchmark.CorrectnessTestPrintout` | lab4/SkipListBenchmarks.c:242-254 | passes exactly if no thread's flag was cleared |
| `IndexLinearizability.Linearizable` | lab4/SkipList.c:179-521 | with owned keys every run of the whole skip list, all levels, is with the same calls and results a run of an atomic map |
| `IndexLinearizability.Refines` | lab4/SkipList.c:179-521 | each access at any level is a hidden or visible step of the map |
| `IndexLinearizability.StepInv` | lab4/SkipList.c:179-521 | with owned keys every step keeps: pointers at each level lead to towers linked there, marks go from the top down, each thread's tables and towers are what its next accesses need |
| `IndexLinearizability.InBounds` | lab4/SkipList.c:192-218 | no thread ever uses a level its tower does not have, or a table entry it has not filled |
| `IndexAnswers.WritesAnswerDone` | lab4/SkipList.c:345-521 | the same on all levels, on any keys |
| `IndexProgress.FinishesAlone` | lab4/SkipList.c:179-521 | with owned keys, from every reachable state a thread that runs alone finishes its operation, whatever heights its towers get, wherever the others have stopped |
| `IndexProgress.Advances` | lab4/SkipList.c:179-521 | every step of a thread makes a measure of six parts smaller: stage, levels to link or mark, repetitions, level, distance to the end, phase |
| `ListDistance.AllEndChange` | lab4/SkipList.c:192-219 | from every tower that has ever been linked, also from unlinked ones, the walk ends, and every change keeps that |
| `IndexSteps.MemoryStep` | lab4/SkipList.c:179-521 | a step keeps the pointers of all levels right, shrinks no tower, and only the thread working on a tower raises or marks it |
| `IndexRefinement.SilentStep` | lab4/SkipList.c:192-219 | accesses above the bottom that the bottom does not see leave the state of `ListMachine` as it is |
| `IndexRefinement.LoudStep` | lab4/SkipList.c:192-468 | all other accesses are steps of `ListMachine`, and a search comes down at a tower linked one level up and unmarked there |
| `IndexBenchmark.NeverFails` | lab4/SkipListBenchmarks.c:196-240 | on the whole skip list, in every interleaving, `executed_correctly` is never cleared |
| `IndexBenchmark.EndsEmpty` | lab4/SkipListBenchmarks.c:222-222 | when all threads are done every linked tower has been marked |
| `IndexBenchmark.BenchIsOwned` | lab4/SkipListBenchmarks.c:203-231 | the calls of the benchmark on the whole skip list keep to owned keys |
| `IndexLevels.LevelsComplete` | lab4/SkipList.c:179-219 | at every level and in every reachable state the walk from the header ends, is sorted, and passes every tower linked and not marked there |
| `IndexLevels.LevelsNested` | lab4/SkipList.c:398-468 | a tower that is not marked at one level is on the walks of all the levels below |
| `IndexLevels.LevelChange` | lab4/SkipList.c:199-468 | what a step does to each level: it unlinks a marked tower, links a new one, marks one, or leaves its links alone |
| `ListChanges.WalkChange` | lab4/SkipList.c:203-209 | each of these changes makes the walk gain the new tower, lose the marked one, or stay |
| `ListChanges.WillPassChange` | lab4/SkipList.c:192-215 | and a search from anywhere, also from an unlinked tower, will still pass its key unless a tower of that key is linked |
| `IndexUnlinking.RetiredOffEveryLevel` | lab4/SkipList.c:470-477 | a retired tower is marked at all its levels and met by no walk from the header, at any level, in any later state |
| `IndexUnlinking.UnlinkStep` | lab4/SkipList.c:179-477 | every step keeps: each search will pass its key at the levels it has still to walk, and the tower it unlinks is off those it has done |
| `ReclaimedSkipList.NoUseAfterFree` | lab4/SkipList.c:192-521 | with the skip list and the epoch protocol as one machine, no tower that any operation may look at or pass on, at whatever level, has been freed, in any state of any run |
| `ReclaimedSkipList.Linearizable` | lab4/SkipList.c:192-521 | while towers are retired and freed, every run is with the same calls and results a run of an atomic map |
| `ReclaimedSkipList.SafeStep` | lab4/SkipList.c:192-482 | every step keeps the invariants of both machines, and that no operation has hold of what was off the walks when it began |
| `ReclaimedSkipList.RetireIsPossible` | lab4/SkipList.c:470-477 | a thread that has unlinked its tower can always retire it in the epoch protocol |
| `ReclaimedSkipList.NeverStuck` | lab4/SkipList.c:245-521 | in every reachable state each thread can make a step, and begin any operation on a key of its own |
| `SkipListAnswers.Answers` | lab4/SkipList.c:345-521 | in every run with reclamation each answer is 0 for a write, and for a search what the last write of its key had left when it took effect, between call and answer |
| `SkipListObject.SkipList.FillTables` | lab4/SkipList.c:179-220 | ends at every level in range between an unmarked place left of the key and the first unmarked tower that is not; unlinks only marked towers, keeps all others, leaves other levels alone, and ends |
| `SkipListObject.SkipList.Insert` | lab4/SkipList.c:345-418 | the map gets the value for the key; a new tower of the drawn height appears exactly if the key was absent; `max_level` follows; levels are again nested, sorted and free of marked towers |
| `SkipListObject.SkipList.MarkTower` | lab4/SkipList.c:447-468 | every pointer of the tower is marked, targets and all other towers stay |
| `SkipListObject.SkipList.Remove` | lab4/SkipList.c:424-488 | the map loses the key and nothing else; its tower is off every level and goes on the list of the epoch the thread entered with; the list of two epochs ago is freed, and the epoch moves, exactly if the lock is free and no cell lags; an absent key changes nothing |
| `SkipListObject.SkipList.Search` | lab4/SkipList.c:494-521 | finds the stored value exactly if there is one, and changes nothing stored |
| `SkipListObject.SkipList.Run` | lab4/SkipList.c:345-521 | any sequence of operations with any heights gives the results and the final contents of a map |
| `SkipListObject.SearchIsLastWrite` | lab4/SkipList.c:494-521 | in every such run a search returns what the last insertion or removal of its key has left |
| `SkipListObject.WritesAnswerDone` | lab4/SkipList.c:345-488 | and an insertion or a removal answers 0, whether or not the key was there |
| `SkipListObject.LookupIsLastWrite` | lab4/SkipList.c:345-488 | the contents are what the last writes have left |
| `SkipListObject.SkipList.ReclaimNodes` | lab4/SkipList.c:290-339 | if no cell lags, exactly the list of two epochs ago is freed and the epoch moves; else nothing changes |
| `SkipListObject.SkipList.AddToReclaimList` | lab4/SkipList.c:277-288 | the tower in hand heads the list of its label and all else stays |
| `SkipListObject.SkipList.LeaveEpoch` | lab4/SkipList.c:265-275 | a lagging cell moves one epoch on, an up-to-date one stays, no other changes |
| `SkipListObject.SkipList.Free` | lab4/SkipList.c:120-157 | every access is to memory still allocated, no tower is freed twice and none is left |
| `SkipListObject.SkipList.constructor` | lab4/SkipList.c:75-118 | starts as the empty map, with four local epochs at -1 and the others as the memory was |
| `SkipListObject.SkipList.EpochInit` | lab4/SkipList.c:226-243 | the loop as written takes the first cell that is unclaimed or holds what the cell before it held, and takes no other |
| `SkipListLevels.UnlinkKeepsShape` | lab4/SkipList.c:203-209 | unlinking a marked tower from one level keeps all levels sorted, nested and ending |
| `SkipListLevels.LocatedDecides` | lab4/SkipList.c:217-218 | the neighbours the search leaves decide whether the key is on the level |
| `SkipListLevels.LevelIsSublist` | lab4/SkipList.c:398-410 | between operations each level is a sublist of the one below, in the same order |
| `SkipListChanges.InsertLevel` | lab4/SkipList.c:398-410 | at each level the CAS finds what the search has left, and the tower joins the level |
| `SkipListChanges.Inserted` | lab4/SkipList.c:398-410 | after the last level the skip list is whole again and stores the new pair |
| `SkipListChanges.MarkedUnlinked` | lab4/SkipList.c:470-474 | the search after the marking has taken the tower off every level, and only that tower |
| `SkipListChanges.RetireKeeps` | lab4/SkipList.c:277-288 | retiring the tower in hand makes every tower be in exactly one place again |
| `SkipListChanges.FreeFirstKeeps` | lab4/SkipList.c:321-327 | freeing the head of a reclaim list leaves all that is linked as it was |
| `MatrixProduct.RowsPartitioned` | lab1/ConsoleApplication3.cpp:56-58 | for any positive number of threads each row is in exactly one range |
| `MatrixProduct.ManyThreads` | lab1/ConsoleApplication3.cpp:18-31 | each cell of its rows gets the products added from the left, no other cell changes |
| `MatrixProduct.Transpose` | lab1/ConsoleApplication3.cpp:42-51 | row j of the result is column j of the argument |
| `MatrixProduct.Multiply` | lab1/ConsoleApplication3.cpp:33-73 | with at least one thread the result is the product, with none all zeros |
| `MatrixProduct.EveryInterleaving` | lab1/ConsoleApplication3.cpp:56-71 | whatever the interleaving of the reads and writes of all workers, the result is the product, without any law of arithmetic |
| `MatrixProduct.ThreadsMakeNoDifference` | lab1/ConsoleApplication3.cpp:33-73 | two runs with different positive thread counts and any schedules end with equal results |
| `MatrixProduct.NeverStuck` | lab1/ConsoleApplication3.cpp:18-31 | a worker can make a step exactly if it has not finished |
| `MatrixTerms.MultiplySymbols` | lab1/ConsoleApplication3.cpp:33-73 | run on matrices of symbols the program leaves in cell i, j zero plus first(i,k) * second(k,j) for k from 0 up, in this order and nothing else |
| `MatrixTerms.InterleavedSymbols` | lab1/ConsoleApplication3.cpp:56-71 | so do the workers in every interleaving |
| `MatrixTerms.ReadOff` | lab1/ConsoleApplication3.cpp:18-31 | a matrix is a product of the symbols only if it is that formula |
| `MatrixTerms.ProductIsValue` | lab1/ConsoleApplication3.cpp:18-31 | over any scalars each cell of a product has the value of its formula |
| `MatrixTerms.IdentityIsNeutral` | lab1/ConsoleApplication3.cpp:18-31 | over the integers the product with the identity is the other factor, on both sides |
| `MatrixProduct.ProductIsUnique` | lab1/ConsoleApplication3.cpp:18-31 | two matrices give only one product |

## Left out

- Weak memory orders, caches and `volatile`: memory is sequentially consistent in all machines.
- Time: sleeping, yielding, backoff values and the performance and fairness printouts.
- Threads coming and going: all start together, spawn and join become "all ready" and "all done".
- Failures of `malloc` and of thread-local storage, `errno`, NULL arguments and printing.
- Progress under an unfair scheduler: a spinning thread gets on only if the holder does, and a thread of the stack or the skip list may be overtaken for ever; proved are the absence of deadlock, termination when alone and, for the head of the stack, that a failure means another's success.
- The hazard slot token: the code stores a pointer cut to `pid_t`; the model stores a nonzero number of the thread.
- ListLinearizability.Linearizable: it takes the place where a search comes down as given: the header or a tower with a smaller key that was linked one level up and not marked there when it was looked at (`ListOwnership.ComesDown`). `IndexLinearizability.Linearizable` is the theorem without that.
- ListLinearizability.RetiredAreOff: the bottom level, with the same assumption.
- ListBenchmark.NeverFails: the same; `IndexBenchmark.NeverFails` is without it.
- ListBenchmark.EndsEmpty: the same; `IndexBenchmark.EndsEmpty` is without it.
- ReclaimedSkipList.NoUseAfterFree: addresses are given out once; that no operation has hold of a freed one is what makes giving them out again safe. It is for threads that each have their own cell, at most 256, as in `EpochMachine`.
- IndexLinearizability.Linearizable: a search may start at any level, where the code starts at `max_level`; towers are given out once and not freed; the pointers `malloc` leaves at levels not stored yet are any, that at the bottom is NIL.
- The index levels when threads share keys: an insertion can then overwrite a mark there (lab4/SkipList.c:400-408).
- EpochReclamation.NoUseAfterFree: thread t claims cell t and all cells start at -1, which `skiplist_init` does for four of them only (lab4/SkipList.c:98-102); the loop as written is in `CellClaiming`.
- A thread that finds no cell: `enter_epoch` then returns -1, and no caller looks at that (lab4/SkipList.c:245-256); by `CellClaiming.CapacityExact` this can happen from 129 threads on.
- SkipListObject.SkipList.FillTables: the jump back to the start after a failed CAS needs another thread; the branch is proved dead for one thread, and `IndexMachine` has it for many.
- SkipListObject.SkipList.Insert: the refill after a failed CAS needs another thread, in the same way; the height drawn by `generate_level` is a parameter.
- StackBenchmark.FinalCheck: the main thread's own last pop is on the memory the other threads have left, not a step of the run.
- StackObject.Stack.Pop: the retry loops need another thread; the slot is given.
- SpinLockBenchmark.CounterExact: the counter and the expected product are compared modulo the width of `size_t`.
- MultiplyWithOutAMP (it stops one short of the rank), the performance benchmarks, `main`, notebooks and data files.
