# libfork, modelled and verified in Dafny

libfork is a continuation-stealing fork-join runtime for C++ coroutines. This project models its six
hardest parts and proves what they promise over every input, every schedule and every reachable state:

- **Parallel scan** (`Programs`, `Scan`, `ScanCorrect`, `ScanTyped`, `ScanCost`, `ScanInPlace`). The two sweeps as programs with
  forks; their answer to "is the left child ready" is an arbitrary oracle. Every interleaving computes
  `std::inclusive_scan` (section [inclusive.scan] of the ISO C++ standard) for every associative
  operation, in place or not, with linear work and a logarithmic longest chain. The same sweeps as methods
  that update an array.
- **Work-stealing deques** (`DequeSpec`, `Ring`, `Lace`, `LaceCapacity`, `LaceCalls`, `ChaseLev`, `Blocking`). One
  specification, three implementations as step machines of one owner and any number of thieves, each shown
  to simulate it and to answer every call.
- **Fork-join protocol** (`ForkJoin`, `ForkJoinInv`, `ForkJoinChains`, `ForkJoinCounters`,
  `ForkJoinStacks`, `ForkJoinSync`, `ForkJoinSafety`, `ForkJoinBound`, `ForkJoinProgress`,
  `FrameExceptions`, `ForkJoinExceptions`, `ForkJoinStacklets`). Workers, a task tree, deques, the 16-bit join counter,
  stack ownership down to the stacklets, and captured exceptions, over whole runs, none of which can get
  stuck.
- **Lazy pool** (`EventCount`, `LazyPool`, `LazyPoolCounts`, `LazyPoolWake`, `LazyPoolSafety`,
  `LazyPoolWork`, `LazyPoolComment`). The sleep and wake-up protocol with its packed epoch/waiter word, and
  what becomes of the work.
- **Segmented stack** (`Segments`, `SegmentedStack`). Doubling stacklets with one cached ahead, as a
  value and as a doubly linked structure on the heap.
- **Submission list and fold** (`SubmissionList`, `IntrusiveList`, `ParallelFold`).

Concurrent code is a deterministic step function over a state with one program counter per thread; a
schedule is a sequence of actions, so a statement about all sequences is a statement about all
interleavings. Atomic accesses are sequentially consistent. Fields marked as history are written by steps
but never steer them. Code that one thread runs alone on data of its own (the sweeps, the fold, the ring
copy, the stack, the list reversal) is imperative Dafny tied to a specification function.

Where the code and its documentation differ, the code is modelled:

- `lazy_pool.hpp` lines 173-193 state an invariant that holds at every step only of a pool with one
  worker (`LazyPoolComment.CommentIsForOneWorker`); `LazyPoolSafety.WakeInvariant` is the one that always
  holds.
- `fold.hpp` says that chunk sizes up to 3 use the version without chunks; only 1 does.
- `deque_lace.hpp` line 243 indexes without the mask, and `push` has no capacity check.
  `Lace.LaceExactlyOnce` therefore asks that no push starts at an index at or above the capacity, and
  `LaceCapacity.ExactCapacity` shows that nothing less will do.
- The join counter is exact up to 65534 steals in one scope and not beyond (`ForkJoinBound.ExactBound`).

## Model

| member | source | states |
|---|---|---|
| Programs.RaceFreeIsDeterministic | include/libfork/algorithm/scan.hpp:280-290 | every interleaving of a program whose forked halves touch nothing of each other gives the sequential result |
| Programs.ForkSeparate | include/libfork/algorithm/scan.hpp:280-290 | a fork of two race-free programs with separate footprints is race free |
| Programs.ShuffleRuns | include/libfork/algorithm/scan.hpp:385-393 | any shuffle of two independent traces computes what running one after the other does |
| Scan.ScanEndInside | include/libfork/algorithm/scan.hpp:258-308 | the returned scan end lies in the range, past its start, and never strictly inside any chunk of the recursion |
| Scan.OnePass | include/libfork/algorithm/scan.hpp:258-308 | the scan ends at the end of the range, so that there is no second sweep, if and only if every left half was seen to be finished |
| Scan.NeverReady | include/libfork/algorithm/scan.hpp:258-308 | if none was, just the first chunk is scanned on the way up |
| Scan.RiseRaceFree | include/libfork/algorithm/scan.hpp:258-308 | at every fork of the rise sweep the halves write disjoint cells and neither reads what the other writes, in place or not |
| Scan.FallImplRaceFree | include/libfork/algorithm/scan.hpp:347-394 | the same at every fork of the inner fall sweep, the shared boundary cell included |
| Scan.FallRaceFree | include/libfork/algorithm/scan.hpp:434-475 | the same for the outer fall sweep |
| Scan.WholeRaceFree | include/libfork/algorithm/scan.hpp:491-510 | the whole scan is race free |
| ScanCorrect.FoldJoins | include/libfork/algorithm/scan.hpp:293-303 | with associativity alone, the folds of two adjacent ranges combine to the fold of both |
| ScanCorrect.RiseCorrect | include/libfork/algorithm/scan.hpp:187-308 | after the rise sweep everything before the scan end is final, scanned nodes with a right sibling end in the full prefix, and each unscanned left child ends in its own fold, whatever the oracle answered |
| ScanCorrect.FallImplCorrect | include/libfork/algorithm/scan.hpp:347-394 | from a folded subtree and the prefix before it, every cell becomes the full prefix |
| ScanCorrect.FallCorrect | include/libfork/algorithm/scan.hpp:434-475 | the outer fall sweep completes a partly scanned tree from where the scan ended |
| ScanCorrect.WholeCorrect | include/libfork/algorithm/scan.hpp:491-510 | rise then fall is the inclusive scan, and changes nothing outside the output |
| ScanCorrect.ScanUnderEverySchedule | include/libfork/algorithm/scan.hpp:187-510 | every interleaving of every run, for every oracle and chunk size, ends in the inclusive scan of the projected input |
| ScanTyped.ScanAcrossTypes | include/libfork/algorithm/scan.hpp:491-510 | the same with input and output of different types, for every projection between them |
| ScanCost.WorkEfficient | include/libfork/algorithm/scan.hpp:105-112 | whatever is stolen the operator is applied fewer than four times per element, and exactly as often as in a loop if nothing is |
| ScanCost.LogarithmicSpan | include/libfork/algorithm/scan.hpp:491-510 | with every right half stolen, the longest chain of steps is at most 6k + 4n + 2 for 2^k chunks of n elements |
| ScanInPlace.ScanLoop | include/libfork/algorithm/scan.hpp:225-233 | the leaf loop that accumulates and stores computes its part of the program |
| ScanInPlace.FoldLoop | include/libfork/algorithm/scan.hpp:204-213 | the leaf loop that only accumulates computes the same register value |
| ScanInPlace.Merge | include/libfork/algorithm/scan.hpp:293-303 | the right child's last slot receives the combination with the left child's |
| ScanInPlace.FirstLeaf | include/libfork/algorithm/scan.hpp:237-253 | the leaf without a left sibling scans from its first element |
| ScanInPlace.RiseSweepLeaf | include/libfork/algorithm/scan.hpp:197-254 | each leaf case does what the program says, fold or scan, with or without a left sibling |
| ScanInPlace.RiseSweep | include/libfork/algorithm/scan.hpp:187-308 | the recursive method leaves the array as the rise program does and returns the scan end |
| ScanInPlace.RiseRight | include/libfork/algorithm/scan.hpp:280-303 | the folding right half and the propagation after the join |
| ScanInPlace.FallSweepImpl | include/libfork/algorithm/scan.hpp:347-394 | the inner fall sweep on the array equals its program |
| ScanInPlace.FallSweep | include/libfork/algorithm/scan.hpp:434-475 | the outer fall sweep, with its loop whose range strictly shrinks, equals its program |
| ScanInPlace.ParallelScan | include/libfork/algorithm/scan.hpp:491-510 | the output range holds the prefixes of the old projected input, the rest of the array is unchanged, the empty input is accepted |
| DequeSpec.LegalKeeps | include/libfork/core/ext/deque_chase_lev.hpp:261-340 | every allowed event keeps exactly-once delivery: each push is in the deque, held by one thread, or handed out once with its value, and nothing is lost |
| DequeSpec.AlwaysExactlyOnce | include/libfork/core/ext/deque_blocking.hpp:310-386 | so does every sequence of allowed events |
| DequeSpec.TakesTheRightEnd | include/libfork/core/ext/deque_lace.hpp:238-297 | a pop takes the newest element left, a steal the oldest, and steals take strictly increasing push indices |
| Ring.CopyKeeps | include/libfork/core/ext/deque_chase_lev.hpp:81-90 | after a resize every index of the copied range reads the same value through the new mask |
| Ring.DistinctSlots | include/libfork/core/ext/deque_chase_lev.hpp:61-70 | indices less than a capacity apart use different slots |
| Ring.Resize | include/libfork/core/ext/deque_chase_lev.hpp:81-90 | the copying loop returns a buffer of twice the size with that content |
| Lace.WordArith | include/libfork/core/ext/deque_lace.hpp:100-107 | packing and unpacking are inverse, and adding to the split half leaves the top half alone |
| Lace.HalvesStayApart | include/libfork/core/ext/deque_lace.hpp:311-361 | in every run each packed fetch_sub and fetch_add of the owner changes the split half by exactly the amount meant and leaves the top half alone |
| Lace.PushKeepsInv | include/libfork/core/ext/deque_lace.hpp:216-232 | after the slot is written, each step of a push that is not inside grow_shared is an allowed event and keeps the representation |
| Lace.PopKeepsInv | include/libfork/core/ext/deque_lace.hpp:238-308 | so does each step of a pop after its first that is not inside shrink_shared or grow_shared |
| Lace.ShrinkSubs | include/libfork/core/ext/deque_lace.hpp:311-322 | lowering the split under interference keeps the representation, even if top has overtaken it |
| Lace.ShrinkRepairs | include/libfork/core/ext/deque_lace.hpp:325-336 | the correction puts split between top and bottom again |
| Lace.GrowShares | include/libfork/core/ext/deque_lace.hpp:344-361 | sharing moves split without touching any element |
| Lace.CasKeeps | include/libfork/core/ext/deque_lace.hpp:255-275 | a winning exchange takes the oldest shared element although the slot is read only afterwards |
| Lace.StepKeeps | include/libfork/core/ext/deque_lace.hpp:216-361 | every step of push, pop and steal, shrink_shared and grow_shared included, is an allowed event and keeps the representation, if a push starts below the capacity |
| Lace.LaceExactlyOnce | include/libfork/core/ext/deque_lace.hpp:216-361 | exactly-once delivery in every interleaving of owner and thieves whose pushes stay below the capacity, and no access outside the array |
| Lace.ShrinkOutcome | include/libfork/core/ext/deque_lace.hpp:311-341 | shrink_shared reports all stolen only if nothing is left, and otherwise ends with top <= split == osplit < bottom |
| Lace.StealEmptyIsRight | include/libfork/core/ext/deque_lace.hpp:255-275 | a steal that gives up at the all-stolen flag does so only while the deque is empty or its only element is being published; one that looks at the word competes exactly if something is shared, short of 2^31 shared elements, and otherwise asks the owner to share before it reports |
| LaceCapacity.PushAtCapacityLeavesArray | include/libfork/core/ext/deque_lace.hpp:238-250 | in every reachable state with elements left and bottom at the capacity, a push and a pop read past the array |
| LaceCapacity.PushAtCapacityClobbers | include/libfork/core/ext/deque_lace.hpp:216-232 | in every reachable all-stolen state with bottom at the capacity, a push makes a thief that has won slot 0 and not read it return the wrong value |
| LaceCapacity.CapacityIsReached | include/libfork/core/ext/deque_lace.hpp:216-232 | for every capacity a run whose pushes start below it ends with elements left and bottom at the capacity |
| LaceCapacity.Overruns | include/libfork/core/ext/deque_lace.hpp:238-250 | for every capacity one push at it lets the next pop read outside the array |
| LaceCapacity.Clobbers | include/libfork/core/ext/deque_lace.hpp:216-275 | for every capacity a run of steals leaves everything stolen and one thief still to read slot 0, and one push at the capacity makes it return the wrong value |
| LaceCapacity.ExactForArray | include/libfork/core/ext/deque_lace.hpp:216-250 | no run whose pushes start below k reads outside the array, if and only if k is at most the capacity |
| LaceCapacity.ExactForDelivery | include/libfork/core/ext/deque_lace.hpp:216-275 | every run whose pushes start below k delivers exactly once, if and only if k is at most the capacity |
| LaceCapacity.ExactCapacity | include/libfork/core/ext/deque_lace.hpp:216-361 | both together, if and only if k is at most the capacity |
| LaceCalls.EveryCallIsAnswered | include/libfork/core/ext/deque_lace.hpp:216-308 | in every run the log is the values whose pushes began, in order, but for the one under way, and every pop but the one under way is answered once |
| LaceCalls.OwnerGetsOn | include/libfork/core/ext/deque_lace.hpp:216-361 | in every state of a run each step of the owner brings its push or pop closer to its end: it never waits |
| LaceCalls.StealEnds | include/libfork/core/ext/deque_lace.hpp:255-275 | so does each step of a thief, and a steal ends without a value only after asking to share or if the word has changed since it looked |
| LaceCalls.StealRuns | include/libfork/core/ext/deque_lace.hpp:255-275 | with something shared, an undisturbed steal takes the oldest element and returns the value pushed there |
| LaceCalls.PushShares | include/libfork/core/ext/deque_lace.hpp:223-228 | a push that finds a request shares half of the private part, rounded up, and clears the request |
| LaceCalls.PopShares | include/libfork/core/ext/deque_lace.hpp:238-250 | so does a pop that leaves private elements |
| LaceCalls.FirstPushShares | include/libfork/core/ext/deque_lace.hpp:216-232 | a push into an all-stolen deque shares its element at once and leaves no request behind |
| LaceCalls.ShrinkTakesHalf | include/libfork/core/ext/deque_lace.hpp:311-341 | an undisturbed shrink_shared takes half of the shared part back, rounded up |
| LaceCalls.VainStealIsHonoured | include/libfork/core/ext/deque_lace.hpp:216-275 | from every reachable state with the owner idle, private elements and nothing shared, a steal in vain and then a push leave something shared, and the next steal returns the oldest value |
| ChaseLev.PushGrows | include/libfork/core/ext/deque_chase_lev.hpp:261-275 | resizing keeps every element and every thief that may still win on an old buffer |
| ChaseLev.PushStores | include/libfork/core/ext/deque_chase_lev.hpp:277-283 | writing the next slot disturbs no live element and no thief that can still win |
| ChaseLev.PopTakes | include/libfork/core/ext/deque_chase_lev.hpp:289-313 | a pop with more than one element left takes the newest without competing |
| ChaseLev.PopWinsLast | include/libfork/core/ext/deque_chase_lev.hpp:301-309 | winning the last element leaves every thief behind |
| ChaseLev.ThiefWins | include/libfork/core/ext/deque_chase_lev.hpp:319-340 | a winning steal returns the value pushed at that index, whatever buffer it was read from |
| ChaseLev.ChaseLevExactlyOnce | include/libfork/core/ext/deque_chase_lev.hpp:261-340 | exactly-once delivery in every interleaving, resizes and last-element races included |
| ChaseLev.StealEmptyIsRight | include/libfork/core/ext/deque_chase_lev.hpp:319-340 | the step with which a steal reports an empty deque is taken only while it is empty or while the owner is popping the only element |
| ChaseLev.EveryCallIsAnswered | include/libfork/core/ext/deque_chase_lev.hpp:261-315 | in every run the log is the values whose pushes began, in order, but for the one under way, and every pop but the one under way is answered once |
| ChaseLev.OwnerGetsOn | include/libfork/core/ext/deque_chase_lev.hpp:261-315 | each step of the owner brings its push or pop closer to its end: it never waits |
| ChaseLev.StealEnds | include/libfork/core/ext/deque_chase_lev.hpp:319-340 | each step of a thief brings its steal closer to its end, and it ends without a value only on a deque that is empty or losing its only element, or if the element has been taken since |
| ChaseLev.StealAlone | include/libfork/core/ext/deque_chase_lev.hpp:319-340 | an undisturbed thief that finds an element takes the oldest and returns its value |
| ChaseLev.GrowsIffFull | include/libfork/core/ext/deque_chase_lev.hpp:261-275 | a push doubles the buffer if and only if the deque filled it when the push began |
| Blocking.PushStores | include/libfork/core/ext/deque_blocking.hpp:310-331 | a push under the lock, resizing or not, keeps every element |
| Blocking.ThiefKeeps | include/libfork/core/ext/deque_blocking.hpp:362-386 | every step of a thief is allowed, and only the holder of the flag changes the indices |
| Blocking.BlockingExactlyOnce | include/libfork/core/ext/deque_blocking.hpp:310-386 | exactly-once delivery; every empty answer of pop, also of its unlocked test, is given while the deque is empty |
| Blocking.StealEmptyIsRight | include/libfork/core/ext/deque_blocking.hpp:362-386 | the steps with which a steal reports an empty deque, after its unlocked test or under the lock, are taken only while it is empty |
| Blocking.EveryCallIsAnswered | include/libfork/core/ext/deque_blocking.hpp:310-358 | in every run the log is the values whose pushes began, in order, but for the one under way, and every pop but the one under way is answered once |
| Blocking.OwnerGetsOn | include/libfork/core/ext/deque_blocking.hpp:310-358 | each step of the owner brings its call closer to its end, unless it spins on a lock that a thief holds |
| Blocking.StealEnds | include/libfork/core/ext/deque_blocking.hpp:362-386 | each step of a thief brings its steal closer to its end, and it ends without a value only on an empty deque or at a lock that is taken |
| Blocking.StealAlone | include/libfork/core/ext/deque_blocking.hpp:362-386 | with the lock free, an undisturbed thief delivers the oldest element |
| Blocking.GrowsIffFull | include/libfork/core/ext/deque_blocking.hpp:310-331 | a push doubles the buffer if and only if the deque fills it |
| ForkJoinInv.HandlesFirst | include/libfork/core/impl/awaitables.hpp:239-257 | the oldest handle of a deque is a live frame that forked the next frame of its chain |
| ForkJoinInv.ChainTop | single_header/libfork.hpp:5995-6002 | no two frames that workers are at have a frame in common below them |
| ForkJoinChains.CreateChains | include/libfork/core/impl/awaitables.hpp:239-257 | fork and call keep every deque the run of forking ancestors of its worker's frame |
| ForkJoinChains.ReturnChains | single_header/libfork.hpp:6274-6305 | so does a final suspend, of a root, a called or a forked task |
| ForkJoinChains.FinishChains | single_header/libfork.hpp:5991-6002 | so does the pop of a finished child |
| ForkJoinChains.RegisterChains | single_header/libfork.hpp:6034-6057 | so does its registration, last or not |
| ForkJoinChains.StealChains | include/libfork/core/ext/resume.hpp:65-78 | so does a steal, which cuts the victim's chain below the oldest handle |
| ForkJoinChains.JoinSubChains | include/libfork/core/impl/awaitables.hpp:454-485 | so does announcing a join, won or lost |
| ForkJoinCounters.RegisterIsLast | single_header/libfork.hpp:6034-6057 | with at most 65534 steals a decrement finds 1 exactly if the parent is suspended and this child is the only one out |
| ForkJoinCounters.StealCounters | include/libfork/core/impl/frame.hpp:182-201 | a steal keeps joins == 65535 - steals + outstanding children |
| ForkJoinCounters.StoleCounters | include/libfork/core/ext/resume.hpp:65-78 | counting the steal brings the 16-bit steal count in line with the steals that happened |
| ForkJoinCounters.RegisterCounters | single_header/libfork.hpp:6034-6037 | so does a decrement, before and after the parent suspends |
| ForkJoinCounters.JoinSubCounters | include/libfork/core/impl/awaitables.hpp:454-470 | the 16-bit subtraction turns the counter into the number of outstanding children |
| ForkJoinCounters.ResetCounters | include/libfork/core/impl/frame.hpp:206-215 | a frame is only reset when no child is outstanding |
| ForkJoinStacks.CreateStacks | include/libfork/core/impl/awaitables.hpp:239-257 | a new frame goes on the worker's own stack, on top of its parent or on an empty stack |
| ForkJoinStacks.ReturnStacks | single_header/libfork.hpp:6274-6305 | destroying a frame uncovers the frame it was on top of |
| ForkJoinStacks.FinishStacks | single_header/libfork.hpp:6026-6032 | the pop of a finished child leaves each worker on the right stack: with its parent on top, or, when it finds nothing, told whether it is on the parent's stack |
| ForkJoinStacks.RegisterStacks | single_header/libfork.hpp:6034-6078 | the losing decrement gives the stack up, the winning one keeps or takes it |
| ForkJoinStacks.ResetStacks | include/libfork/core/impl/awaitables.hpp:412-419 | taking the stack makes the worker its only owner, with the frame on top |
| ForkJoinSafety.StepInv | include/libfork/core/impl/awaitables.hpp:425-485 | every step of every worker keeps the whole invariant of chains, counters, stacks and forks |
| ForkJoinSafety.ReachableInv | include/libfork/core/impl/awaitables.hpp:425-485 | it holds in every state of every run with at most 65534 steals per scope |
| ForkJoinSafety.JoinSafety | include/libfork/core/impl/awaitables.hpp:425-498 | whoever passes a join is alone at the frame, the frame is in no deque, and no child of the scope is left |
| ForkJoinSafety.JoinDecides | include/libfork/core/impl/awaitables.hpp:425-485 | both reads of the counter pass the join exactly if no child is outstanding; losing leaves the counter at the number outstanding |
| ForkJoinSafety.LastChild | single_header/libfork.hpp:6034-6057 | a child resumes the parent exactly if the parent is suspended and no other child is out |
| ForkJoinSafety.ParkedIsAwaited | include/libfork/core/impl/awaitables.hpp:472-485 | a suspended parent always has an outstanding child, so its resumption is not lost, and nobody is at it or offers it |
| ForkJoinSafety.OnlyLastChildResumes | single_header/libfork.hpp:6034-6057 | the only step that ends a suspension is the decrement of the last child |
| ForkJoinSafety.NoTaskIsLost | include/libfork/core/ext/resume.hpp:65-78 | in every reachable state in which nothing is submitted and every worker is idle, every task has finished |
| ForkJoinSafety.DequeShape | include/libfork/core/ext/resume.hpp:65-78 | a deque is the run of forking ancestors of its worker's frame, empty when resume returns; the pop of a finished child gives its parent, or nothing if the parent was stolen |
| ForkJoinSafety.HandlesDisjoint | single_header/libfork.hpp:5995-6002 | no continuation is offered by two deques or while a worker is at it |
| ForkJoinSafety.StackOwnership | include/libfork/core/impl/awaitables.hpp:412-419 | whoever resumes a parent past its join owns the stack with that frame on top, and nobody else does |
| ForkJoinSafety.OneOwner | single_header/libfork.hpp:6004-6022 | no stack has two owners |
| ForkJoinSafety.ExactlyOneOwner | single_header/libfork.hpp:6004-6078 | every stack that holds a frame has exactly one owner: the one worker that has not given it up, or else its top frame, which was stolen or waits as submitted |
| ForkJoinSafety.LosingGivesUp | single_header/libfork.hpp:6063-6072 | the losing decrement of a worker on the parent's stack hands that stack to the parent's frame |
| ForkJoinStacklets.StackletsTell | single_header/libfork.hpp:6026-6032 | with every stack a chain of stacklets, a finished child whose parent was stolen finds the parent's stacklet on top of its own stack exactly if it is on the parent's stack |
| ForkJoinStacklets.ResumesOnTop | include/libfork/core/impl/awaitables.hpp:412-419 | whoever passes a join finds the frame's stacklet to be the top of the frame's stack, block for block as the frame left it |
| ForkJoinStacklets.IdleOnEmpty | include/libfork/core/ext/resume.hpp:65-78 | a worker with nothing to resume is on a stack without blocks |
| ForkJoinSafety.IdleIsEmpty | include/libfork/core/ext/resume.hpp:65-78 | a worker that has nothing to resume has an empty deque and an empty stack |
| ForkJoinSafety.SyncForkSound | include/libfork/core/impl/awaitables.hpp:297-328 | if a resumed parent finds its steal count as it was before the fork, the forked child has completed |
| ForkJoinBound.TooManySteals | include/libfork/core/impl/frame.hpp:189-215 | a run of two workers with 65535 steals in one scope after which both resume the same frame |
| ForkJoinBound.ExactBound | single_header/libfork.hpp:6034-6057 | every run with at most k steals per scope resumes each frame once, if and only if k is at most 65534 |
| ForkJoinProgress.JoinAnswers | include/libfork/core/impl/awaitables.hpp:425-431 | in every reachable state a join answers ready at once if and only if nothing was stolen from the scope, and then no child is outstanding |
| ForkJoinProgress.ForkOffers | include/libfork/core/impl/awaitables.hpp:239-257 | a fork pushes the parent as the newest handle and runs the child on top of the worker's stack |
| ForkJoinProgress.CallRuns | include/libfork/core/impl/awaitables.hpp:341-352 | a call runs the child there and pushes nothing |
| ForkJoinProgress.StealTakesOldest | include/libfork/core/ext/resume.hpp:65-78 | a steal takes the oldest handle only, and counts in the frame before the thief runs it |
| ForkJoinProgress.RootIsTaken | include/libfork/core/ext/resume.hpp:38-61 | a worker runs a submitted task on the stack it was allocated on |
| ForkJoinProgress.ReturnEnds | single_header/libfork.hpp:6274-6305 | a final suspend frees the worker of a root, resumes the caller of a called task, and makes a forked one look at the deque |
| ForkJoinProgress.FinishPops | single_header/libfork.hpp:5991-6002 | a finished child that pops a handle resumes its parent, with an unchanged steal count, and otherwise goes on to register |
| ForkJoinProgress.StolenForkIsTold | include/libfork/core/impl/awaitables.hpp:297-328 | whoever resumes a fork by stealing it sees a steal count that has changed since the fork |
| ForkJoinProgress.RegisterEnds | single_header/libfork.hpp:6034-6081 | a registration removes just this child from the outstanding ones, and either resumes the parent or leaves the worker idle |
| ForkJoinProgress.StackStays | single_header/libfork.hpp:6056-6081 | a worker changes stacks only to resume a frame that lies on another, or for a new empty one when it gives its own up |
| ForkJoinProgress.CanFinish | include/libfork/core/impl/awaitables.hpp:425-485 | from every reachable state with a worker some actions finish every task: no run can deadlock |
| FrameExceptions.StepKeeps | include/libfork/core/impl/frame.hpp:222-234 | the first to exchange the flag, and only it, constructs the exception pointer |
| FrameExceptions.FirstIsRethrown | include/libfork/core/impl/awaitables.hpp:490-498 | however captures interleave on one frame, a rethrow with none in flight throws if and only if something was captured, throws the first captured, and leaves the frame clean |
| FrameExceptions.ThrowIsRethrown | include/libfork/core/impl/frame.hpp:222-234 | whatever is thrown into a frame is among what was captured when the next join finds nothing in flight, and that join throws |
| ForkJoinExceptions.NothingInFlight | include/libfork/core/impl/awaitables.hpp:490-498 | while children and stashes capture concurrently, whoever passes a join finds no capture into that frame in flight |
| ForkJoinExceptions.JoinRethrows | include/libfork/core/impl/frame.hpp:222-268 | in every joint run of the join protocol and of captures, passing a join rethrows if and only if something was captured, the first captured, and the rethrow leaves the frame clean |
| ForkJoinExceptions.EveryExceptionArrives | include/libfork/core/impl/promise.hpp:318-329 | an exception that escapes a forked or called child is captured when its parent's join is next passed, and a stashed one when its own is, and that join throws |
| EventCount.HalvesIndependent | single_header/libfork.hpp:7862-7899 | while the waiters stay below 2^32 no operation disturbs the other half of the word |
| EventCount.WaitersOverflow | single_header/libfork.hpp:7874-7878 | at 2^32 waiters one more is read as an epoch |
| EventCount.KeyTells | single_header/libfork.hpp:7889-7891 | the epoch differs from a key exactly if the bumps since are no multiple of 2^32 |
| LazyPool.Shared | include/libfork/schedule/lazy_pool.hpp:97-246 | a step of the event loop touches counters, words and sleepers only, and never takes an epoch back |
| LazyPoolCounts.StepCounts | include/libfork/schedule/lazy_pool.hpp:97-268 | in every step the thief, active and waiter counts are the numbers of workers in those phases |
| LazyPoolWake.GoCovered | include/libfork/schedule/lazy_pool.hpp:195-268 | every step of a worker keeps each domain covered by a thief, an obligation or a pending wake-up |
| LazyPoolWake.WakeReaches | single_header/libfork.hpp:7862-7866 | a delivered notify_one turns a sleeper on an old epoch into a worker that returns |
| LazyPoolWake.StepCovers | include/libfork/schedule/lazy_pool.hpp:97-133 | so does every step of every thread, submitters included |
| LazyPoolSafety.ReachableInv | include/libfork/schedule/lazy_pool.hpp:195-278 | the invariant holds in every state of every run in which nobody misses 2^32 notifications between prepare and wait |
| LazyPoolSafety.WakeInvariant | include/libfork/schedule/lazy_pool.hpp:173-193 | before stop, with an active worker, a domain without thieves has no sleeper, or a worker that returns by itself, or one that must still notify it, or a notification that must still wake a sleeper |
| LazyPoolSafety.NoLostSubmission | include/libfork/core/ext/context.hpp:70-78 | a worker blocked on a non-empty list has a submitter in the middle of its notify_all |
| LazyPoolWork.BatchIsTaken | include/libfork/schedule/lazy_pool.hpp:195-235 | a list shrinks only by becoming as a whole the batch of its worker, which from then on cannot leave the way to running it |
| LazyPoolWork.NothingIsDropped | include/libfork/schedule/lazy_pool.hpp:97-235 | in every run what was pushed to a worker is still listed or was handed over to be run, and the worker has run everything it got hold of but what it is at |
| LazyPoolWork.EverySubmissionCanRun | include/libfork/schedule/lazy_pool.hpp:195-268 | from every reachable state before stop, a worker with listed submissions and the submitters under way suffice to make them all a batch that it is running |
| LazyPoolWork.EveryWorkerCanLeave | include/libfork/schedule/lazy_pool.hpp:237-246 | from every reachable state after stop, a worker and the destructor suffice for the worker to leave its loop |
| LazyPoolSafety.NoLostStop | include/libfork/schedule/lazy_pool.hpp:381-394 | once the destructor has notified a domain nobody there is blocked and every wait returns |
| LazyPoolSafety.BlocksExactly | single_header/libfork.hpp:7889-7891 | whatever has happened, a wait blocks exactly if its domain was notified a multiple of 2^32 times since prepare |
| LazyPoolSafety.CountersExact | single_header/libfork.hpp:7852-7899 | the halves of every event count are the number of its waiters and of its notifications modulo 2^32 |
| LazyPoolComment.CommentIsNotKept | include/libfork/schedule/lazy_pool.hpp:173-193 | in every pool with two workers, in one domain or two, a run reaches a state before stop with an active worker and a domain asleep without a thief |
| LazyPoolComment.CommentHoldsAtRest | include/libfork/schedule/lazy_pool.hpp:173-193 | in every reachable state the comment is right about each domain where no notification or return is under way |
| LazyPoolComment.CommentIsForOneWorker | include/libfork/schedule/lazy_pool.hpp:173-193 | the comment holds in every state before stop if and only if the pool has at most one worker |
| Segments.Ext | single_header/libfork.hpp:1931 | the least aligned size that is large enough |
| Segments.Request | single_header/libfork.hpp:1690-1711 | at least the size, less than a page more, and a whole number of pages with the allocator's data |
| Segments.AllocKeeps | single_header/libfork.hpp:1926-1947 | every allocation keeps blocks inside, capacities doubling and at most one cached stacklet |
| Segments.DeallocKeeps | single_header/libfork.hpp:1953-1982 | so does every deallocation |
| Segments.DeallocCache | single_header/libfork.hpp:1961-1978 | a deallocation that empties a stacklet leaves at most a cache of eight times the new top |
| Segments.DeallocKeepsCaps | single_header/libfork.hpp:1953-1982 | exactly which stacklets a deallocation keeps: the emptied one stays cached if and only if it is at most eight times the new top |
| Segments.FitsStays | single_header/libfork.hpp:1926-1947 | a block that fits goes on the top stacklet after the others, and no stacklet comes or goes |
| Segments.NextIsUsed | single_header/libfork.hpp:1933-1938 | one that does not is the first on the next stacklet: the cached one if large enough, else a new one of at least twice the capacity and at most a page more than needed |
| Segments.CacheServesAgain | single_header/libfork.hpp:1926-1982 | a block that opened a stacklet, freed and allocated again, finds that stacklet in the cache |
| Segments.RoundTrip | single_header/libfork.hpp:1926-1982 | deallocation undoes allocation: the same blocks on the same stacklets, with only the cache changed |
| Segments.Run | single_header/libfork.hpp:1926-1982 | every balanced use, however nested, restores the blocks and with them the top and its stack pointer |
| Segments.Geometric | single_header/libfork.hpp:1933-1938 | stacklet i is at least 2^i times the first, so the chain is logarithmic in its top capacity |
| Segments.BlockInside | single_header/libfork.hpp:1926-1947 | every live block is aligned and inside its stacklet |
| Segments.BlocksDisjoint | single_header/libfork.hpp:1926-1947 | live blocks on one stacklet do not overlap |
| SegmentedStack.Stack.constructor | single_header/libfork.hpp:1853 | a stack starts with one empty stacklet |
| SegmentedStack.Stack.Free | single_header/libfork.hpp:1773-1776 | only a stacklet that is held can be freed, so none is freed twice |
| SegmentedStack.Stack.DropCache | single_header/libfork.hpp:1773-1776 | the cached stacklet, if any, is freed and unlinked |
| SegmentedStack.Stack.NextStacklet | single_header/libfork.hpp:1783-1811 | a new stacklet of at least the size is linked as the top, and the cache it replaces is freed |
| SegmentedStack.Stack.Allocate | single_header/libfork.hpp:1926-1947 | the top stacklet and its stack pointer serve a block that fits, the cached stacklet one that fits there, and only else is a stacklet new; the links and pointers follow the specified allocation, the stacklets below stay, and whatever is no longer held was freed |
| SegmentedStack.Stack.Deallocate | single_header/libfork.hpp:1953-1982 | the stack pointer returns to the block, or the top to its predecessor when it is empty, with a cache of at most eight times its capacity; the links follow the specified deallocation, and whatever is no longer held was freed |
| SegmentedStack.Stack.Destroy | single_header/libfork.hpp:1893-1898 | at the root everything still held is freed, so nothing is leaked |
| SegmentedStack.UseStack | single_header/libfork.hpp:1926-1982 | whatever is nested on a stack, it comes back with the same top stacklet and stack pointer |
| SubmissionList.StepKeeps | include/libfork/core/ext/list.hpp:81-115 | every step of pushers and owner keeps the lists acyclic and apart and nothing lost, repeated or reordered |
| SubmissionList.FifoExactlyOnce | include/libfork/core/ext/list.hpp:81-115 | in every run the nodes in order of their successful exchange are the results of try_pop_all one after the other and then what is linked, oldest first |
| SubmissionList.HeldOrLinked | include/libfork/core/ext/list.hpp:81-94 | a push goes on holding its node until its exchange has linked it |
| SubmissionList.EveryPushLinks | include/libfork/core/ext/list.hpp:81-94 | in every run the pushes of a node that began are those that have linked it and the one that still holds it |
| SubmissionList.LonePushLinks | include/libfork/core/ext/list.hpp:81-94 | an undisturbed push links its node in front of the others |
| SubmissionList.PopAllReturns | include/libfork/core/ext/list.hpp:102-115 | try_pop_all ends and returns everything that was linked, oldest first |
| SubmissionList.ReversalReturns | include/libfork/core/ext/list.hpp:102-115 | each round of the reversal shortens what is left, and its end returns the batch in FIFO order |
| IntrusiveList.List.Push | include/libfork/core/ext/list.hpp:81-94 | the node becomes the head in front of the others |
| IntrusiveList.List.TryPopAll | include/libfork/core/ext/list.hpp:102-115 | the loop terminates with an empty list and the old nodes linked in reverse |
| ParallelFold.Chunked | include/libfork/algorithm/fold.hpp:53-108 | the chunked recursion computes the tree of combinations |
| ParallelFold.Single | include/libfork/algorithm/fold.hpp:113-153 | so does the version without chunks |
| ParallelFold.ParallelFold | include/libfork/algorithm/fold.hpp:161-207 | nothing exactly for an empty range; the left fold for an associative operation, and for any operation if one chunk suffices |
| ParallelFold.FoldsIffAssociative | include/libfork/algorithm/fold.hpp:53-153 | the fold agrees with the left fold on all inputs and chunk sizes if and only if the operation is associative |
| ParallelFold.Applications | include/libfork/algorithm/fold.hpp:53-153 | however the range is divided, the operation is applied once less than there are elements |
| ParallelFold.LogarithmicDepth | include/libfork/algorithm/fold.hpp:53-153 | the longest chain of applications is at most k + n - 1 for 2^k chunks of n elements |

## Left out

- Weak memory: relaxed, acquire, release and consume orders, fences and the inline assembly; every atomic access is one sequentially consistent step.
- Explicit rescheduling (`context_switch_awaitable`, `try_self_stealing`, `resume_on`): it breaks the shape of the deques that the fork-join part proves.
- Lace.LaceExactlyOnce: is stated for runs whose pushes start below the capacity, which LaceCapacity.ExactCapacity shows to be the exact bound; Lace.ShrinkOutcome and Lace.HalvesStayApart are stated for the same runs.
- Lace: `m_bottom`, which only `size` and `empty` read, and a capacity of zero are not modelled.
- Deques, fork-join protocol, lazy pool and concurrent submission list are step machines over values rather than objects on a heap, since their point is the interleaving of threads; reclamation of replaced ring buffers is not modelled.
- ForkJoinSafety.IdleIsEmpty: a stack a worker gives up empty when it takes another stays in the map of stacks without an owner; its destruction is not modelled.
- FrameExceptions.FirstIsRethrown: assumes that no capture is in flight, which ForkJoinExceptions.NothingInFlight proves of every join; the substitute `exception_before_join` that eager modifiers throw inside a scope is not modelled.
- ForkJoinStacks.FinishStacks: compares stacks where the source compares stacklets; ForkJoinStacklets.StackletsTell proves that the two agree.
- ScanInPlace.ParallelScan: has one element type for the whole array; ScanTyped.ScanAcrossTypes covers different types.
- ScanCorrect.ScanUnderEverySchedule: has one element type for all cells, which ScanTyped.ScanAcrossTypes makes a tagged union of input and output.
- LazyPoolWork.EverySubmissionCanRun: and LazyPoolWork.EveryWorkerCanLeave say that the steps suffice, not that a scheduler takes them, and ask that a blocked worker is not just one notification short of missing 2^32; ForkJoinProgress.CanFinish likewise says that a way exists.
- LazyPool.Shared: thread creation, latches, the choice of victims and the contents of stolen work are outside the model; a steal succeeds or fails arbitrarily.
- LazyPoolWake.WakeReaches: notify_one wakes at least one thread blocked on an older value if there is one, as section [atomics.wait] of the ISO C++ standard says.
- SegmentedStack: `release`, moves and allocation failure; sizes do not wrap around; pointers are offsets from the base of a stacklet, which is assumed aligned.
- IntrusiveList.List.Push: a push whose compare-and-swap succeeds at once; retries are in SubmissionList.
- Asynchronous operations and projections in scan and fold, and exceptions thrown by them: both are total functions.
- C++ type machinery, NUMA topology and hwloc, `map`, `for_each`, `lift`, the other pools, futures and `sync_wait`: they would only add easy members.
