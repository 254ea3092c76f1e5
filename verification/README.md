# Redoubt's invariants

Redoubt is a capability microkernel for RISC-V. Its comments name the invariants it keeps (I1 to I17, R1 to R81); most
are facts about a whole run, a whole tree, or every table at once. This project models the parts that carry them and
proves them for every input, every run and every interleaving.

- `Reclaim` follows a freed frame from its stage to the free-frame index over any number of harts, each step of each
  hart its own transition. `FreeFrames` is the hierarchical index the frames end in.
- `BudgetForest`, `BudgetLedger`, `BudgetBooks`, `BudgetSteps` and `BudgetCalls` are the budget tree: its links, the
  sums over it, the whole ledger, the steps of a destruction or a creation, and the calls themselves.
- `Chains`, `HandleChains` and `HandleTable` are the handle tables and the chains that revoke without a sweep.
- `Revocation` and `Destruction` join ledger, process objects and tables: class `Kernel` holds all three, and its
  `Destroy` is a destruction from mark to end.
- `Calls` is a call from its delivery to every end it can have, and `CallFates` what that means for each thread and
  call over every run. `ProcessTable` says which thread runs where. `Dma` is the frames devices write. `Timer` is the
  timed waits and their expiry. `ZeroingBills` says who pays for zeroing. `TicketLock` is the kernel lock, with its
  halts and wakes.
- `Shrink` is the failing-sequence shrinker, and `ArgsBlock` the boot argument block's writer and reader.

An operation that changes state is a method of a class, proved equal to a function of the state before; what holds
over runs is proved about those functions. `dafny verify dfyconfig.toml` checks everything.

## Findings

- `table_growth` (kernel/src/handle.rs:376-388) counts the free slots of every page in use, but `install_handle`
  (kernel/src/handle.rs:335-346) takes the lowest free index, which may be on a page to be bought. So it can say too
  little: `HandleTable.EmptyFirstPage` reaches such a table, and `HandleTable.GrowthIsExact` says exactly when it is
  right. `prepare` trusts it, and then asserts that no handle was dropped (kernel/src/message.rs:1786-1812): with no
  page left in the receiver's budget one handle sent into such a table passes the check, is dropped
  (`HandleTable.HandleDropped`), and the assertion stops the kernel. `HandleTable.TrustIsKept` is the exact condition
  under which that cannot happen.
- The comment on `expire_due` (kernel/src/time.rs:226-229) says no part of an expiry falls between two billing
  intervals. The code reads the clock twice in a row after the walk and after each destruction
  (kernel/src/time.rs:249-256, kernel/src/time.rs:297-298), and what passes between is nobody's
  (`Timer.TicksFallBetween`). The guard is what is due: `Timer.Timers.ExpireDue` says, for a clock that ticks at every
  reading, that nothing falls between if and only if no wait is due and no deadline with a payer is ended. A budget
  with a deadline has a parent, so has a payer: then if and only if nothing was due at all.
- A wait begun during an expiry can be ended by it though its deadline is later. A `send_receive` on the due list
  whose message an earlier ending has taken goes on to its receive half, a wait with a deadline of its own
  (kernel/src/message.rs:1416-1437), and `pop_due` then finds the thread waiting and times that wait out
  (kernel/src/message.rs:2500-2505): `Timer.DueEntryEndsNewWait`. `Timer.BegunStays` is the exact condition: such a
  wait stays if and only if its thread has no later entry on the due list.
- A tag of 65536 words or more does not fit the header's half word (loader/src/args.rs:58-68), and the block then does
  not read back: `ArgsBlock.ReadsBack` and `ArgsBlock.WriteThenRead` hold if and only if every tag is shorter. The
  loader's only block is 4 pages, 4096 words (loader/src/main.rs:44, loader/src/main.rs:154), so by
  `ArgsBlock.ShortBlockFits` this cannot happen there.

## Model

| member | source | states |
|---|---|---|
| Reclaim.RunKeeps | kernel/src/reclaim.rs:93-250 | The invariant of frames in flight holds in every state of every run from boot, whatever the interleaving of hart steps |
| Reclaim.OnePlace | kernel/src/reclaim.rs:93-250 | In every state of every run a frame in flight is in exactly one place: one stage, one pending list, one done list, the commit list, a destruction's chain, or one hart's hands |
| Reclaim.AllocationsAreZero | kernel/src/mem.rs:446-465 | Every frame an allocation hands out has every word zero, is its new owner's alone, and is mapped by no table and in no process's reach from before (R81) |
| Reclaim.OutOfReach | kernel/src/mem.rs:564-599 | A frame free, pended, being zeroed, done or being committed is mapped by no page table and within no process's reach, so nothing undoes its zeroing |
| Reclaim.NextWorld | kernel/src/mem.rs:564-599 | What each step does to the page tables and to what each process can still reach: mapping adds, a frame leaves a process's reach by a shootdown alone, and retiring changes neither |
| Reclaim.ReachLasts | kernel/src/reclaim.rs:93-119 | In every run, a frame within a process's reach stays there until a step shoots that process down |
| Reclaim.ReusedOnlyShot | kernel/src/mem.rs:446-465 | In every run, between a frame's being mapped by a process and its being handed out again, that process was shot down |
| Reclaim.RetiredIsStaged | kernel/src/reclaim.rs:95-106 | A frame retired from a process is in flight on a stage of that process's, and still within its reach unless that very step shot it down |
| Reclaim.NextMoves | kernel/src/reclaim.rs:93-250 | Where every frame is after each step, from where it was: stage, pending list, done list, commit list, chain, a hart's hands, free or owned |
| Reclaim.NextSection | kernel/src/cell.rs:111-154 | The kernel lock is whose it was but for entering and leaving |
| Reclaim.InUseKept | kernel/src/reclaim.rs:205-228 | In every run a frame in use keeps its words but for a store to it: no zeroing ever touches it |
| Reclaim.WorkEnds | kernel/src/reclaim.rs:205-228 | In every run each step of a hart's zeroing leaves fewer to make, and no other hart adds to them |
| Reclaim.WaitIsForZeroing | kernel/src/reclaim.rs:256-270 | With nothing free, staged, pending, done or committing, a frame in flight is one some hart is zeroing outside the lock, so the allocator's wait is for such a hart alone |
| Reclaim.NextKeeps | kernel/src/reclaim.rs:93-250 | Every step of every hart, under the lock or outside it, keeps the invariant |
| Reclaim.RetireStagedKeeps | kernel/src/reclaim.rs:95-106 | Staging a retired frame, shooting the stage down first when it is full or another process's, keeps the invariant |
| Reclaim.ShootKeeps | kernel/src/reclaim.rs:111-119 | A shootdown moves the process's staged frames to the pending list; what its tables no longer name leaves its reach |
| Reclaim.PendChainKeeps | kernel/src/reclaim.rs:146-150 | A destruction's chain goes onto the pending list whole, by one write |
| Reclaim.TakeOneKeeps | kernel/src/reclaim.rs:176-200 | An idle hart takes one pending frame into its own hands |
| Reclaim.WorkStepKeeps | kernel/src/reclaim.rs:205-228 | Zeroing word by word, linking and pushing done by compare-exchange, each a step of its own, keep the invariant against every other hart |
| Reclaim.TakeDoneKeeps | kernel/src/reclaim.rs:239-242 | A done list is taken whole, every frame of it zero but its link |
| Reclaim.CommitKeeps | kernel/src/mem.rs:496-507 | A done frame goes back to the bitmap only with its link cleared, all zero |
| Reclaim.PopZeroKeeps | kernel/src/mem.rs:470-490 | A pending frame of any hart, zeroed under the lock by an allocation that found nothing free, goes back zero |
| FreeFrames.Sized | kernel/src/mem.rs:199-207 | The levels' words back to back, each with a word for every 64 entries below it; refused exactly when one word does not top them |
| FreeFrames.Bitmap.constructor | kernel/src/mem.rs:376-381 | Every level is the summary of the level below, for any number of frames |
| FreeFrames.Bitmap.SummaryWord | kernel/src/mem.rs:666-676 | The bits of a summary word are exactly those entries with something free below |
| FreeFrames.Bitmap.MarkFree | kernel/src/mem.rs:633-645 | Stopping at the first word whose emptiness did not change still leaves every level equal to its summary |
| FreeFrames.Bitmap.SetOwner | kernel/src/mem.rs:616-626 | The owner is set, and every level of the index agrees with the owners again |
| FreeFrames.Bitmap.FindFree | kernel/src/mem.rs:650-661 | The least (or greatest) index whose owner is nobody, and none exactly when every frame is owned |
| FreeFrames.BitMeansFree | kernel/src/mem.rs:666-676 | A bit at any level is set exactly when some frame under it is free |
| BudgetForest.NextInWalk | kernel/src/budget.rs:1060-1074 | The next-budget step over the child and sibling links is the pre-order successor, even with the top's own stale sibling link |
| BudgetForest.WalkVisitsOnce | kernel/src/budget.rs:1060-1074 | The walk visits every budget of the subtree exactly once |
| BudgetForest.ChildrenFirst | kernel/src/budget.rs:1236-1248 | In the order budgets are freed each comes after everything below it |
| BudgetForest.UnlinkedLinks | kernel/src/budget.rs:1129-1147 | Unlinking a child leaves its siblings' list well linked and no other link changed |
| BudgetLedger.Conserved | kernel/src/budget.rs:825-882 | A forest's direct charges plus each budget's own page are within what its roots use, for every resource |
| BudgetLedger.FreeIsFree | kernel/src/budget.rs:118-122 | What any one budget has free is on top of everything charged in the tree, within what the tree's roots carve |
| BudgetBooks.RootBoundsCharges | kernel/src/budget.rs:753-797 | All direct charges in the tree, with a page for every budget but `root`, are within `root`'s limit (R6) |
| BudgetBooks.FreePidExists | kernel/src/process.rs:333-343 | By pigeonhole over the counts of the whole tree, a budget with room for a process implies a free PID |
| BudgetBooks.ChargeKeeps | kernel/src/budget.rs:569-577 | A charge within the limit keeps the whole ledger |
| BudgetBooks.UnchargeKeeps | kernel/src/budget.rs:579-584 | Giving back pages other than quarantined ones never underflows, and keeps the ledger |
| BudgetBooks.CountKeeps | kernel/src/budget.rs:644-652 | A PID counted in one live budget keeps every count exact |
| BudgetBooks.UncountKeeps | kernel/src/budget.rs:655-659 | A PID uncounted never underflows a count |
| BudgetBooks.CarveKeeps | kernel/src/budget.rs:825-882 | A child carved from its parent keeps every budget's use equal to its charges plus its children's carves |
| BudgetBooks.MarkKeeps | kernel/src/budget.rs:1036-1055 | Marking detaches the subtree, gives its weight back, and keeps the ledger with the carve still owed |
| BudgetBooks.MovesFit | kernel/src/dma.rs:315-341 | The quarantined pages and held PIDs of a dying subtree are within its carve, so they always fit in the parent (I5) |
| BudgetBooks.DestroyKeeps | kernel/src/budget.rs:1177-1200 | The ledger is sound again once the subtree is gone |
| BudgetSteps.LiftKeeps | kernel/src/budget.rs:1336-1339 | Lifting the dying budgets moves no counter outside the subtree |
| BudgetSteps.EndedLiftable | kernel/src/budget.rs:1396-1431 | A process's end in a marked subtree leaves it liftable: no weight and no link moves |
| BudgetSteps.MeanwhileEnded | kernel/src/budget.rs:687-710 | A process's end after the mark, wherever it ran, moves no budget's meters but with that budget's own charges, and no weight outside the subtree |
| BudgetSteps.MeanwhileFreed | kernel/src/process.rs:800-816 | So does an object freed: its creator's budget is given its page, and the PID stops counting |
| BudgetSteps.FreedLiftable | kernel/src/process.rs:800-816 | An object freed leaves the marked subtree liftable |
| BudgetSteps.DestructionReturns | kernel/src/budget.rs:1177-1200 | Whatever ended and was freed after the mark, inside the subtree or not, the parent has back exactly what the destroyed budget carved, and beyond that every budget's meters moved with its own charges alone (I10) |
| BudgetSteps.CreateThenDestroy | kernel/src/budget.rs:942-947 | A budget created and at once destroyed leaves the ledger as it was |
| BudgetSteps.EndSteps | kernel/src/budget.rs:1177-1200 | What each step of the end of a destruction asks holds as it comes: nothing underflows, everything moved fits |
| BudgetSteps.QuarantineKeeps | kernel/src/dma.rs:235-276 | A run quarantined stays among what its budget is charged |
| BudgetCalls.Budgets.Charge | kernel/src/budget.rs:569-577 | Succeeds exactly when the pages fit; a refusal changes nothing |
| BudgetCalls.Budgets.Uncharge | kernel/src/budget.rs:579-584 | The pages go back, exactly |
| BudgetCalls.Budgets.RandomFreePid | kernel/src/process.rs:333-343 | The drawn one of the PIDs no process runs under and no object names; none only if there is none |
| BudgetCalls.Budgets.DrawPid | kernel/src/process.rs:349-388 | In a budget with room for a process the draw never fails, and the PID is held by nobody |
| BudgetCalls.Budgets.UnlinkChild | kernel/src/budget.rs:1129-1147 | The list walk unlinks exactly the child |
| BudgetCalls.Budgets.Next | kernel/src/budget.rs:1060-1074 | The climb over parents and siblings is the pre-order successor |
| BudgetCalls.Budgets.MarkSubtree | kernel/src/budget.rs:1046-1054 | The loop marks exactly the subtree dying |
| BudgetCalls.Budgets.MarkDying | kernel/src/budget.rs:1036-1055 | The subtree detached, its weight back, exactly its budgets dying, and ready to be lifted |
| BudgetCalls.Budgets.ReturnCarve | kernel/src/budget.rs:1315-1326 | The parent is repaid the child's page and limits |
| BudgetCalls.Budgets.MigrateQuarantine | kernel/src/dma.rs:315-341 | Every quarantined run of a dying budget, and no other, is charged to the parent |
| BudgetCalls.Budgets.MigrateHeldPids | kernel/src/process.rs:260-280 | Every PID counted in a dying budget, and no other, is counted in the parent |
| BudgetCalls.Budgets.LiftDying | kernel/src/budget.rs:1336-1339 | Post-order, every weight carved in the subtree comes back: each dying budget uses none, and nothing else changes |
| BudgetCalls.Budgets.FreeDying | kernel/src/budget.rs:1225-1231 | Exactly the subtree is freed, each budget after those below it |
| BudgetCalls.Budgets.DestroyMarked | kernel/src/budget.rs:1177-1200 | The carve back, runs and PIDs moved up, the budgets freed, and the ledger sound |
| BudgetCalls.Budgets.NewBudget | kernel/src/budget.rs:825-882 | The child and its parent as the carve says, within the invariant |
| BudgetCalls.Budgets.BudgetCreate | kernel/src/budget.rs:886-953 | The first check that fails decides the error, in the source's order; any refusal, the handle's included, leaves the ledger exactly as it was; a success leaves a budget below its parent with the limits asked for, nothing of them used |
| BudgetSteps.CreatesWhenRoom | kernel/src/budget.rs:886-953 | A creation succeeds if and only if there is depth, pages, processes and weight free in the parent, some weight left to a parent that runs a process, a frame, and a slot the caller can pay for; each error names what was missing |
| BudgetSteps.ProcessWhenRoom | kernel/src/process.rs:349-432 | A process is created if and only if its budget has weight, a process and the pages free, there are frames, and the caller can pay for its object and a slot; each error names what was missing |
| BudgetCalls.Budgets.ProcessCreated | kernel/src/budget.rs:665-681 | The process counts and runs in its budget, which keeps free weight |
| BudgetCalls.Budgets.ProcessEnded | kernel/src/budget.rs:687-710 | Its pages back; its PID counted on exactly while an object names it |
| BudgetCalls.Budgets.Quarantine | kernel/src/dma.rs:235-276 | A dead holder's run is charged to its budget until the budget goes |
| BudgetCalls.Budgets.FreeObject | kernel/src/process.rs:800-816 | The object's page back with the budget that paid for it, and the PID free |
| BudgetCalls.Budgets.DropUnstarted | kernel/src/process.rs:453-464 | A process that never ran ends with the ledger as before it |
| BudgetCalls.Budgets.NameObject | kernel/src/process.rs:389-429 | An object of one page and its handle: the first failing check decides the error, and any refusal leaves the ledger exactly as it was |
| BudgetCalls.Budgets.ProcessCreate | kernel/src/process.rs:349-432 | The first failing check decides the error; any refusal leaves the ledger exactly as it was; a PID is always found, held by no process, object or notice; the object's payer is the caller's budget |
| BudgetCalls.Boot | kernel/src/budget.rs:753-818 | Fails exactly when `init` does not fit; `system` has a quarter of the pages left, 127 processes and a quarter of the weight, `users` the rest; `init` is left exactly its own weight and pages, and every PID but its own is carved out |
| Chains.EnterForms | kernel/src/handle.rs:604-613 | Entering a slot first in a frame's chain keeps every chain a well-formed doubly linked list |
| Chains.LeaveForms | kernel/src/handle.rs:616-629 | A slot leaves its chain wherever it is in it, found by its own links alone, and every chain stays well formed |
| HandleChains.ChainTells | kernel/src/handle.rs:498-503 | The head of a chain is one of the slots the chain is to hold, or there is none |
| HandleChains.ChainsAreComplete | kernel/src/handle.rs:546-568 | With no holder in the subtree, closing its chains closes exactly what a sweep of every table would |
| HandleChains.BudgetsChange | kernel/src/handle.rs:559-568 | Budgets coming and going move no handle to another chain |
| HandleChains.Handles.constructor | kernel/src/handle.rs:546-629 | The empty tables are sound over any tree |
| HandleChains.Handles.WithinBudget | kernel/src/handle.rs:559-568 | The climb up the tree from the holder, whatever the tree; that it answers whether the holder is in the subtree is `Revocation.WithinIsSubtree` |
| HandleChains.Handles.ChainHeads | kernel/src/handle.rs:546-555 | The heads exactly the definition of dependence asks for |
| HandleChains.Handles.EnterChain | kernel/src/handle.rs:604-613 | The words written are the chain with the slot first |
| HandleChains.Handles.LeaveChain | kernel/src/handle.rs:616-629 | The words written are the chain without the slot |
| HandleChains.Handles.Install | kernel/src/handle.rs:331-372 | A handle entered in exactly the chains its holder's place calls for, all invariants kept |
| HandleChains.Handles.Kill | kernel/src/handle.rs:427-436 | A live handle left dead and in no chain; anything else untouched |
| HandleChains.Handles.Close | kernel/src/handle.rs:416-423 | The slot empty and in no chain |
| HandleChains.Handles.CloseChain | kernel/src/handle.rs:498-503 | Exactly the handles that depend on the frame are dead |
| HandleChains.Handles.CloseHandlesTo | kernel/src/handle.rs:496-496 | Exactly the live handles to the process object are dead |
| HandleChains.Handles.CloseSubtree | kernel/src/budget.rs:1177-1200 | Closing the chains of the subtree's budgets in walk order does what a sweep of every table does |
| HandleChains.Handles.ProcessEnded | kernel/src/handle.rs:461-484 | The table gone whole, no chain naming a slot of it, though each page stops at its count of entries |
| Revocation.SubtreeIsApart | kernel/src/budget.rs:1036-1055 | A marked subtree can be walked, and nothing outside it is below it |
| Revocation.TablesOutlive | kernel/src/budget.rs:1177-1200 | Freeing the subtree's budgets keeps every chain right |
| Revocation.WithinIsSubtree | kernel/src/handle.rs:559-568 | The climb from a budget passes another if and only if it is in the subtree the other heads |
| Revocation.ChainedOutside | kernel/src/handle.rs:546-555 | A budget's chains hold a slot if and only if it holds a live handle stamped with the budget, or naming it or something it pays for, and its process runs outside the budget's subtree; a process object's chain holds every live handle to it |
| Destruction.Kernel.constructor | kernel/src/budget.rs:753-760 | `root` alone and empty tables: ledger, objects and tables agree |
| Destruction.Kernel.CreateBudget | kernel/src/budget.rs:825-882 | A budget created keeps them agreeing, and nothing is spoken for in it |
| Destruction.Kernel.CreateProcess | kernel/src/process.rs:349-432 | Refused exactly as the ledger says, and then nothing at all changes; else the process runs in its budget with its pages paid there, its object with its exit endpoint is paid by the caller's budget, and the caller's table holds its handle, a page bought for it if the table grew |
| Destruction.MadeSpoken | kernel/src/process.rs:349-432 | A process made charges each budget exactly what is then answered for there: the process's pages, its object, and the page the creator's table grew by |
| Destruction.Kernel.CreateEndpoint | kernel/src/endpoint.rs:137-154 | The endpoint's page charged to its owner and its handle, stamped with the owner, in the caller's table, and nothing else charged to anybody; any refusal changes nothing |
| Destruction.Kernel.Install | kernel/src/handle.rs:331-372 | The handle in the table and in its chains, and the page a table grows by charged to its process's budget and counted among its frames; a refusal changes nothing |
| Destruction.Kernel.ChargeFrame | kernel/src/budget.rs:569-577 | A frame more for a process exactly if its budget can pay, and charged to that budget alone |
| Destruction.Kernel.Quarantine | kernel/src/dma.rs:235-276 | A run quarantined stays apart from every process's frames and every object |
| Destruction.Kernel.EndProcess | kernel/src/budget.rs:687-710 | A process ended: its table gone, and exactly the frames it answered for given back, without underflow |
| Destruction.Kernel.FreeObject | kernel/src/process.rs:800-816 | Every handle to the object dead, exactly its page back with its creator's budget, its PID free, and nothing else changed |
| Destruction.Kernel.Die | kernel/src/process.rs:770-782 | The process ended; its object goes with it exactly unless its notice may flow to an endpoint that is there |
| Destruction.Kernel.TakeNotice | kernel/src/message.rs:1610-1625 | A notice taken frees the object kept for it, and its PID |
| Destruction.Kernel.KillInside | kernel/src/budget.rs:1405-1428 | Exactly the processes running in dying budgets are killed, exactly those of their objects nobody is to hear of go, and the subtree stays liftable |
| Destruction.Kernel.FreeCharged | kernel/src/process.rs:852-880 | Exactly the objects the subtree paid for are freed, each one's process ended first wherever it runs |
| Destruction.Kernel.DropEars | kernel/src/process.rs:885-895 | Every notice owed on the subtree's endpoints dropped with its object, and a process still running loses the ear it was to report to |
| Destruction.EndsAre | kernel/src/budget.rs:1396-1431 | The processes those loops end are exactly those running in the subtree or created from it |
| Destruction.FreesAre | kernel/src/process.rs:852-895 | The objects they free are exactly those the subtree paid for, and those outside whose process ends, or has ended, with nobody left to hear of it |
| Destruction.Kernel.CloseAndFree | kernel/src/budget.rs:1177-1200 | Every handle that depended on the subtree dead, its endpoints, devices and budgets freed, ledger and tables still agreeing |
| Destruction.Kernel.Destroy | kernel/src/budget.rs:1351-1468 | From a sound kernel alone, to a sound kernel: the processes left are those neither running in nor created from the subtree; the objects left those that outlive it; the PIDs counted in it and the runs quarantined there are the parent's, all others whose they were; each budget's charges changed by exactly its own processes and objects gone, the parent's also by the subtree's quarantined runs; no budget left moved in the tree; the carve is returned; each table is what is left of it |
| Destruction.NoneLeft | kernel/src/handle.rs:546-568 | In the tables a destruction leaves, no live handle is stamped with the subtree, names anything it owned, or names an object that went with it (R10) |
| HandleTable.PositionInverts | kernel/src/handle.rs:255-259 | Indexes and positions are one to one |
| HandleTable.GrowthRefuses | kernel/src/handle.rs:376-388 | The growth is refused exactly for what the table cannot hold |
| HandleTable.GrowthIsExact | kernel/src/handle.rs:376-388 | The growth said is what installing buys, for every number of handles, if and only if no page in use has a free slot past one not in use |
| HandleTable.GrowthCanBeShort | kernel/src/handle.rs:335-346 | With the first page emptied and a free slot later on, nothing is said to be needed and a page is bought |
| HandleTable.EmptyFirstPage | kernel/src/handle.rs:335-346 | Such a 64-page table is reached by installing 65 handles and closing the first 64 |
| HandleTable.NoneDropped | kernel/src/handle.rs:331-372 | Installed one by one, no handle is dropped if and only if the pages left are those installing buys |
| HandleTable.TrustIsKept | kernel/src/message.rs:1780-1812 | A delivery that checks the growth said against the pages left installs every handle, for every number of handles and of pages, if and only if no page in use has a free slot past one not in use |
| HandleTable.HandleDropped | kernel/src/message.rs:1797-1812 | With no page left, and the first page emptied with a free slot later on, one handle passes that check and is dropped |
| HandleTable.DeadStays | kernel/src/handle.rs:293-300 | Over every run an index a sweep closed answers dead, and is given to nobody, until its holder closes it (I17) |
| HandleTable.Table.Lookup | kernel/src/handle.rs:293-318 | Bad for an empty index, dead for a swept one, else the handle |
| HandleTable.Table.Install | kernel/src/handle.rs:331-372 | The lowest index neither live nor dead; the pages paid are the pages in use; each failure for its own reason |
| HandleTable.Table.Kill | kernel/src/handle.rs:427-436 | Only that index changes, to dead, and only if live |
| HandleTable.Table.Close | kernel/src/handle.rs:392-412 | Only that index changes, to empty, and a page left empty is given back |
| HandleTable.Table.TableGrowth | kernel/src/handle.rs:376-388 | The pages the formula gives over the free slots of all pages in use |
| HandleTable.Table.InstallAll | kernel/src/handle.rs:331-372 | Handles installed one by one pay exactly what installing buys |
| Calls.BootSound | kernel/src/message.rs:723-733 | The state at boot keeps the invariant |
| Calls.OpenedKeeps | kernel/src/message.rs:1754-1868 | A message taken: the receiver's budget charged its page and lend, the call on exactly its lists |
| Calls.ClosedKeeps | kernel/src/message.rs:2138-2146 | A call ended: its charge back, off every list |
| Calls.AbandonedKeeps | kernel/src/message.rs:2154-2185 | A call abandoned: the lend the server's alone, the charges moved with it, a notice owed |
| Calls.LendCovered | kernel/src/message.rs:2154-2185 | Each lend is covered by what its owner and payer are charged, so no charge underflows |
| Calls.RunSound | kernel/src/message.rs:1754-1855 | Every state of every run keeps the invariant: charges exact, lists exact, every page in one place |
| Calls.LendsEnd | kernel/src/message.rs:2095-2185 | However a call ends in any run, each page lent is then back with its caller if the call was not abandoned, and freed if it was |
| Calls.NoticeOnce | kernel/src/message.rs:1592-1608 | In no run is an abandoned call's notice delivered twice (I15) |
| Calls.CallCostsNothing | kernel/src/message.rs:2029-2054 | Taken and replied to, a call leaves every budget charged what it was; abandoned in between, its lend is charged to nobody |
| Calls.EndpointDiedKeeps | kernel/src/message.rs:2376-2397 | Afterwards no thread waits on the endpoint, no call waits there, and no notice names it |
| Calls.StampDiedKeeps | kernel/src/message.rs:2303-2316 | Afterwards no message sent through a handle so stamped is queued, and no call so stamped waits |
| Calls.ThreadEndedKeeps | kernel/src/message.rs:2200-2220 | A thread gone leaves no wait, and no call it served |
| Calls.Ipc.constructor | kernel/src/message.rs:1754-1770 | The calls at boot |
| Calls.Ipc.Deliver | kernel/src/message.rs:1754-1868 | Opens exactly when the handles fit, the lend has an address and the receiver's budget can pay for all of it; else the message goes back |
| Calls.Ipc.Open | kernel/src/message.rs:1754-1868 | The whole new state of a call taken |
| Calls.Ipc.Finish | kernel/src/message.rs:2224-2241 | The whole new state of a call ended, replied to or not |
| Calls.Ipc.Abandon | kernel/src/message.rs:2154-2185 | The whole new state of a call abandoned, its frames moved one by one |
| Calls.Ipc.Reply | kernel/src/message.rs:1993-2004 | Only an open call of the replying thread; the call ends, and the answer is delivered exactly if the caller still waited and its record could be written |
| Calls.Ipc.FailWait | kernel/src/message.rs:882-896 | A queued message comes back; a taken call is abandoned |
| Calls.Ipc.EndThread | kernel/src/message.rs:2200-2220 | Its wait withdrawn, then each call it holds ended, the first first |
| Calls.Ipc.EndpointDying | kernel/src/message.rs:2376-2397 | Waiters, callers and notices in the order of the endpoint's lists |
| Calls.Ipc.StampDying | kernel/src/message.rs:2279-2330 | The senders queued through the stamp, then the callers whose calls bear it |
| Calls.Ipc.DeliverNotice | kernel/src/message.rs:1643-1662 | To the thread holding the call alone, never told before |
| CallFates.NextWait | kernel/src/message.rs:2191-2430 | What every thread waits for after each step, from what it waited for: a destroyed endpoint, a revoked stamp, a timeout and an end quieten exactly the threads they concern |
| CallFates.NextCall | kernel/src/message.rs:1754-1855 | Every call after each step, from the call before, and what a call just taken is: its endpoint, stamp and lend the message's, its caller the sender, its server the receiver |
| CallFates.CallLasts | kernel/src/message.rs:1754-1855 | In every run an open call keeps the caller, server, endpoint, stamp and lend of the message it was taken with |
| CallFates.CallComesFrom | kernel/src/message.rs:1754-1868 | In every run from boot, every open call was taken from its caller as it waited to send to that endpoint, through that stamp, with that lend, by a server receiving there |
| CallFates.NoneWaitsAtDestroyed | kernel/src/message.rs:2376-2397 | In every run, once an endpoint is destroyed no caller whose message was sent to it waits for the reply |
| CallFates.NoneWaitsThroughRevoked | kernel/src/message.rs:2303-2316 | In every run, once a stamp is revoked no caller whose message was sent through it waits for the reply |
| CallFates.NoticeIsOwed | kernel/src/message.rs:1592-1608 | In every run, a call whose caller waits no more has its notice owed, or told already, unless its endpoint was destroyed |
| CallFates.NextLimits | kernel/src/message.rs:1754-1855 | No step of a call's life moves a budget's limit, or a process from its budget |
| ProcessTable.BootSound | kernel/src/ptable.rs:249-279 | The table at boot keeps the invariant, for any number of harts |
| ProcessTable.EveryRun | kernel/src/ptable.rs:388-723 | In every run over any number of harts no thread runs on two, none is both ready and running, no process is ready with no thread, and a process is running exactly while some hart runs it |
| ProcessTable.NextKeeps | kernel/src/ptable.rs:317-723 | Every transition keeps the invariant |
| ProcessTable.NextThread | kernel/src/ptable.rs:317-723 | Exactly which threads are ready after each step, and each process's current thread: a wake readies its thread, a switch takes the one it runs, and no other ready thread is lost |
| ProcessTable.NextHart | kernel/src/ptable.rs:388-723 | What each hart runs after each step, from what it ran |
| ProcessTable.RunnableStays | kernel/src/ptable.rs:317-723 | In every run a thread ready or on a hart is so in every later state until a step stops it: a switch away that does not resume it, its own end, or its process's |
| ProcessTable.WokenRuns | kernel/src/ptable.rs:388-401 | In every run a woken thread is ready, and stays ready or on a hart until a step stops it |
| ProcessTable.Processes.constructor | kernel/src/ptable.rs:249-279 | `init` set up and not yet run, every hart in the kernel |
| ProcessTable.Processes.OffHartState | kernel/src/ptable.rs:766-774 | Running while another hart runs it, else ready, or asleep with no thread |
| ProcessTable.Processes.FindNextThread | kernel/src/ptable.rs:404-407 | The next ready thread above the current one, or the lowest |
| ProcessTable.Processes.ReadyThread | kernel/src/ptable.rs:388-401 | The thread joins the ready ones; that it then is ready, and all ready before still are, is `ProcessTable.NextThread` |
| ProcessTable.Processes.StartProcess | kernel/src/ptable.rs:317-326 | Only from allocated, and then ready with its first thread |
| ProcessTable.Processes.LeavePrevious | kernel/src/ptable.rs:514-530 | The hart's thread off it, ready again only if it can resume |
| ProcessTable.Processes.Activate | kernel/src/ptable.rs:534-689 | A switch runs the thread named, or with none named the next in turn after the process's current one; one that returns an error had no such thread to run and leaves every process as it was |
| ProcessTable.Processes.DestroyThread | kernel/src/ptable.rs:695-723 | The running thread gone: its process's next thread in turn runs if one is ready, else the hart is in the kernel and the process asleep, or running as the rest of it is |
| ProcessTable.Processes.EndProcess | kernel/src/ptable.rs:726-744 | The process free, and no hart running it |
| Dma.BootSound | kernel/src/dma.rs:108-118 | A pool with every frame free and no run is sound |
| Dma.FreeIsUnreachable | kernel/src/dma.rs:195-276 | From boot, in every state of every run: no device a process ever mapped or allocated through, and that was not reset since, can write a frame of the pool that is free (I16) |
| Dma.PooledOnlyReset | kernel/src/dma.rs:235-276 | A frame goes back to the pool by its holder's death only if every device the holder ever mapped or allocated through confirmed a reset in that release |
| Dma.MoveWorld | kernel/src/dma.rs:195-276 | What each move does to the history: which devices each process has touched, and which devices can write each frame |
| Dma.TouchedIsReset | kernel/src/dma.rs:183-185 | In every run from boot a device mapped or allocated through stays in its process's reset set until that process's end, and no frame of the process's is pooled then unless that device confirmed |
| Dma.EndSettles | kernel/src/dma.rs:235-276 | A holder's end exactly: each of its runs gone or quarantined, each other run as it was, a device quarantined only by failing, and a frame freed only if the holder's and all confirmed |
| Dma.QuarantineLasts | model/src/ghost.rs:402-420 | A quarantined run, and a quarantined device, stay so in every later state; who dies having used such a device leaves its runs quarantined |
| Dma.MadeKeeps | kernel/src/dma.rs:199-212 | A run made: the held frames stay the disjoint union of the runs, its frames within no device's reach |
| Dma.Registry.constructor | kernel/src/dma.rs:108-118 | The registry at boot |
| Dma.Registry.FindStretch | kernel/src/mem.rs:847-864 | The first stretch of free frames that long, and none only if there is none |
| Dma.Registry.Alloc | kernel/src/dma.rs:199-212 | A run made of the first stretch free and mapped, exactly when the device has a place for it, there is a stretch that long, and it can be paid for and mapped; else nothing changed |
| Dma.Registry.DropRun | kernel/src/dma.rs:216-221 | The run just made undone exactly |
| Dma.Registry.Mapped | kernel/src/dma.rs:183-185 | The device in the process's reset set and its history, and its frames within the device's reach |
| Dma.Registry.Close | kernel/src/dma.rs:235-276 | A process with no runs goes: its account and its history, and nothing else |
| Dma.Registry.Release | kernel/src/dma.rs:235-276 | Pooled if every device confirmed, else every run and every failed device quarantined; only a resettable device not quarantined can confirm |
| Timer.EarliestIsLeast | kernel/src/message.rs:578-583 | The cached value is a minimum: nothing earlier, and something that early |
| Timer.UntimedKeeps | kernel/src/message.rs:584-605 | A wait that ends leaves the cache equal to the minimum deadline of the waits left |
| Timer.MarkedKeeps | kernel/src/message.rs:822-838 | A wait begun leaves the list by deadline and the cache exact |
| Timer.Timers.Untime | kernel/src/message.rs:584-605 | The wait off the list, the cache raised only if it was first |
| Timer.Timers.Mark | kernel/src/message.rs:822-838 | The wait listed after every wait not later; one forever is not listed |
| Timer.Timers.CollectDue | kernel/src/message.rs:2454-2488 | The due list is exactly the waits due, in order; the next deadline is the earliest still to come; no process was read in vain |
| Timer.NextIsFirst | kernel/src/time.rs:263-271 | The item ended next is due and comes before everything else due: earliest first, a timeout before a budget at a tie |
| Timer.Timers.ExpireDue | kernel/src/time.rs:230-341 | Ends; nothing due is left but a wait an ending itself began; the waits and deadlines left are exactly those the endings leave, so none still to come is lost but to an answer, an end or a new wait of its thread's; everything due was ended in order unless what ended before took it along; every wait's part of the walk is its equal share and the first's the remainder; bills and the ticks nobody pays for are the elapsed ticks exactly; and the places where such ticks fall are one if a wait was due, and one for each deadline ended whose payer is there |
| Timer.EndedWaits | kernel/src/time.rs:260-299 | Exactly the waits and deadlines there are after one ending: those before but the one ended, those answered, those ended, and those begun anew |
| Timer.LeftIs | kernel/src/time.rs:249-299 | A wait is left by an expiry if and only if it was there and no ending touched its thread, or an ending began it and none after touched its thread |
| Timer.LaterStays | kernel/src/message.rs:2454-2488 | A wait still to come is there after the expiry unless an ending answered its thread, ended it or set it waiting anew |
| Timer.BegunStays | kernel/src/message.rs:2502-2505 | A wait an ending begins, that no later ending answers or ends, outlasts the expiry if and only if no later entry of the due list names its thread; so always if its thread had nothing due |
| Timer.DueEntryEndsNewWait | kernel/src/message.rs:1416-1437 | A thread on the due list whose turn goes on to a wait until 100 loses that wait to its own entry, in an expiry at 6 |
| Timer.PartFits | kernel/src/time.rs:249-281 | What is left of the walk's cost always covers the next wait's whole share |
| Timer.ClosedBalanced | kernel/src/time.rs:324-327 | The bills, and what nobody is billed for, are the whole time, and the walk is billed exactly but for what was lost |
| Timer.NothingBetween | kernel/src/time.rs:249-256 | With a clock that ticks at every reading, a tick at least is nobody's at each of those places; with any, none is if and only if the clock stood still at each |
| Timer.TicksFallBetween | kernel/src/time.rs:249-256 | With such a clock and a wait due, the first interval opens later than the walk's cost was read |
| Timer.NothingDue | kernel/src/time.rs:249-299 | With such a clock no tick is nobody's if and only if no wait is due and no deadline with a payer is ended; with every deadline's payer there, if and only if nothing was due |
| Timer.ListedStep | kernel/src/message.rs:1416-1437 | Whatever waits an ending begins, every wait due is on the due list but those begun |
| TicketLock.MutualExclusion | kernel/src/cell.rs:111-154 | For any number of harts up to 2^32 and wrapping counters, at most one hart holds the lock |
| TicketLock.EntryIsFifo | kernel/src/cell.rs:111-154 | Harts enter in exactly the order they drew |
| TicketLock.BoundedWait | kernel/src/cell.rs:157-180 | A hart that drew behind k others enters after exactly k sections, k below the number of harts |
| TicketLock.NeverWedged | libs/ticket/src/lib.rs:45-102 | While a hart is in line some hart can move without a new hart or a stray interrupt: no wake is lost |
| TicketLock.EveryoneEnters | libs/ticket/src/lib.rs:45-102 | From any state of any run the lock, left to itself, makes at most harts * (harts + 24) steps in whatever order the harts take them, and when none is left every hart that drew has entered, in the order they drew, and left |
| TicketLock.StepsRunDown | libs/ticket/src/lib.rs:45-102 | Every step of the lock's own, by any hart, leaves fewer to make |
| TicketLock.CountsThoseAhead | kernel/src/cell.rs:111-154 | What the checked build counts over wrapping counters is the harts ahead in line |
| TicketLock.StepInv | libs/ticket/src/lib.rs:45-102 | Every step of waiting, halting, waking and releasing keeps the invariant |
| ZeroingBills.BootSound | kernel/src/sched.rs:133-150 | No payer, nothing retired: sound |
| ZeroingBills.RetiredKeeps | kernel/src/sched.rs:484-500 | Retiring adds its frames after all the others on one payer, whether merged or not, and the entries in use stay a prefix |
| ZeroingBills.OffKeeps | kernel/src/sched.rs:545-560 | What is taken is the newest frames and what stays the rest: the two parts of what was there |
| ZeroingBills.OffIsNewest | kernel/src/sched.rs:545-560 | It accounts for every frame it was asked for |
| ZeroingBills.BilledAtMostMeasured | kernel/src/sched.rs:565-586 | A pass bills at most the ticks it measured, and with every frame paid for all but a tick a share |
| ZeroingBills.BillsAddUp | kernel/src/sched.rs:481-606 | On every run, through overflow merges and destruction lifts: entries a prefix, their sum the frames still to bill, no payer gone, bills within the ticks measured |
| ZeroingBills.NextOwed | kernel/src/sched.rs:481-606 | Who pays for each frame after each step, frame by frame: a retired frame is the destruction's payer's while the hart runs one, else its billing budget's, or with all four entries in use the newest payer's; zeroing takes off the newest; a destruction hands its payer the dying budgets' frames one for one |
| ZeroingBills.NextBills | kernel/src/sched.rs:565-586 | Each budget's bill of an idle pass is the part of the ticks its own frames are of the frames zeroed, less under a tick an entry of its; no other step bills |
| ZeroingBills.NextTicks | kernel/src/sched.rs:599-606 | The ticks to bill are those measured since the last pass; frames outstanding, billing budget and destruction payer move by their own steps alone |
| ZeroingBills.BillsReachTheLiving | kernel/src/sched.rs:519-541 | Every bill goes to a budget still there (R10) |
| ZeroingBills.Sched.Retire | kernel/src/sched.rs:484-500 | The new entries exactly |
| ZeroingBills.Sched.ZeroedOff | kernel/src/sched.rs:545-560 | The shares and what is left exactly, the shares summing to the frames |
| ZeroingBills.Sched.BillIdle | kernel/src/sched.rs:599-606 | The bills of an idle pass exactly |
| ZeroingBills.Sched.LiftZeroing | kernel/src/sched.rs:519-541 | Every hart's entries of dying budgets, and no others, name the payer |
| Shrink.Shrink | model/src/check.rs:180-204 | Ends for every sequence and predicate; the result is a subsequence, still fails if the input did, and then no single op can be dropped |
| Shrink.MinimalWhenMonotone | model/src/check.rs:180-204 | For a failure that more ops cannot hide, no proper subsequence of the result fails |
| ArgsBlock.ReadsBack | kernel/src/args.rs:69-91 | Reading an encoded block gives back exactly its tags if and only if each length fits its header |
| ArgsBlock.ShortBlockFits | loader/src/args.rs:58-68 | Every block short of 65536 words reads back |
| ArgsBlock.WideInverts | kernel/src/args.rs:59-62 | Two words written for a value read back as it, for every value that fits |
| ArgsBlock.RamReadsBack | loader/src/args.rs:69-80 | The first tag read back gives RAM's start, size and name, each in its place, exactly when both fit the reader's word |
| ArgsBlock.ArgumentIterator.Next | kernel/src/args.rs:69-91 | The next tag of the block, and never a word past its stated size |
| ArgsBlock.ArgsBuilder.Add | loader/src/args.rs:30-68 | A tag appended exactly, or refused when it does not fit |
| ArgsBlock.ArgsBuilder.Finish | loader/src/args.rs:69-80 | The first tag filled in, the rest as it was |
| ArgsBlock.WriteThenRead | loader/src/args.rs:18-80 | What the loader writes the kernel reads: the RAM tag with its start, size and name each in its place, then exactly the tags given, if and only if each length fits its header |

## Left out

- Destroying `root` itself: the tree, and everything running, goes with it, and nothing is left to state an invariant
  of.
- BudgetCalls.Budgets.BudgetCreate: does not model the labels, classes and deadlines the source also checks, nor the
  list deadlines are kept in: they read and change nothing of the ledger.
- BudgetCalls.Boot: the classes of the three budgets, and the handles and devices `init` is given, are not modelled.
- Destruction.Kernel.CreateProcess: begins with the handles resolved to a budget and an exit endpoint; that the
  endpoint's handle bears no badge is checked before.
- Destruction.Kernel.CreateEndpoint: begins past the permission and label checks.
- Destruction.Kernel.Destroy: which notices the flow rule lets through is its argument; messages in flight are
  `Calls`', whose `EndpointDying` and `StampDying` are what the source runs between the frees and the lift.
- The generation numbers in references to budgets and objects: a frame names what is in it.
- A handle's rights, the handles carried by messages, and minting.
- Transfers that give pages away, one-way sends, sends that turn into receives, interrupt waits and plain sleeps.
- The order groups of senders are received in, and the pumping of endpoints: a delivery names its sender and receiver.
- Calls.CallCostsNothing: the page-table pages a lend needs in the receiver stay with it, where the source frees those
  left empty.
- A process's death as such in `Calls`: its threads end one by one, and its account stays.
- `claim_release_move` for frames outside RAM, and the reservation and copying of buffers.
- Timer.Timers.ExpireDue: begins where the hints say something is due; the hints themselves, and the arming of each
  hart's timer, are not modelled, nor is the merge sort of the due list, whose keys are distinct. A thread on the due
  list that begins another wait keeps its place there; the source reads its new deadline, so that budgets due go
  before it.
- ZeroingBills.Sched.BillIdle: products of ticks and frames are unbounded here and 64 bits wide in the source.
- The frames of a walk count as retired together with the walk's one call of `retiring`.
- Which idle hart drains, and which is woken for it; the counter of frames in flight.
- A frame retired with no process named is taken to be mapped nowhere, as its callers promise.
- The charges of DMA runs are in the ledger, not in `Dma`; a quarantined device's object and its handles are in
  neither.
- The kernel's own process in `ProcessTable`, and the eviction interrupts.
- `ArgsBuilder`'s byte strings, and what checksum it is: any function of the data will do.
- The scheduler's choice of what to run, page tables, traps, interrupts and the device tree.
