# Kernel core: paging, request protocol, scheduling, MADT, memory listing

A Dafny model of the parts of the kernel in which several functions, or several processors, must agree:

- **Identity paging.** `setup_kernel_paging` carves a pool out of the firmware memory map, estimates the number
  of table pages, bump-allocates tables and fills a four-level tree in place (4-level paging, section 4.5 of the
  Intel SDM Volume 3A; GetMemoryMap, section 7.2 of the UEFI Specification). `Paging.KernelPaging` does the same
  on a modelled physical memory; `PageTables` relates the memory to a hardware walk.
- **The request protocol.** `Protocol` is a transition system for one AP context: four shared slots, the AP's
  request loop and fault path step by step, and every single access of the BSP. `Interleaving` lets a BSP act
  at any moment, even on slots the AP is still busy with. `Stream` is `run_ap_request_stream` itself, as a class
  whose methods run the BSP's code while the AP moves arbitrarily between any two shared accesses.
  `Broadcast` does the same for `run_ap_broadcast_ping` over up to eight APs.
- **Scheduling and routing**, the **MADT parser** (section 5.2.12 of the ACPI Specification) and the **hole
  computation** of the memory listing.

## How to read it

| file | content |
|---|---|
| `Words`, `MemoryMap`, `PageTables`, `TableCount`, `Paging` | words; descriptors and carving; entry format, walk and tree; counting tables; the builder |
| `ApRequest`, `ApServices` | slots, plans, outboxes; the service registry |
| `Protocol`, `Interleaving` | steps of AP and BSP, the protocol invariant, what the AP cannot do; all interleavings |
| `StreamLive`, `Order`, `StreamBook`, `StreamEdits` | what a running stream adds: the AP's position, completion order and counters, the accounts, the BSP's writes |
| `Pace` | how soon an AP that keeps moving serves what is pending; saturated sums of waits |
| `Stream`, `StreamRace` | the stream and its theorem; runs that show its limits |
| `Broadcast`, `Startup`, `Scheduler`, `Madt`, `Holes` | the broadcast, the kernel's sequence of broadcast and stream, and the rest as above |

Publications carry a number (`gens`), completions the number of the run that made them (`doneBy`), and each
handler run the plans it offered (`tried`, `made`); these fields exist only so that the properties can be stated.
In `Stream` and `Broadcast` the parameters `script`, `race` and `delay` stand for everything the other processors and
the wait timer do; all statements hold for every choice of them.

Time is measured in those parameters. An AP *keeps its pace* (`OnPace`) if up to now it has taken no fault and in
every `pace` consecutive moments at least the 52 steps of one turn over its slots, for any number `pace`; the timer
is bounded by any number `longest`. There is time enough for a stream if
`longest * (pace + 1) * (|plan| + 1) < timeout` (`Feasible`), for a broadcast if `longest * (pace + 1) < timeout`
(`Patient`). `pace` and `longest` are ghost parameters: the code does not depend on them, and what the passes and waits
did is stated for every AP, with or without a pace (`Timed`, `LateIsJust`).

Assumptions taken from the system: descriptor starts are 4 KiB aligned; a stream starts on an AP that is not
busy with a request (`StreamLive.Idle`, which holds after bring-up, after a broadcast that did not time out that AP's ping, and
after every stream that did not run out of time); an AP whose boot error is OK is online.

Where the code does something other than one might expect, the model follows the code:

- `setup_kernel_paging` uses pool address 0 as its failure sentinel, so a pool that starts at 0 fails with
  error OK (`Paging.KernelPaging.Setup` states the exact success condition).
- `run_ap_request_stream` returns 0 for every plan of fewer than four entries, because it asks all four slots to
  be DONE (`Stream.RequestStream.Run`).
- A slot's state is read once for the earlier-slot comparison and again for the harvest. A slot that finishes
  between the two reads is harvested without the comparison. `Stream.RequestStream.Run` says exactly when the
  order holds (DONE requests first, by handled count): it does unless such a harvest overtakes a DONE slot that was
  handled before it or while it is not DONE itself, and then it does not.
  Plans of at most one entry are safe against every AP; for every longer plan of known services
  `StreamRace.OrderBreaks` performs the stream's own steps and ends with a log out of order.
- The fault path stores FAULT into a slot it saw EMPTY without looking again. A finished state is final exactly
  while the AP is not about to do so (`Interleaving.FinishedIsFinalIff`). During the main loop of a stream this
  never threatens a finished slot (`StreamRace.LiveMeansFinal`); in the timeout tail it can turn a refilled
  request from TIMEOUT into FAULT (`StreamRace.LateFaultStore`).
- A completion that lost its swap empties the outbox by rolling back; if the AP faults just before it does, the
  copied plans stay in the committed outbox of a slot that is not DONE
  (`Interleaving.LostCompletionEmptiesOutbox`).
- A fault path writes its code before its last store; if the BSP rewrites the slot in between, the new request
  becomes FAULT with a cleared fault code (`StreamRace.LateFaultStore`). A slot that is not rewritten always
  reports the fault (`Interleaving.FaultReports`).
- After the AP has faulted, `stop_ap_request_stream` may replace BAD_OP by FAULT when it acts on a stale RUNNING;
  it never replaces DONE.
- The stop test reads the AP's state twice; an AP that halts and then faults between the two reads is missed until
  the next pass (`Stream.RequestStream.ShouldStop`).
- A descriptor without pages in the middle of a gap splits that gap into two HOLE rows
  (`Holes.HolesAreGapsIffUnsplit`). The listing also computes wrapped ends, but the kernel never lists a map with
  one (`Holes.ListedMapFits`).
- The MADT parser reads the length byte of an entry before it knows that the byte lies in the table; the result
  does not depend on it (`Madt.AcpiInfo.ParseMadt`).

## Model

| member | source | states |
|---|---|---|
| `MemoryMap.FirmwareMap.Append` | kernel/kernel.c:1316-1338 | a descriptor is added at the end exactly if the buffer has room for it; otherwise the map is unchanged |
| `MemoryMap.FirmwareMap.ContainsRange` | kernel/kernel.c:2937-2958 | true exactly if the range is empty, or does not overflow and lies in one descriptor whose end does not overflow |
| `MemoryMap.LowestIsLowest` | kernel/kernel.c:1432-1460 | the pool is taken from the first eligible conventional descriptor of least start, and from none only if there is none |
| `MemoryMap.CarveMovesPages` | kernel/kernel.c:1462-1481 | carving moves exactly the pool's pages from conventional memory to loader data and changes no other kind |
| `MemoryMap.CarveTakesTop` | kernel/kernel.c:1462-1481 | the pool is the top of the chosen descriptor, up to its old end; what is left keeps its start and kind, and every other descriptor is as it was |
| `MemoryMap.CarveCoversSame` | kernel/kernel.c:1462-1481 | every byte is covered after carving exactly if it was before |
| `MemoryMap.CarveStaysDisjoint` | kernel/kernel.c:1462-1481 | pairwise disjoint descriptors stay pairwise disjoint |
| `MemoryMap.CarveStaysInRange` | kernel/kernel.c:1462-1481 | carving takes no descriptor out of the checked address range |
| `PageTables.EntryFormat` | kernel/kernel.c:1486-1552 | on 64-bit words: OR-ing flags into an entry keeps its frame and gives the union of the flags, and masking recovers the frame |
| `PageTables.WalkIsIdentity` | kernel/kernel.c:1486-1552 | in a well-formed tree the four-level walk sends an address to itself if its page is a leaf and finds nothing otherwise |
| `PageTables.WithTableKeeps` | kernel/kernel.c:1486-1502 | linking a fresh zeroed table keeps the tree well formed |
| `PageTables.WithLeafKeeps` | kernel/kernel.c:1538-1548 | writing or re-writing a leaf keeps the tree well formed |
| `PageTables.RightsOfLeaf` | kernel/kernel.c:1486-1552 | on the path of a mapped page the three table links are present, writable and neither write-through nor cache-disabled, and the last entry has the page's own flags |
| `TableCount.CountPrefixes` | kernel/kernel.c:1403-1410 | a tree over pages below a limit has no more tables than distinct prefixes at each level |
| `TableCount.EstimateBoundsTables` | kernel/kernel.c:1403-1410 | the estimate exceeds the number of tables of any tree below the greatest end by at least 16 |
| `TableCount.FullRangeUsesEstimate` | kernel/kernel.c:1403-1410 | the estimate is exact: a tree that maps every page below the greatest end has the estimated number of tables less 16 |
| `TableCount.TableAdded` | kernel/kernel.c:1419-1430 | taking the next pool page for a missing table keeps the tree well formed, compact and within bounds |
| `TableCount.CountPages` | kernel/kernel.c:1545-1548 | the distinct mapped pages below a limit are at most that many |
| `Paging.UncachedExactly` | kernel/kernel.c:1504-1560 | after any sequence of ranges a page is uncached exactly if some uncached range touches it |
| `Paging.FlagsOrderIndependent` | kernel/kernel.c:1504-1560 | two sequences of ranges with the same members give every page the same flags, whatever their order |
| `Paging.RealisesMore` | kernel/kernel.c:1504-1552 | mapping one more range turns leaves that realise a list of ranges into leaves that realise the longer list |
| `Paging.SpansTouchBytes` | kernel/kernel.c:1612-1622 | a page is touched by the mapped ranges exactly if it holds a byte of the map or the framebuffer |
| `Paging.NeededIffTouched` | kernel/kernel.c:1612-1622 | mapping the carved map touches exactly the pages needed by the map as the firmware gave it |
| `Paging.IdentityTheorem` | kernel/kernel.c:1562-1627 | a well-formed tree whose leaves are the needed pages translates each address to itself or, unneeded or high, not at all |
| `Paging.AcceptedRangeTranslates` | kernel/kernel.c:2937-2958 | after paging is set up, every byte of a range accepted on the same map translates to itself |
| `Paging.PoolIsMapped` | kernel/kernel.c:1612-1618 | every page of the table pool is itself identity-mapped |
| `Paging.UncachedAreDevices` | kernel/kernel.c:1554-1622 | mapped pages are writable, and uncached exactly on pages of MMIO descriptors or the framebuffer |
| `Paging.RightsTheorem` | kernel/kernel.c:1486-1622 | every address that translates is writable by the conjunction of the rights of the four entries on its path from cr3 (section 4.6 of the Intel SDM Volume 3A); no table link changes caching; the page is uncached exactly if it is a device page |
| `Paging.PixelsAreMapped` | kernel/kernel.c:1396-1401 | every byte of every pixel of a framebuffer without a size of its own translates to itself, is writable and uncached |
| `Paging.KernelPaging.AllocPage` | kernel/kernel.c:1419-1430 | the next page of the pool, zeroed, or 0 with POOL_EMPTY exactly if the pool is used up; nothing else changes |
| `Paging.KernelPaging.EnsureNextTable` | kernel/kernel.c:1486-1502 | an existing table is followed, a missing one allocated and linked; fails with POOL_EMPTY, changing nothing, exactly if it is missing and the pool is used up, which a pool sized for the page excludes |
| `Paging.KernelPaging.WriteLeaf` | kernel/kernel.c:1538-1548 | the page gets the union of old and new flags; the entry is never found to hold another address |
| `Paging.KernelPaging.MapPage` | kernel/kernel.c:1522-1549 | the leaves gain exactly this page with the union of the flags, or stay as they are with the pool used up; never the latter in a pool sized for the page |
| `Paging.KernelPaging.MapRange` | kernel/kernel.c:1504-1552 | a nonempty range out of bounds is refused; any other is mapped whole if the pool was sized for it, and otherwise whole or exactly up to a page for which the used-up pool had no table; writes stay in the pool |
| `Paging.KernelPaging.SelectPool` | kernel/kernel.c:1432-1484 | selection, carving and its errors: the map is the carved one exactly on success, shrunk or unchanged otherwise |
| `Paging.KernelPaging.MapAll` | kernel/kernel.c:1612-1622 | all descriptors and the framebuffer are mapped and realised; neither POOL_EMPTY nor TABLE_ENTRY can occur |
| `Paging.KernelPaging.CheckRanges` | kernel/kernel.c:1572-1602 | the range checks pass exactly if every descriptor and the framebuffer are in range, and give the greatest end |
| `Paging.KernelPaging.Setup` | kernel/kernel.c:1562-1627 | succeeds exactly under a condition on the inputs, with the exact error otherwise; on success the walk from cr3 is the identity on needed pages and undefined elsewhere, every address that translates is writable through all four levels, with caching off exactly on device pages, 16 pages stay unused, table writes stay in the pool, mapped_pages counts distinct pages |
| `ApRequest.OutboxBuffer.Reset` | kernel/ap_request.c:154-174 | the outbox is empty and all its entries zero |
| `ApRequest.OutboxBuffer.Append` | kernel/ap_request.c:176-184 | the plan is added exactly if fewer than four are held |
| `ApRequest.OutboxBuffer.CopyFrom` | kernel/ap_request.c:119-152 | a copy with the count clamped to four and the unused tail zero |
| `ApRequest.CompleteDone` | kernel/ap_request.c:186-203 | DONE and the copied outbox if the request was still running, else the state untouched and the outbox empty |
| `ApRequest.AppendedIsPrefix` | kernel/ap_services.c:130-135 | appending plan after plan holds exactly the first four offered |
| `ApRequest.ClampedOutboxOf` | kernel/ap_request.c:119-152 | copying an outbox built by appending changes nothing |
| `ApServices.FindService` | kernel/ap_services.c:64-72 | the first registry entry that provides the interface, none exactly if there is none |
| `ApServices.Classify` | kernel/ap_services.c:74-89 | OK exactly if provided, unknown service exactly if no entry has the service |
| `ApServices.DispatchIsSearch` | kernel/ap_services.c:103-106 | the dispatch used by the protocol is the registry search |
| `ApServices.MissIsClassified` | kernel/ap_services.c:108-114 | the miss code used by the protocol is the one the classification selects |
| `Protocol.ApStepKeeps` | kernel/kernel.c:2269-2347 | every step of the request loop and the fault path keeps the protocol invariant, also while the BSP rewrites a slot |
| `Protocol.FaultKeeps` | kernel/kernel.c:1754-1821 | every step of the fault path keeps the invariant and leaves DONE and BAD_OP slots and their outboxes as they are |
| `Protocol.RunApKeeps` | kernel/kernel.c:2269-2347 | any number of AP steps keeps the invariant, writes no request, keeps DONE and BAD_OP slots whole and never makes a slot pending or empty |
| `Protocol.ReplacedKeeps` | kernel/kernel.c:2349-2376 | any BSP write that makes no claim about the AP keeps the invariant, even while the AP works on that slot |
| `Protocol.FaultCodeKeeps` | kernel/kernel.c:2427-2429 | writing the fault code after the AP faulted keeps the invariant |
| `Protocol.Advance` | kernel/kernel.c:2501-2506 | the wait count grows by the step or saturates, and always moves below the limit |
| `Interleaving.PlayKeeps` | kernel/kernel.c:2086-2633 | every interleaving of AP steps with resets, rewrites, publications, stops and timeouts keeps the invariant |
| `Interleaving.NoStaleCompletion` | kernel/kernel.c:2193-2204 | no ABA: a DONE or BAD_OP slot was completed by the run that claimed the publication it now holds and its reply names that request; a DONE reply has no fault code, a ping's has result 0; a BAD_OP reply has the code of what was not found, and no fault code unless the AP has died |
| `Interleaving.FaultReports` | kernel/kernel.c:1754-1821 | over all actions of both processors that do not rewrite the slot: a request that is open when a fault strikes stays open or becomes FAULT with the vector as its fault code and the request's id in its reply; by the time the AP is dead the latter holds exactly for the request it had in hand, and its boot record has the vector |
| `Interleaving.OutboxIsAtomic` | kernel/ap_request.c:186-203 | a DONE slot's committed outbox is the first four plans its own handler offered, then zeros |
| `Interleaving.LostCompletionEmptiesOutbox` | kernel/ap_request.c:186-203 | over all actions of both processors up to the AP's next copy into the slot: after a lost swap the outbox is empty once the AP acts again or the BSP resets it, except that a fault as the AP's very next action leaves the copied plans until the BSP resets them |
| `Interleaving.EmptyUntilCopy` | kernel/ap_request.c:186-203 | an empty committed outbox stays empty under all actions until the AP copies into it |
| `Interleaving.FinishedIsFinalIff` | kernel/kernel.c:1797-1807 | a finished state is final under every AP behaviour if and only if the AP is not about to store FAULT into that slot after having seen it empty |
| `StreamLive.RunApLive` | kernel/kernel.c:2269-2347 | during a stream finished slots are final under any AP steps, and a stopping AP changes no pending slot and completes nothing |
| `Pace.BriskRun` | kernel/kernel.c:2269-2347 | an AP that takes no fault comes nearer to every request that was pending at the last publication with every step it takes, whatever plans its handlers offer |
| `Pace.BriskIsServed` | kernel/kernel.c:2278-2340 | after 52 such steps, one turn over four slots, every request then active is finished |
| `Pace.HealthyGoesOn` | kernel/kernel.c:2305-2335 | on such an AP what finished is DONE, and it accepts further requests |
| `Pace.SaturatedBound` | kernel/kernel.c:2501-2506 | waits add up, saturated, to at most their number times the longest |
| `Order.RunApOrder` | kernel/ap_services.c:33-55 | handled counts and counter results of finished slots stay tied to the AP's own counters; what finishes later has a greater count |
| `Order.HarvestOrder` | kernel/kernel.c:2396-2404 | harvesting the earliest DONE slot continues the strict order, and a counter request's result is the shadow counter plus one |
| `Order.SealedStays` | kernel/kernel.c:2456-2461 | once the AP is stopping and no finished slot is DONE, none will be |
| `StreamBook.KeptAccount` | kernel/kernel.c:2528-2633 | nothing but publishing and harvesting changes the accounts, and open slots never increase |
| `StreamBook.HarvestAccount` | kernel/kernel.c:2485-2499 | a harvest moves one publication from an active slot to the log and loses none |
| `StreamBook.PublishAccount` | kernel/kernel.c:2406-2410 | publishing adds exactly the next plan entry |
| `StreamBook.DrainedAccount` | kernel/kernel.c:2378-2388 | with no active slot every publication is logged once, and all four slots are DONE exactly if at least four were published and all finished DONE |
| `StreamBook.LoggedRequest` | kernel/ap_request.c:32-66 | every logged request, field by field, is the plan entry of its publication, addressed to the target, with the plan's sequence as its id |
| `StreamEdits.GoodRun` | kernel/kernel.c:2528-2633 | any AP steps keep the stream invariant |
| `StreamEdits.EditGood` | kernel/kernel.c:2097-2100 | rewriting a free slot keeps it |
| `StreamEdits.PublishGood` | kernel/kernel.c:2349-2376 | the final store of a publication keeps it |
| `StreamEdits.SkipGood` | kernel/kernel.c:2430-2432 | the plain store of SKIPPED keeps it |
| `StreamEdits.FaultGood` | kernel/kernel.c:2427-2429 | the plain store of FAULT keeps it |
| `Stream.FirstExists` | kernel/kernel.c:2456-2477 | among finished slots one has no earlier finished slot |
| `Stream.PassProgress` | kernel/kernel.c:2574-2596 | a pass that harvests nothing although slots are finished has seen a new finish |
| `Stream.InOrderAppend` | kernel/kernel.c:2485-2499 | an entry past the last handled count extends an ordered log, a DONE entry only if everything before it is DONE |
| `Stream.CounterRequests` | kernel/kernel.c:2111-2115 | with opcodes that match the service, the BSP counts exactly the requests the AP's counter handler serves |
| `Stream.RecordOrder` | kernel/kernel.c:2396-2404 | the record of the earliest DONE slot continues the order and holds the AP's own result |
| `Stream.OvertakingInverts` | kernel/kernel.c:2574-2596 | a harvest that overtakes leaves a DONE request to be recorded later although it was handled earlier or the harvested one was not DONE |
| `Stream.PlainStoresAreSafe` | kernel/kernel.c:2412-2434 | once stores without swap are made, the AP has left its claim loop for good: pending and finished slots stay, nothing new becomes DONE |
| `Stream.BringUpIsIdle` | kernel/kernel.c:2269-2280 | an AP in its claim loop with empty slots is ready for a stream |
| `Stream.RequestStream.constructor` | kernel/kernel.c:2528-2536 | a stream on an idle AP starts with nothing published; its counts can be followed exactly without wrap-around or mismatched opcodes |
| `Stream.RequestStream.ResetSlot` | kernel/kernel.c:2097-2100 | the slot is empty, or FAULT by the AP's own store; other slots and all publications are kept |
| `Stream.RequestStream.ChooseState` | kernel/kernel.c:2355-2372 | FAULT only after a fault, and with the vector as its code; SKIPPED only if bring-up failed or the AP stopped; PENDING only if bring-up succeeded and the AP had not stopped when looked at |
| `Stream.RequestStream.Publish` | kernel/kernel.c:2349-2410 | the next plan entry is in the slot, the slot is active, accounts and order are kept; a slot stored as FAULT has the vector of the dead AP as its fault code |
| `Stream.RequestStream.HasEarlier` | kernel/kernel.c:2463-2477 | true: an earlier finished slot exists; false: none existed at the start, and a DONE slot is still the earliest although the AP moved during the comparison |
| `Stream.RequestStream.ComparedAll` | kernel/kernel.c:2463-2477 | a slot for which the comparison found no earlier one can be harvested without overtaking: no DONE slot was handled before it, and none is DONE if it is not |
| `Stream.RequestStream.Record` | kernel/kernel.c:2396-2404 | exactly one entry, the slot's copy with its publication number and the shadow counter, is added to the log, to history up to eight entries, and the slot is released |
| `Stream.RequestStream.Finish` | kernel/kernel.c:2485-2499 | an active finished slot is recorded with the wait count and released, any other left alone; a result other than DONE shows that the AP has stopped |
| `Stream.RequestStream.Stamp` | kernel/kernel.c:2485-2496 | the wait count is in the slot before the slot is copied, and the slot still has the rank it had |
| `Stream.RequestStream.ShouldStop` | kernel/kernel.c:2479-2483 | true only if the AP claims nothing any more; false only if it had not faulted, and had not halted unless it faulted between the two reads |
| `Stream.RequestStream.StoreStop` | kernel/kernel.c:2426-2432 | SKIPPED for a pending slot, FAULT with the vector as its code for one seen running once the AP has faulted, nothing else; only after the AP left its claim loop, never over DONE |
| `Stream.RequestStream.StopAll` | kernel/kernel.c:2412-2434 | afterwards no active slot is pending, and if the AP had faulted all are finished; every DONE result survives |
| `Stream.RequestStream.CountActive` | kernel/kernel.c:2436-2444 | the number of active slots |
| `Stream.RequestStream.HasFinished` | kernel/kernel.c:2446-2454 | true: an active slot is finished; false: none was finished at the start |
| `Stream.RequestStream.Visit` | kernel/kernel.c:2574-2596 | the slot is harvested, or nothing is recorded and it was not finished or has an earlier finished one; a slot that finishes between the two reads is harvested without comparison, and this overtakes exactly if another slot is DONE that was handled before it or while it is not DONE; a free slot is refilled while the plan, the time and the AP last |
| `Stream.RequestStream.Reread` | kernel/kernel.c:2578-2583 | what the second read of a slot seen unfinished records, and when that overtakes |
| `Stream.RequestStream.GoOn` | kernel/kernel.c:2584-2595 | a harvest other than DONE stops the stream; after DONE the slot is refilled if plan, time and AP allow |
| `Stream.RequestStream.Pass` | kernel/kernel.c:2574-2596 | a whole pass harvests something unless every finished slot has an earlier one; each of the four slots is left free, unfinished or behind an earlier one, or was harvested in this pass |
| `Stream.RequestStream.Round` | kernel/kernel.c:2569-2600 | stop, pass, stop: something is harvested, or a slot finished meanwhile, or nothing is waiting; a stopped stream has no pending slot left |
| `Stream.RequestStream.CountedRound` | kernel/kernel.c:2569-2600 | on an AP that keeps its pace, at most `pace` passes in a row harvest nothing |
| `Stream.RequestStream.Turn` | kernel/kernel.c:2568-2622 | an iteration ends the loop or lowers (not stopped, time left, active slots, unfinished active slots); the wait count moves by the given step or not at all |
| `Stream.RequestStream.TakeWait` | kernel/kernel.c:2605-2621 | a wait follows a full pass and moves the wait count by its step, saturated |
| `Stream.RequestStream.TimeEnough` | kernel/kernel.c:2567-2622 | the waits of a stream on an AP that keeps its pace do not reach the timeout |
| `Stream.RequestStream.Loop` | kernel/kernel.c:2567-2622 | the loop ends against any AP behaviour, with nothing active or the time used up; the wait count is the saturated sum of the waits taken, each as long as the timer made it (or 1 once stopped) and each after a full pass that left no finished slot unharvested except behind an earlier one; on an AP that keeps its pace the time is not used up and the stream is not stopped |
| `Stream.RequestStream.Expire` | kernel/kernel.c:2508-2526 | after the two swaps the slot is finished, whatever the AP does meanwhile |
| `Stream.RequestStream.FinishTimedOut` | kernel/kernel.c:2508-2526 | no slot stays active, earlier harvests stay |
| `Stream.RequestStream.AllSlotsDone` | kernel/kernel.c:2378-2388 | true exactly if all four slots are DONE at the end, although they are read one by one |
| `Stream.RequestStream.Run` | kernel/kernel.c:2528-2633 | terminates; the published requests are a prefix of the plan, short of it only by timeout or a stopped AP; each is logged once and finished; history is the first eight; 1 exactly if at least four entries were planned and all published and DONE; the time is used up only by waits after full passes, and on an AP that keeps its pace within the time everything is published and DONE; without overtaking, main-loop harvests have DONE requests first, in handling order and with the AP's counter values, with it the log is out of order; no overtaking in plans of one entry or without moves between the two reads; an in-time stream leaves the AP idle |
| `StreamRace.OrderBreaks` | kernel/kernel.c:2574-2596 | for every plan of two or more entries with known services the order can break: the stream's own steps from an idle AP write an out-of-order log when the AP moves between the two reads |
| `StreamRace.ServesSecondFirst` | kernel/kernel.c:2278-2340 | an AP that stands at slot 1 serves all pending slots in one turn, slot 0 last |
| `StreamRace.StandsAtSecond` | kernel/kernel.c:2278-2284 | such an idle AP occurs one step after bring-up |
| `StreamRace.LateFaultStore` | kernel/kernel.c:1797-1807 | from every start state a run of publish, serve, fault, refill and time out leads to a newer request that reads TIMEOUT and becomes FAULT by the AP's next step, without a fault code |
| `StreamRace.LiveMeansFinal` | kernel/kernel.c:2528-2622 | before the timeout tail of a stream every finished slot is final |
| `Broadcast.DonePingIsOk` | kernel/kernel.c:2647-2656 | a ping passes all tests of the result exactly if it is DONE |
| `Broadcast.ReportedRequest` | kernel/kernel.c:2720-2725 | every recorded ping, field by field: service, interface, opcode, sequence and id 0xb000 plus the context's number, its target, no envelope |
| `Broadcast.PingRound.Publish` | kernel/kernel.c:2349-2376 | the ping of this context is in its slot in the state its boot record called for, FAULT with the vector of the dead AP; no other context is disturbed, whatever the APs were doing |
| `Broadcast.PingRound.FanOut` | kernel/kernel.c:2714-2730 | a ping goes to exactly the APs that accept requests in the states in which their boot records are read |
| `Broadcast.PingRound.Judge` | kernel/kernel.c:2658-2677 | the entry holds the finished ping, and its verdict is good exactly if the ping is DONE |
| `Broadcast.PingRound.Record` | kernel/kernel.c:2658-2677 | one entry with the slot's copy is written, completed and one of ok and fail go up by one, the slot is no longer active |
| `Broadcast.PingRound.Expire` | kernel/kernel.c:2679-2686 | after the two swaps the ping is finished and recorded as late; an AP counts as possibly busy only if its ping was swapped to TIMEOUT or could have been |
| `Broadcast.PingRound.Sweep` | kernel/kernel.c:2735-2749 | a pass records every ping that had finished when it began |
| `Broadcast.PingRound.SweepOnce` | kernel/kernel.c:2735-2749 | a pass reads every active ping; after `pace` waits it leaves none active on an AP that keeps its pace |
| `Broadcast.PingRound.WaitOnce` | kernel/kernel.c:2755-2756 | a wait follows a pass and moves the wait count by what the timer gave, saturated |
| `Broadcast.PingRound.Collect` | kernel/kernel.c:2732-2757 | the loop ends with nothing active or the time used up; passes and waits alternate, the passes at the saturated partial sums of the waits from 0 on, and each found every ping still active unfinished |
| `Broadcast.PingRound.Finish` | kernel/kernel.c:2732-2777 | a ping is recorded late only if a pass read it unfinished at every partial sum of the waits, up to the timeout; with time for more than `pace` waits no ping of an AP that keeps its pace is late |
| `Broadcast.PingRound.Run` | kernel/kernel.c:2697-2784 | terminates with planned == completed == ok + fail; planned are exactly the APs that accepted when looked at, each recorded exactly once in a finished state, ok exactly for the DONE ones; late only what every pass up to the timeout read unfinished; with time for more than `pace` waits every AP that was idle and keeps its pace is accepted and DONE in time, and ok == planned if all accepted are such; all APs keep the protocol invariant, every AP idle before is idle again unless its entry is late, none is late in a round within the time; the request target's counters are restored |
| `Broadcast.PingRound.Restore` | kernel/kernel.c:2779-2783 | the counters of the request target are put back without disturbing any AP |
| `Startup.PingThenStream` | kernel/kernel.c:4486-4491 | broadcast, then stream, as the kernel calls them: on a target idle after bring-up whose ping is not recorded late, the stream has what it needs and all its guarantees; a target that keeps its pace within the time in both answers its ping and serves the whole plan |
| `Scheduler.FullTurn` | kernel/kernel.c:779-809 | a full turn of the registry picks every usable context exactly once, from any starting place |
| `Scheduler.SameRegistry` | kernel/kernel.c:752-777 | the registry is determined by the contexts: a rebuild on unchanged contexts changes nothing |
| `Scheduler.PlanOwner` | kernel/kernel.c:811-822 | the owner of the first plan entry with a known service, none exactly if there is no such entry |
| `Scheduler.OwnerByService` | kernel/kernel.c:811-822 | the owner is that of the ping service or of the counter service according to the first plan entry that asks for one of them |
| `Scheduler.RoundRobin.Build` | kernel/kernel.c:752-777 | the registry lists exactly the schedulable contexts in range in ascending order and keeps the place |
| `Scheduler.RoundRobin.Select` | kernel/kernel.c:779-809 | for any registry, current or stale: the explicit target exactly if it is usable, else the next of the ring, else context 0 |
| `Scheduler.RoundRobin.SelectRound` | kernel/kernel.c:752-809 | any online-count consecutive selections, with rebuilds anywhere, pick every schedulable context exactly once |
| `Scheduler.RoundRobin.RouteFor` | kernel/kernel.c:832-860 | explicit target first, then a usable owner, then the scheduler's choice, with the recorded mode telling which |
| `Scheduler.RoundRobin.Dispatch` | kernel/kernel.c:752-860 | the routed context is schedulable exactly if any context in range is; without a usable explicit target a plan whose first known entry asks for the ping goes to the ping owner, for the counter to the counter owner, if that is usable |
| `Madt.Bytes64OfLe` | kernel/kernel.c:2921-2927 | reading eight little-endian bytes loses nothing |
| `Madt.DecodeEncode` | kernel/kernel.c:3013-3037 | decoding the encoding of a well-formed entry gives it back |
| `Madt.EncodeDecode` | kernel/kernel.c:3013-3037 | every framed byte string is the encoding of its decoded entry |
| `Madt.WalkIsSummary` | kernel/kernel.c:3013-3039 | the entry loop gives the enabled count, first 32 enabled processors and last override, with an error exactly if bytes are left that form no entry |
| `Madt.EntriesCover` | kernel/kernel.c:3013-3039 | any bytes are the encoding of their entries followed by what does not fit |
| `Madt.EntriesOfEncoding` | kernel/kernel.c:3013-3039 | encoding entries and splitting the bytes gives the entries back |
| `Madt.ParseOfTable` | kernel/kernel.c:2991-3039 | encode then parse: enabled count, first 32 enabled processors in order, last address override, no error |
| `Madt.ParseOfBytes` | kernel/kernel.c:2991-3039 | every accepted table is such an encoding up to the first bytes that form no entry, reported exactly then; the count cannot wrap |
| `Madt.OneEntry` | kernel/kernel.c:3023-3035 | what one entry yields, by its bytes: type 0 a UID, APIC id and flags at offsets 2, 3 and 4, type 9 an APIC id, flags and UID at 4, 8 and 12, type 5 an address at 4; nothing if disabled, too short or of another type |
| `Madt.ParseByBytes` | kernel/kernel.c:2991-3039 | for every accepted table, read off its bytes: the stored processors are those described at the first 32 places of enabled processors, in order; base and flags from offsets 36 and 40, the base from the last override if there is one; an error exactly if the entries do not end with the table |
| `Madt.ChecksumOk` | kernel/kernel.c:2929-2935 | the 8-bit sum is zero exactly if the sum is a multiple of 256 |
| `Madt.AcpiInfo.AddCpu` | kernel/kernel.c:2978-2989 | counts every processor, stores the first 32 |
| `Madt.AcpiInfo.TakeEntry` | kernel/kernel.c:3023-3035 | one entry has the effect of its decoded form |
| `Madt.AcpiInfo.WalkEntries` | kernel/kernel.c:3013-3039 | the loop terminates and depends on the bytes of the table alone |
| `Madt.AcpiInfo.ParseMadt` | kernel/kernel.c:2991-3039 | length, range and checksum errors in that order, else the entries; only bytes of the table matter |
| `Madt.AcpiInfo.CountSupported` | kernel/kernel.c:3258-3271 | the number of supported processors, 0 after any error |
| `Madt.AcpiInfo.SelectTarget` | kernel/kernel.c:3273-3293 | the supported processor of that number, none exactly if there are not that many |
| `Madt.SupportedExactly` | kernel/kernel.c:3254-3293 | target numbers below the count select, exactly once and in order, every processor that is no x2APIC, not the boot processor, and has an APIC id below 256 |
| `Holes.Pick` | kernel/kernel.c:4205-4213 | the first descriptor of least start not yet shown, none exactly if all are shown |
| `Holes.List` | kernel/kernel.c:4191-4271 | the rows drawn are the first that fit on the screen of the full listing of at most 512 descriptors |
| `Holes.OrderIsComplete` | kernel/kernel.c:4204-4217 | every descriptor is listed exactly once, by ascending start, equal starts in map order |
| `Holes.LinesAreTheListing` | kernel/kernel.c:4248-4266 | the descriptor rows are that listing |
| `Holes.TopIsGreatestEnd` | kernel/kernel.c:4268-4270 | the final cursor is the greatest descriptor end |
| `Holes.HolesAreTheUncoveredBytes` | kernel/kernel.c:4225-4246 | on a map without overflow a byte lies in a HOLE row exactly if it is uncovered and below the greatest end |
| `Holes.HolesAscend` | kernel/kernel.c:4225-4246 | HOLE rows ascend and do not overlap |
| `Holes.HolesAreGapsIffUnsplit` | kernel/kernel.c:4191-4271 | the HOLE rows are exactly the maximal gaps if and only if no empty descriptor stands inside one |
| `Holes.HolesAreTheUncoveredBytesIff` | kernel/kernel.c:4191-4271 | for any map whatsoever: the HOLE rows hold exactly the uncovered bytes below some end, if and only if no descriptor starts past everything listed before it while a wrapped descriptor starts below it |
| `Holes.WrappedEndMisleads` | kernel/kernel.c:4220-4246 | function-level inputs that violate that condition exist; the kernel cannot produce them |
| `Holes.ListedMapFits` | kernel/kernel.c:1572-1584 | a map that passed the set-up of paging has no end that overflows, before or after carving |
| `Holes.KernelListing` | kernel/kernel.c:4191-4271 | on every map of at most 512 descriptors that the kernel lists, the HOLE rows hold exactly the bytes the firmware's own map leaves uncovered below the greatest end |

## Left out

- Weak memory: shared accesses are sequentially consistent; the fences of the source have no counterpart.
- Transport counters that a broadcast clears for its request target, and the fault-test build that skips the broadcast.
- Granularity: several fields that one processor writes or reads next to each other (a reply, the request fields of a slot, a history copy, two flags of the boot record) are one step; state words, boot state and outboxes are separate.
- IPIs, LAPIC and wait timers, `hlt`: waiting is any step of at least 1.
- Fields no property needs: `entry_state`, `queue_summary`, fault diagnostics, `result_cs`/`result_tr`, interrupt counters.
- The test hook that hangs a handler: an AP that never moves again is one of the modelled behaviours.
- A stream started on an AP that a timed-out ping left busy: such an AP keeps the protocol invariant, so that the theorems of `Interleaving` apply to it, but not those of `Stream`.
- Descriptor bytes past the standard fields when `descriptor_size` is larger; the buffer is a sequence with a room test.
- Framebuffer size is the wrapped 64-bit product the source computes; drawing, text and colours are not part of the model.
- `parse_acpi` before the MADT (RSDP, XSDT), bring-up, trampoline, GDT/TSS/IDT, `efi_main`: firmware and hardware; their results are start states.
- Large pages, LA57 beyond its refusal, and TLB effects of loading cr3.
