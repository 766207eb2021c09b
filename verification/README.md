# PredEx, modelled and proved

PredEx is a trading runtime of single-owner state machines joined by bounded queues.  This project
models six of its parts and proves what they promise over every input and every run.

* **Queue** (`Spsc`, `SpscQueueObject`): the single-producer single-consumer ring as interleaved atomic
  steps with stale loads and wrapping indices, refining a bounded FIFO.
* **Recovery** (`Recovery*`, `ControlRecovery`, `ControlPlaneObject`): incidents and market latches with
  retries, timeouts, supersession and rollback, and the control plane's counts over them.
* **Order management** (`Oms*`): admission, three levels of reservation, fills, the repair machine and
  reconciliation.  `Oms` gives every handler as a function on values; `OmsRuns` collects what holds in
  every reachable state; `OmsQueue` and `OmsDoubt` put the ring under the repair machine; `OmsObject`
  is the object with the same handlers in place.
* **Market data** (`Router*`, `Book`, `Event*`, `Shard*`, `EndToEnd`, `Pipeline`): frames and integrity
  barriers on their way to the books, and what the books and the published pairs then show.  `Pipeline`
  runs the router and a shard together.
* **Evaluator** (`Arb`): candidate scans, fees and the choice of a pair of limits.
* **Strategy** (`Strategy*`): active groups, promised capital, and intents that meet admission.

State that the runtime updates in place is a class here; each method is proved against a function of
the old state, and the theorems are about those functions.  Calls that can fail for reasons outside a
component (a full queue, a throwing allocation, a missing frame) take their outcome from a parameter
that ranges over every possibility.  Clocks, parsed frames and venue messages are inputs.

Where the code does not do what one might expect, the code is followed and the exact condition is
proved: a delta that the shard queue, the logger and the recycle queue all refuse stops the router
but leaves the shard's book usable (`Pipeline.LostDeltaLeavesBookUsable`, `RouterStops.UnreportedIff`),
an update refused when it is applied makes the book unusable but asks for no recovery
(`ShardReports.RefusedUpdateGoesUnreported`, `ShardReports.LossReportedIff`),
a second strategy's available capital can be stale (`OmsStale.OtherStrategyGoesStale`,
`OmsRuns.OtherStaysFreshIff`), the price grid has levels at nothing and
at a dollar that the evaluator refuses (`Arb.FreeAskIsRefused`, `Arb.ProjectedSides`), and the two size bounds differ
(`StrategyRuns.SizesDisagree`, `StrategyRuns.PublishedIsAdmitted`).

## Model

| member | source | states |
|---|---|---|
| Spsc.StepInv | cpp/include/predex/utils/spsc.hpp:84-125 | every atomic step of either thread, with any stale load read-read coherence allows and indices that wrap at 64 bits, keeps the ring invariant |
| Spsc.StepRefinesFifo | cpp/include/predex/utils/spsc.hpp:84-125 | each step is one enqueue at the back, one dequeue of the oldest item, or invisible to the bounded FIFO |
| Spsc.AccessesOrdered | cpp/include/predex/utils/spsc.hpp:84-125 | the slot being built and the slot being read never coincide, and each access is ordered after the other thread's last access of that slot |
| Spsc.PushRefusedIffFull | cpp/include/predex/utils/spsc.hpp:84-102 | a push is refused exactly when the cached and the loaded head both leave no room; for an up-to-date load, exactly when the FIFO is full |
| Spsc.PopRefusedIffEmpty | cpp/include/predex/utils/spsc.hpp:105-125 | a pop is refused exactly when the loaded tail shows nothing; for an up-to-date load, exactly when the FIFO is empty |
| Spsc.SizeIsExact | cpp/include/predex/utils/spsc.hpp:139-144 | the producer's size is exact for the head it loaded, never less than the true size and never more than the capacity |
| Spsc.RunInv | cpp/include/predex/utils/spsc.hpp:84-144 | the invariant holds after every interleaved run |
| Spsc.EveryInterleavingIsFifo | cpp/include/predex/utils/spsc.hpp:84-125 | over every run from an empty queue, what was popped is a prefix of what was pushed and at most `capacity` items are in between |
| Spsc.ReservedPushesSucceed | cpp/include/predex/utils/spsc.hpp:84-102 | as many further pushes as the producer has seen room for all succeed, whatever the consumer does |
| Spsc.SizeCheckReserves | cpp/include/predex/utils/spsc.hpp:139-144 | after the size check leaves n slots free, no run with at most n pushes has one refused; the order manager's room checks rely on this |
| SpscQueueObject.SpscQueue.constructor | cpp/include/predex/utils/spsc.hpp:37-63 | a new queue is the empty machine of its capacity |
| SpscQueueObject.SpscQueue.DecidePush | cpp/include/predex/utils/spsc.hpp:84-93 | the producer's first atomic step on the real fields is the machine's step |
| SpscQueueObject.SpscQueue.ConstructItem | cpp/include/predex/utils/spsc.hpp:95-96 | the item goes to a slot that holds nothing, and nothing else changes |
| SpscQueueObject.SpscQueue.PublishTail | cpp/include/predex/utils/spsc.hpp:98-102 | publication is the machine's enqueue step |
| SpscQueueObject.SpscQueue.DecidePop | cpp/include/predex/utils/spsc.hpp:105-114 | the consumer's first atomic step is the machine's step |
| SpscQueueObject.SpscQueue.MoveItem | cpp/include/predex/utils/spsc.hpp:116-118 | the slot read holds the oldest item and is emptied |
| SpscQueueObject.SpscQueue.PublishHead | cpp/include/predex/utils/spsc.hpp:120-125 | publication is the machine's dequeue step |
| SpscQueueObject.SpscQueue.TryEmplace | cpp/include/predex/utils/spsc.hpp:84-102 | run without interference it appends the item, or refuses exactly when the queue is full and then changes no contents |
| SpscQueueObject.SpscQueue.TryPop | cpp/include/predex/utils/spsc.hpp:105-125 | run without interference it returns the oldest item and keeps the rest in order, or refuses exactly when empty |
| Recovery.OnePursuer | cpp/src/control/recovery_coordinator.cpp:41-304 | no market is unfinished in two incidents |
| Recovery.CreateCoherent | cpp/src/control/recovery_coordinator.cpp:102-168 | creating an incident for markets nobody holds keeps latches and unfinished entries in exact correspondence |
| Recovery.ObserveMarketCoherent | cpp/src/control/recovery_coordinator.cpp:41-168 | a targeted fact keeps the correspondence, and every latch stays in the active universe |
| Recovery.ObserveBarrierCoherent | cpp/src/control/recovery_coordinator.cpp:171-304 | so does a subscription barrier; one that creates an incident latches to it exactly the routed markets nobody held, and any other changes no latch |
| Recovery.MarkCoherent | cpp/src/control/recovery_coordinator.cpp:435-475 | marking a command as enqueued keeps the correspondence |
| Recovery.AcceptedCoherent | cpp/src/control/recovery_coordinator.cpp:477-526 | an accepted request keeps the correspondence |
| Recovery.FailedCoherent | cpp/src/control/recovery_coordinator.cpp:528-591 | a failed request keeps it, whether it is retried or given up |
| Recovery.AppliedCoherent | cpp/src/control/recovery_coordinator.cpp:593-678 | an applied snapshot drops exactly the latch of its market, which its own incident held; any other answer changes nothing |
| Recovery.ExpireCoherent | cpp/src/control/recovery_coordinator.cpp:680-722 | timeouts keep the correspondence |
| Recovery.SupersedeCoherent | cpp/src/control/recovery_coordinator.cpp:306-343 | after a universe switch no latch of an older universe is left and the correspondence holds |
| Recovery.KeyCreatesOnce | cpp/src/control/recovery_coordinator.cpp:41-304 | a (universe, incident) key that has a recovery never gets another, and keeps the one it has |
| RecoveryProgress.RetryBackoff | cpp/include/predex/control/recovery_coordinator.hpp:192-209 | the doubling loop returns the lesser of initial*2^(n-1) and the cap for every n of at least 1 |
| RecoveryProgress.BackoffMonotone | cpp/include/predex/control/recovery_coordinator.hpp:192-209 | no retry waits less than the one before it |
| RecoveryProgress.OpEntryStep | cpp/src/control/recovery_coordinator.cpp:435-722 | an operation leaves an entry alone or moves it along the phase graph and lowers its remaining work |
| RecoveryProgress.OpBounded | cpp/src/control/recovery_coordinator.cpp:435-722 | no operation lets an entry exceed the attempt bound |
| RecoveryProgress.RunSpendsWork | cpp/src/control/recovery_coordinator.cpp:435-722 | over every run an entry makes at most as many transitions as its initial work measure |
| RecoveryProgress.RunKeepsEntry | cpp/src/control/recovery_coordinator.cpp:435-722 | over every run an entry stays in its incident, for its market, within the attempt bound |
| RecoveryProgress.RecoveryTerminates | cpp/src/control/recovery_coordinator.cpp:435-722 | with at most M attempts a scheduled market makes at most 3M+1 transitions in any run |
| RecoveryCommands.BatchRefinesSingle | cpp/src/control/recovery_coordinator.cpp:345-475 | the i-th command of a batch is what the single form answers once the earlier ones are marked, and marking it succeeds |
| RecoveryCommands.BatchEmptyIff | cpp/src/control/recovery_coordinator.cpp:385-433 | a batch is empty exactly when nothing is ready or no room was given |
| RecoveryCommands.BatchUnique | cpp/src/control/recovery_coordinator.cpp:385-433 | a batch does not depend on the iteration order of the maps: two answers to one question are equal |
| ControlRecovery.LatchCount | cpp/src/control/recovery_coordinator.cpp:41-343 | there are as many latches as unfinished entries |
| ControlRecovery.TimeoutsBalance | cpp/src/control/recovery_coordinator.cpp:680-722 | every timeout is counted once, as a retry or as a failure |
| ControlRecovery.SendBatchInv | cpp/src/control/control_plane.cpp:1404-1420 | sending a batch keeps the conservation laws and never reaches the commit-failed branch |
| ControlRecovery.PumpInv | cpp/src/control/control_plane.cpp:1370-1422 | a recovery pump keeps them and never faults orchestration by itself |
| ControlRecovery.StepInv | cpp/src/control/control_plane.cpp:54-110 | every control-plane event keeps coherence and conservation |
| ControlRecovery.RunInv | cpp/src/control/control_plane.cpp:1370-1422 | so does every run |
| ControlRecovery.OnlyThrowsFault | cpp/src/control/control_plane.cpp:1031-1046 | orchestration is faulted only by an observation that throws |
| ControlRecovery.RecoveryConservation | cpp/src/control/control_plane.cpp:54-110 | over every run markets scheduled are those recovered, superseded or still latched; requests enqueued are the attempts recorded; incidents created are those held |
| RecoveryObject.RecoveryCoordinator.constructor | cpp/include/predex/control/recovery_coordinator.hpp:120-120 | a new coordinator holds no incident and no latch |
| RecoveryObject.RecoveryCoordinator.LatchMarkets | cpp/src/control/recovery_coordinator.cpp:277-296 | all markets are latched, or on a throw at any point the latches are exactly as before |
| RecoveryObject.RecoveryCoordinator.Commit | cpp/src/control/recovery_coordinator.cpp:255-303 | creation commits an incident whole, or on a throw at any of its steps restores the exact prior state |
| RecoveryObject.RecoveryCoordinator.ObserveMarket | cpp/src/control/recovery_coordinator.cpp:41-168 | answers and changes state as the value model says, and throws only while creating, then restoring the prior state |
| RecoveryObject.RecoveryCoordinator.CollectFresh | cpp/src/control/recovery_coordinator.cpp:212-232 | collects exactly the routes nobody has latched, and the first holder among the others |
| RecoveryObject.RecoveryCoordinator.ObserveBarrier | cpp/src/control/recovery_coordinator.cpp:171-304 | answers and changes state as the value model says; a throw restores the prior state |
| RecoveryObject.RecoveryCoordinator.OldestReadyIncident | cpp/src/control/recovery_coordinator.cpp:392-408 | finds the least incident with a ready entry, or there is none |
| RecoveryObject.RecoveryCoordinator.ReadyCommandsOf | cpp/src/control/recovery_coordinator.cpp:410-423 | collects every ready entry of an incident once |
| RecoveryObject.RecoveryCoordinator.NextPendingCommand | cpp/src/control/recovery_coordinator.cpp:345-383 | returns the ready command that is least in the coordinator's order, or there is none |
| RecoveryObject.RecoveryCoordinator.NextPendingCommands | cpp/src/control/recovery_coordinator.cpp:385-433 | returns the least ready commands of the oldest ready incident, sorted, no more than asked |
| RecoveryObject.SortByMarket | cpp/src/control/recovery_coordinator.cpp:425-432 | the commands are reordered by market and none is added or lost |
| RecoveryObject.RecoveryCoordinator.MarkCommandEnqueued | cpp/src/control/recovery_coordinator.cpp:435-475 | the new state and answer are the model's |
| RecoveryObject.RecoveryCoordinator.HandleAccepted | cpp/src/control/recovery_coordinator.cpp:477-526 | the new state and answer are the model's |
| RecoveryObject.RecoveryCoordinator.HandleFailed | cpp/src/control/recovery_coordinator.cpp:528-591 | the new state and answer are the model's |
| RecoveryObject.RecoveryCoordinator.HandleApplied | cpp/src/control/recovery_coordinator.cpp:593-678 | the new state and answer are the model's; coherence is kept |
| RecoveryObject.RecoveryCoordinator.SupersedeOne | cpp/src/control/recovery_coordinator.cpp:315-339 | one older incident loses exactly its unfinished entries and their latches, and counts them |
| RecoveryObject.RecoveryCoordinator.SupersedeBefore | cpp/src/control/recovery_coordinator.cpp:306-343 | the in-place loop over incidents, in any order, ends in the model's state with exact counts |
| RecoveryObject.RecoveryCoordinator.ExpireOne | cpp/src/control/recovery_coordinator.cpp:684-718 | one incident's entries expire as the model says, with exact counts |
| RecoveryObject.RecoveryCoordinator.ExpireTimeouts | cpp/src/control/recovery_coordinator.cpp:680-722 | the in-place loop over incidents, in any order, ends in the model's state with exact counts |
| ControlPlaneObject.ControlPlane.constructor | cpp/src/control/control_plane.cpp:781-797 | a new plane has no universe, no incident and zero counts |
| ControlPlaneObject.ControlPlane.InstallUniverse | cpp/src/control/control_plane.cpp:781-797 | supersedes everything older, then installs the next version |
| ControlPlaneObject.ControlPlane.OnBarrierDelivered | cpp/src/control/control_plane.cpp:1031-1046 | accounts the observation, or on a throw marks orchestration faulted and changes nothing in the coordinator |
| ControlPlaneObject.ControlPlane.OnMarketRecoveryRequired | cpp/src/control/control_plane.cpp:1113-1127 | the same for a targeted fact |
| ControlPlaneObject.ControlPlane.OnRequestAccepted | cpp/src/control/control_plane.cpp:568-571 | accounts an accepted request |
| ControlPlaneObject.ControlPlane.OnRequestFailed | cpp/src/control/control_plane.cpp:572-575 | accounts a failed request |
| ControlPlaneObject.ControlPlane.OnSnapshotApplied | cpp/src/control/control_plane.cpp:1128-1135 | accounts an applied snapshot |
| ControlPlaneObject.ControlPlane.ExpireAndAccount | cpp/src/control/control_plane.cpp:1382-1389 | expires and adds up the timeout counts |
| ControlPlaneObject.ControlPlane.PushCommands | cpp/src/control/control_plane.cpp:1404-1420 | pushes and marks commands until the queue refuses one |
| ControlPlaneObject.ControlPlane.ProcessRecovery | cpp/src/control/control_plane.cpp:1370-1422 | never reports a failed commit unless orchestration was already faulted |
| OmsTypes.FullNotionalIsDollarPerContract | cpp/src/oms/oms.cpp:40-57 | a reservation is defined exactly for representable positive sizes, and then is a dollar per contract and fits 64 signed bits |
| OmsRepair.RepairPassFacts | cpp/src/oms/oms.cpp:1117-1380 | one repair pass sends at most one round for its group, every submit of which is reduce-only and the negation of a residual; round counts stay bounded; it finishes only with no residual and no doubt, and otherwise a broken group stays broken |
| OmsMoney.ReserveFits | cpp/src/oms/oms.cpp:590-612 | a granted reservation adds exactly its amount and leaves reserved plus positive inventory within the limit |
| OmsMoney.SnapshotTotals | cpp/src/oms/oms.cpp:2174-2258 | a full snapshot replaces exposure, shifts what is realized and paid by the reported markets, and keeps what dropped markets realized and paid |
| OmsMoney.SingleStrategyFits | cpp/src/oms/oms.cpp:740-778 | with one strategy all reservations fit the reconciled balance less the safety reserve |
| OmsLedger.TradeAccounted | cpp/src/oms/oms.cpp:889-916 | a new trade moves the residual of its own leg by what it contributes and no other, or the overflow guard marks the group |
| OmsSteps.RollbackExact | cpp/src/oms/oms.cpp:1880-1905 | release after reservation returns every reservation and group count to what it was |
| OmsSteps.AdmittedShape | cpp/src/oms/oms.cpp:411-588 | an admitted intent needs exactly the notional of its legs, all of its own strategy |
| OmsSteps.JudgeLegsSum | cpp/src/oms/oms.cpp:500-561 | the capital an admitted group requires is the sum of its legs' notionals |
| OmsHandlers.BooksStep | cpp/src/oms/oms.cpp:1561-2356 | every handler keeps structure, ledger, fill accounting and repair counts |
| OmsGate.GateStep | cpp/src/oms/oms.cpp:1023-1485 | every handler keeps the incident flag exact and trading justified |
| OmsEgress.EgressStep | cpp/src/oms/oms.cpp:1561-2356 | every handler only appends to what was sent; each repair order it sends takes back exactly what the accounted trades left on its leg; under an incident it sends only safe commands; and it never clears a group's doubt or repairs a doubtful group |
| OmsHistory.FillTrades | cpp/src/oms/oms.cpp:2083-2116 | a fill is remembered exactly when it is recognised and its trade id is new, with what it contributes to its leg |
| OmsHistory.HistoryStep | cpp/src/oms/oms.cpp:1561-2356 | every handler leaves remembered exactly the trades of the fills given to it; only group admission touches the remembered intents |
| OmsHistory.IntentsStep | cpp/src/oms/oms.cpp:1757-1918 | every remembered intent names a stored group, so a repeated intent is always recognised |
| OmsQueue.RingIsHonest | cpp/include/predex/utils/spsc.hpp:84-144 | over every interleaving and every stale load, a producer that looked and saw n free slots has every push among its next n uses accepted |
| OmsQueue.CancelRoundGoesOut | cpp/src/oms/oms.cpp:1164-1189 | with the pushes promised by a room check, every command of a cancel round is sent |
| OmsQueue.SubmitRoundGoesOut | cpp/src/oms/oms.cpp:1270-1354 | with the pushes promised by a room check, every command of a repair round is sent, unless a leg has no repair order |
| OmsQueue.HonestPass | cpp/src/oms/oms.cpp:1117-1380 | over a queue that keeps the room it shows, a repair pass sends its whole round or nothing, and doubt comes only from orders in doubt or a leg no repair order can be built for: the refused-push branches are dead |
| OmsQueue.HonestBooks | cpp/src/oms/oms.cpp:1117-1380 | so it is for every group of every state that keeps the books, in or between handlers |
| OmsQueue.RingRepairsGoOut | cpp/src/oms/oms.cpp:1117-1380 | so it is in every reachable state of an order manager whose queue is the modelled ring |
| OmsQueue.RoomMayComeBack | cpp/src/oms/oms.cpp:1156-1163 | a pass refused for room may be granted it on the next look, with nothing pushed between, and then sends |
| OmsRuns.InvStep | cpp/src/oms/oms.cpp:1561-2356 | every event handler keeps the whole invariant |
| OmsRuns.ReachableInv | cpp/src/oms/oms.cpp:1561-2356 | every state reachable by any events in any order satisfies it |
| OmsRuns.EgressSafety | cpp/src/oms/oms.cpp:1023-1485 | the incident flag is set exactly when some group is broken; trading implies no incident and a reconciled, installed universe; under an incident only cancels, reduce-only repairs and reconciliation requests are sent |
| OmsRuns.ReservationLedger | cpp/src/oms/oms.cpp:590-635 | in every reachable state a group's reservation is the sum over its legs, a strategy's never exceeds the sum over its orders, and the group count is the number unreleased |
| OmsRuns.FailedSendRestores | cpp/src/oms/oms.cpp:1880-1905 | a group whose batch cannot be sent leaves orders, groups, intents, reservations and counts exactly as they were |
| OmsRuns.TradesAreFills | cpp/src/oms/oms.cpp:2083-2116 | over every run, what is remembered for a leg grows by exactly the lots of the run's fills to it, each trade id at its first recognised occurrence |
| OmsRuns.FillsExactlyOnce | cpp/src/oms/oms.cpp:889-916 | after every run a leg's residual is the sum of signed lots over the fill events of that run, each trade id once, unless a sum left 64 bits and the group is marked uncertain |
| OmsRuns.RepairsUndoFills | cpp/src/oms/oms.cpp:1270-1354 | every repair order an event sends, from whatever point of whatever handler, takes back exactly what the trades accounted by then left on its leg |
| OmsRuns.EveryRepairUndoesFills | cpp/src/oms/oms.cpp:1270-1354 | every repair order ever sent in a run was sent by some event of it, after which it takes back exactly what the accounted trades left |
| OmsRuns.RunAppends | cpp/src/oms/oms.cpp:1526-1533 | over every run what was sent is never taken back or reordered |
| OmsRuns.CapitalBound | cpp/src/oms/oms.cpp:740-784 | reserved capital stays between 0 and the allocation; available capital never exceeds what the portfolio's own numbers allow, is zero while unreconciled, and with one strategy is exact |
| OmsRuns.AdmissionWithinLimits | cpp/src/oms/oms.cpp:590-612 | every admitted group leaves reserved plus positive inventory within the limit, and with one strategy all reservations within the venue balance less the safety reserve |
| OmsRuns.OrderWithinLimits | cpp/src/oms/oms.cpp:1614-1640 | every admitted single order leaves reserved plus positive inventory within the limit, and with one strategy all reservations within the venue balance less the safety reserve |
| OmsRuns.SingleGrantFits | cpp/src/oms/oms.cpp:1614-1640 | with one portfolio, an amount within its available capital can be reserved without exceeding the reconciled balance less the safety reserve |
| OmsStale.OtherStrategyGoesStale | cpp/src/oms/oms.cpp:606-608 | a run from the initial state, over a balance of 300 ticks: strategy 1 is refused an order, strategy 0 is granted a group of 200, and strategy 1 still shows 300 available where 100 are left |
| OmsRuns.ReservedOverall | cpp/src/oms/oms.cpp:590-612 | a granted reservation adds exactly its amount to what is reserved over all strategies and leaves every other portfolio alone |
| OmsRuns.OtherStaysFreshIff | cpp/src/oms/oms.cpp:606-608 | another strategy's available capital is still right after a reservation if and only if reconciliation is not in force, it had no headroom, the venue had none left, or both still fit the venue's balance |
| OmsRuns.PortfolioTotals | cpp/src/oms/oms.cpp:829-887 | inventory, realized profit and fees are the sums over positions in every reachable state |
| OmsRuns.BoundedRepair | cpp/src/oms/oms.cpp:1117-1380 | over a whole run a group is sent at most the configured number of cancel rounds and of submit rounds, none longer than the group |
| OmsRuns.UncertaintyLatched | cpp/src/oms/oms.cpp:1405-1428 | once a group is uncertain it stays so for the rest of any run and no repair order is submitted for it again |
| OmsDoubt.PassCause | cpp/src/oms/oms.cpp:1117-1380 | over a queue that keeps the room it shows, a repair pass turns its group uncertain only for an order of the group in doubt or a residual no repair order can be built for |
| OmsDoubt.DoubtStep | cpp/src/oms/oms.cpp:1561-2356 | every event that turns a group uncertain leaves its cause in the state: the overflow guard, an order of the group in doubt, an unrepairable residual, legs reported filled whose fills are not accounted; or it is a batch answer that could not be matched to the legs |
| OmsDoubt.EveryDoubtHasCause | cpp/src/oms/oms.cpp:1117-1380 | in every run each uncertain group was turned so by some event, after which such a cause held; a refused repair command never does it |
| OmsDoubt.RingDoubtHasCause | cpp/src/oms/oms.cpp:1156-1163 | so it is from the initial state over the modelled ring, whatever the interleaving |
| OmsDoubt.BrokenPromiseDoubts | cpp/src/oms/oms.cpp:1164-1189 | over a queue that shows room and then refuses the first cancel, the group does turn uncertain |
| OmsObject.OrderManager.constructor | cpp/src/oms/oms.cpp:374-389 | a new order manager is the initial state of the model |
| OmsObject.OrderManager.LookAtRoom | cpp/src/oms/oms.cpp:1156-1163 | a look at the queue answers for this moment only and sends nothing |
| OmsObject.OrderManager.SendCommand | cpp/src/oms/oms.cpp:1526-1533 | a command is appended to the queue or refused, and nothing else changes |
| OmsObject.OrderManager.EmitCancelCommand | cpp/src/oms/oms.cpp:2406-2436 | a cancel goes out under a fresh request id and the order remembers it, or nothing but the id changes |
| OmsObject.OrderManager.GlobalReservations | cpp/src/oms/oms.cpp:761-769 | the loop adds up the positive reservations of all portfolios, saturating at the largest signed 64-bit value |
| OmsObject.OrderManager.RecomputeAvailable | cpp/src/oms/oms.cpp:740-778 | one portfolio's available capital is recomputed from its own numbers and the venue's |
| OmsObject.OrderManager.RecomputeAllAvailable | cpp/src/oms/oms.cpp:780-784 | the in-place loop, in any order, recomputes every portfolio |
| OmsObject.OrderManager.ReserveGroupCapital | cpp/src/oms/oms.cpp:590-612 | capital is taken from the strategy's available capital or refused |
| OmsObject.OrderManager.ReleaseGroupCapital | cpp/src/oms/oms.cpp:614-635 | what a group still holds goes back once |
| OmsObject.OrderManager.AccountTerminalOrder | cpp/src/oms/oms.cpp:1487-1510 | a terminal order gives back what it still holds, once |
| OmsObject.OrderManager.AccountFillOf | cpp/src/oms/oms.cpp:889-999 | a fill is accounted to order, leg, position and portfolio as the model says |
| OmsObject.OrderManager.RefreshIncident | cpp/src/oms/oms.cpp:1035-1052 | the loop finds whether any group is broken, and sets the flag to that |
| OmsObject.OrderManager.HasResidualExposure | cpp/src/oms/oms.cpp:1004-1011 | true exactly when some leg's residual is not 0 |
| OmsObject.OrderManager.HasConfirmedFill | cpp/src/oms/oms.cpp:1013-1021 | true exactly when some leg's original order has a fill |
| OmsObject.OrderManager.FailGroupRepair | cpp/src/oms/oms.cpp:1076-1090 | the group is marked failed and the incident latched |
| OmsObject.OrderManager.RunCancelRound | cpp/src/oms/oms.cpp:1143-1190 | one round of cancels as the model says |
| OmsObject.OrderManager.RunSubmitRound | cpp/src/oms/oms.cpp:1259-1380 | one round of repair submits as the model says |
| OmsObject.OrderManager.UnwindGroup | cpp/src/oms/oms.cpp:1202-1257 | decides between waiting, flattened, failed and another round as the model says |
| OmsObject.OrderManager.ContinueGroupRepair | cpp/src/oms/oms.cpp:1117-1380 | one repair pass is the model's, with its group stored, the incident flag refreshed and capital released when it is done |
| OmsObject.OrderManager.BeginGroupRepair | cpp/src/oms/oms.cpp:1092-1115 | a group enters repair once, with the incident latched first |
| OmsObject.OrderManager.ServiceExecutionIncidents | cpp/src/oms/oms.cpp:1382-1403 | every group that needs one gets one pass, in some order that visits each group once |
| OmsObject.OrderManager.ScanLegs | cpp/src/oms/oms.cpp:1434-1458 | one loop over the legs computes all, some and doubtful states at once |
| OmsObject.OrderManager.UpdateGroupAfter | cpp/src/oms/oms.cpp:1405-1485 | the group of an order follows its orders' states as the model says, into repair where they demand it |
| OmsObject.OrderManager.OnNewOrderIntent | cpp/src/oms/oms.cpp:1561-1671 | a single order is stored exactly when no reason is returned, and is admitted, sent or rolled back as the model says |
| OmsObject.OrderManager.OnCancelIntent | cpp/src/oms/oms.cpp:1673-1704 | a cancel intent is the model's |
| OmsObject.OrderManager.OnModifyIntent | cpp/src/oms/oms.cpp:1706-1755 | a modify intent is the model's |
| OmsObject.OrderManager.CheckLeg | cpp/src/oms/oms.cpp:500-561 | a leg passes exactly when the model's leg checks pass |
| OmsObject.OrderManager.CheckGroupAdmission | cpp/src/oms/oms.cpp:411-588 | the reason and the required capital are the model's |
| OmsObject.OrderManager.OnGroupIntent | cpp/src/oms/oms.cpp:1757-1922 | a group is stored exactly when no reason is returned, whole or not at all |
| OmsObject.OrderManager.UndoAdmission | cpp/src/oms/oms.cpp:1880-1905 | the in-place rollback removes exactly what admission stored |
| OmsObject.OrderManager.ApplyRestResponse | cpp/src/oms/oms.cpp:1924-1967 | an order takes a response as the model says |
| OmsObject.OrderManager.OnRestResponse | cpp/src/oms/oms.cpp:1924-1975 | a response is applied, then accounted, then its group updated |
| OmsObject.OrderManager.OnBatchResponse | cpp/src/oms/oms.cpp:1977-2031 | every leg of a batch response is applied, and a malformed batch leaves the group in doubt |
| OmsObject.OrderManager.OnUserOrderEvent | cpp/src/oms/oms.cpp:2059-2082 | a user-order message is the model's |
| OmsObject.OrderManager.OnFillEvent | cpp/src/oms/oms.cpp:2083-2116 | a fill is accounted exactly when it is recognised and its trade id is new; a fill that is not changes no group and no money |
| OmsObject.OrderManager.OnPositionEvent | cpp/src/oms/oms.cpp:2033-2057 | a position message is the model's |
| OmsObject.OrderManager.OnSnapshotEvent | cpp/src/oms/oms.cpp:2122-2273 | a snapshot is adopted when it answers the request and the universe, else discarded |
| OmsObject.OrderManager.AdoptVenuePositions | cpp/src/oms/oms.cpp:2174-2258 | positions missing from a snapshot are dropped and reported ones replaced, with totals following |
| OmsObject.OrderManager.RequestReconciliationIfDue | cpp/src/oms/oms.cpp:786-817 | a request goes out exactly when it is due |
| OmsObject.OrderManager.OnAllowTrading | cpp/src/oms/oms.cpp:2297-2301 | trading is enabled exactly when nothing forbids it |
| OmsObject.OrderManager.OnDisableTrading | cpp/src/oms/oms.cpp:2303-2306 | trading is disabled |
| OmsObject.OrderManager.OnCancelAllOrders | cpp/src/oms/oms.cpp:2308-2325 | every cancelable order gets a cancel, and trading is disabled |
| OmsObject.OrderManager.OnApplyUniverse | cpp/src/oms/oms.cpp:2327-2356 | a new universe stops trading until it is reconciled |
| Router.TurnInv | cpp/apps/predex/main.cpp:512-539 | every turn of the router thread keeps order and conserves frame handles |
| Router.TurnsInv | cpp/apps/predex/main.cpp:512-539 | so does every run |
| Router.RouterOrder | cpp/src/router/router.cpp:93-295 | unless the router faulted, each shard's queue is the in-order concatenation of what the inputs contribute, up to one pending barrier; in every run each frame is in exactly one of shard, logger, recycle queue or leak list |
| Router.EveryShardGetsEveryBarrier | cpp/src/router/router.cpp:230-251 | each subscription barrier is in what every shard is given, once and in order |
| Router.FactsFollowDelivery | cpp/src/router/router.cpp:49-69 | a recovery fact is sent once per subscription barrier, in order, and only after every shard has it |
| Router.FlushCompletes | cpp/src/router/router.cpp:253-295 | a flush that completes leaves nothing pending |
| RouterStops.TurnStopInv | cpp/apps/predex/main.cpp:512-539 | every turn, faulting or not, leaves at most the last input unreported |
| RouterStops.EveryRunEndsWell | cpp/src/router/router.cpp:93-295 | in every run, faulted or not, each shard queue is the in-order concatenation of what the inputs contribute, up to the part of the last input, and every input before the last contributes itself or a barrier in its place |
| RouterStops.UnreportedIff | cpp/src/router/router.cpp:112-176 | a book frame is taken in and reported to nobody if and only if its target is not wired, or the shard queue, the logger and the recycle queue all refuse it; and then the router has faulted |
| RouterStops.StoppedForGood | cpp/apps/predex/main.cpp:527-534 | a faulted router changes nothing any more |
| RouterStops.TurnGrows | cpp/apps/predex/main.cpp:512-539 | no turn takes back or reorders what a shard queue was given |
| RouterObject.MarketRouter.constructor | cpp/include/predex/router/router.hpp:84-100 | a new router has pushed nothing |
| RouterObject.MarketRouter.TryRouteToShard | cpp/include/predex/router/router.hpp:84-99 | a frame is pushed, refused by a full queue, or has no target |
| RouterObject.MarketRouter.TerminalHandoff | cpp/include/predex/router/router.hpp:115-129 | a handle goes to the logger, else to recycling, else is reported leaked |
| RouterObject.MarketRouter.RouteMarketBarrier | cpp/src/router/router.cpp:212-228 | a market barrier goes to its shard |
| RouterObject.MarketRouter.RouteSubscriptionBarrier | cpp/src/router/router.cpp:230-251 | the loop over shards stops at the first full queue and remembers where |
| RouterObject.MarketRouter.FinishSubscriptionBarrier | cpp/src/router/router.cpp:49-69 | the recovery fact is sent or kept for later |
| RouterObject.MarketRouter.BeginMarketBarrier | cpp/src/router/router.cpp:178-193 | a barrier is delivered or left pending |
| RouterObject.MarketRouter.BeginSubscriptionBarrier | cpp/src/router/router.cpp:195-210 | the same for a subscription barrier |
| RouterObject.MarketRouter.RouteOneFrame | cpp/src/router/router.cpp:93-176 | a frame, or for a lost book frame a barrier in its place |
| RouterObject.MarketRouter.RouteOneMessage | cpp/src/router/router.cpp:71-91 | each message goes its way |
| RouterObject.MarketRouter.FlushPendingBarrier | cpp/src/router/router.cpp:253-295 | a pending barrier or fact is completed, blocked or faults |
| RouterObject.MarketRouter.RunTurn | cpp/apps/predex/main.cpp:512-539 | one turn of the thread is the model's and keeps the invariant of every run |
| Book.GridRoundTrip | cpp/include/predex/shard/models.hpp:79-98 | each level has one price and each price on the grid one level: the two tables are inverse, and off-grid prices have no level |
| Book.BuildGrid | cpp/include/predex/shard/models.hpp:101-152 | the loop over ticks fills both tables of an empty book |
| Book.SnapshotTracks | cpp/src/shard/event.cpp:110-141 | a snapshot makes a book usable exactly when it is well formed, with exactly the levels it lists |
| Book.DeltaTracks | cpp/src/shard/event.cpp:143-198 | a delta keeps a usable book equal to the reference, or makes it unusable exactly when the delta is bad |
| Event.ApplyAdvances | cpp/src/shard/event.cpp:22-70 | applying an update keeps the event's shape, and any change of a book raises the revision |
| Event.InvalidateFirstAdvances | cpp/src/shard/event.cpp:327-353 | invalidation makes exactly the named books unusable, and any change raises the revision |
| Event.AsksAreBest | cpp/src/shard/event.cpp:357-532 | the asks of a view are exactly the best nonzero asks, rising, and every other ask is beyond a full view |
| Event.BidsAreBest | cpp/src/shard/event.cpp:357-532 | the bids of a view are exactly the best nonzero bids, falling, and every other bid is beyond a full view |
| EventObject.EventBook.constructor | cpp/src/shard/event.cpp:8-8 | a new event is the given state |
| EventObject.EventBook.IsUsable | cpp/src/shard/event.cpp:16-20 | the loop finds whether every book is usable |
| EventObject.EventBook.ApplySnapshotTo | cpp/src/shard/event.cpp:110-141 | the in-place snapshot loop ends in the model's book |
| EventObject.EventBook.RejectDeltaOf | cpp/src/shard/event.cpp:259-267 | a bad delta ends in the model's book |
| EventObject.EventBook.ApplyDeltaTo | cpp/src/shard/event.cpp:143-198 | the in-place delta ends in the model's book |
| EventObject.EventBook.Apply | cpp/src/shard/event.cpp:22-70 | the new state and result are the model's |
| EventObject.EventBook.InvalidateMarket | cpp/src/shard/event.cpp:280-325 | the new state and transition are the model's |
| EventObject.EventBook.InvalidateAllMarkets | cpp/src/shard/event.cpp:327-353 | the loop over markets ends in the model's state with exact counts |
| EventObject.EventBook.ViewMarket | cpp/src/shard/event.cpp:357-532 | the two projection loops fill exactly the model's view |
| EventObject.EventBook.BuildPair | cpp/src/shard/event.cpp:357-532 | an observation is built exactly for a usable rung of a chain |
| ShardTracking.StepTracks | cpp/src/shard/shard.cpp:158-472 | every step keeps each book equal to the replay of what the shard has seen |
| ShardPublication.StepCoherent | cpp/src/shard/shard.cpp:713-770 | every step keeps the latest published pairs of every usable chain equal to the current books |
| EndToEnd.ShardStepInv | cpp/src/shard/shard.cpp:120-143 | every pump and command keeps the shard invariant |
| EndToEnd.UsableMeansReplayed | cpp/src/shard/shard.cpp:158-472 | in every run a live shard's book is usable exactly when its replay is known, and then every price holds the last snapshot plus every later delta |
| EndToEnd.UnknownUntilSnapshot | cpp/src/shard/shard.cpp:158-358 | after a message that loses book data, and no later well-formed snapshot, a replay knows nothing of the market |
| EndToEnd.LossIsNotForgotten | cpp/src/shard/shard.cpp:158-358 | in every run of a shard, when a message it has seen lost book data of a market and no well-formed snapshot of it came later, the book is unusable |
| EndToEnd.PublishedViewsAreExact | cpp/src/shard/shard.cpp:713-770 | in every run without a publication fault, the latest observation of each pair of a usable chain shows exactly the best four levels of both books |
| EndToEnd.EqualRevisionsEqualBooks | cpp/src/shard/event.cpp:280-325 | between two states of one installed universe, equal revisions mean equal books |
| ShardReports.LostSince | cpp/src/shard/shard.cpp:158-472 | a lost market was lost by one message that concerns it, and has stayed lost by it |
| ShardReports.DispatchTells | cpp/src/shard/shard.cpp:158-472 | a message tells the control plane exactly the report its loss owes, under the next incident of the shard for a frame and under its own for a barrier, and nothing for a market that is lost already |
| ShardReports.StepReporting | cpp/src/shard/shard.cpp:120-143 | every pump and command keeps the reports told equal to the reports owed, and every book's state equal to where its market stands |
| ShardReports.ReportsAreOwed | cpp/src/shard/shard.cpp:158-472 | in every run the recovery reports sent or held for the universe are exactly those the losses owe, in order |
| ShardReports.LossReportedIff | cpp/src/shard/shard.cpp:158-472 | in every run a book awaits recovery because of one message seen, and that loss has been reported, or its report is held, if and only if the message is a barrier for the market or a frame missing or unreadable; after a subscription barrier or a refused update no report names the market until a snapshot restores it |
| ShardReports.RefusedUpdateGoesUnreported | cpp/src/shard/shard.cpp:290-319 | a concrete run in which a refused delta makes the book unusable and neither it nor a later barrier for the market is reported |
| Pipeline.SameReplay | cpp/src/router/router.cpp:93-295 | replaying what a shard was given is replaying what the router took in |
| Pipeline.ReachedSomeInput | cpp/src/router/router.cpp:93-295 | whatever prefix of its queue a shard has popped is what some number of router inputs contribute |
| Pipeline.JointStepInv | cpp/apps/predex/main.cpp:512-539 | every turn of the router and every pump or command of a shard that pops its queue in order keeps both invariants and what joins them |
| Pipeline.JointRunInv | cpp/src/shard/shard.cpp:120-143 | so does every interleaving of the two |
| Pipeline.CoverExists | cpp/src/router/router.cpp:93-295 | what the shard has popped since its universe was installed is always what one stretch of reported router inputs contributes |
| Pipeline.LossSafety | cpp/src/router/router.cpp:93-295 | end to end: a live shard's book is usable exactly when the replay of the router inputs it has reached is known, and then equals it at every price |
| Pipeline.EveryRunIsLossSafe | cpp/src/shard/shard.cpp:120-143 | so it is after every joint run of router and shard, whether or not the router has faulted |
| Pipeline.UnknownUntilDelivered | cpp/src/router/router.cpp:112-176 | after a lost input of a market, and no well-formed snapshot delivered later, a replay of the inputs knows nothing of it |
| Pipeline.LostStaysUnusable | cpp/src/router/router.cpp:112-176 | at every moment of every joint run, when a reached input lost book data of a market (full queue, missing slot, parse failure, bad update or barrier), its book is unusable until a well-formed snapshot is delivered |
| Pipeline.LeakIsSilent | cpp/src/router/router.cpp:124-132 | a book frame refused by shard queue, logger and recycle queue stops the router and leaves the shard, its queue and its books as they were |
| Pipeline.LeakStaysSilent | cpp/apps/predex/main.cpp:527-534 | after that no turn or pump changes a book of a shard that has popped everything |
| Pipeline.LostDeltaLeavesBookUsable | cpp/src/router/router.cpp:124-132 | a concrete run in which a delta is lost this way and the live shard's book stays usable through any turns and pumps that follow |
| ShardObject.ShardWorker.constructor | cpp/src/shard/shard.cpp:12-14 | a new shard is the initial state |
| ShardObject.ShardWorker.SendOrDefer | cpp/src/shard/shard.cpp:24-33 | a status is sent, kept as the one pending status, or lost |
| ShardObject.ShardWorker.FlushPending | cpp/src/shard/shard.cpp:35-44 | the pending status is sent or stays |
| ShardObject.ShardWorker.PublishMessage | cpp/src/shard/shard.cpp:664-689 | a strategy message goes to the queue, or publication is silenced for good |
| ShardObject.ShardWorker.PublishAffectedPairs | cpp/src/shard/shard.cpp:713-770 | exactly the pairs next to a changed market, or every pair of an event that became usable |
| ShardObject.ShardWorker.Report | cpp/src/shard/shard.cpp:46-60 | a loss is reported as unavailable and for recovery, or faults the shard |
| ShardObject.ShardWorker.ApplyParsed | cpp/src/shard/shard.cpp:277-358 | a parsed frame is applied, reported and published as the model says |
| ShardObject.ShardWorker.MatchesTarget | cpp/src/shard/shard.cpp:620-662 | true exactly when the handle names an installed market |
| ShardObject.ShardWorker.HandleFrame | cpp/src/shard/shard.cpp:158-358 | a missing slot or a parse failure invalidates; a good frame is applied |
| ShardObject.ShardWorker.HandleBarrier | cpp/src/shard/shard.cpp:360-432 | a market barrier invalidates its market, once |
| ShardObject.ShardWorker.InvalidateEverything | cpp/src/shard/shard.cpp:459-467 | the loop over events ends in the model's state with exact counts |
| ShardObject.ShardWorker.HandleSubscription | cpp/src/shard/shard.cpp:435-472 | a subscription barrier invalidates every book |
| ShardObject.ShardWorker.DispatchMessage | cpp/src/shard/shard.cpp:145-156 | each message goes to its handler |
| ShardObject.ShardWorker.PumpOnce | cpp/src/shard/shard.cpp:120-143 | one pump is the model's and keeps the invariant of every run |
| ShardObject.ShardWorker.InstallEvents | cpp/src/shard/shard.cpp:16-18 | the installed books are exactly the given ones, in new objects |
| ShardObject.ShardWorker.HandleCommand | cpp/src/shard/shard.cpp:491-559 | install, prepare, drain and resume move the shard as the model says |
| Arb.AddUpTo | cpp/src/strategy/monotonic_arb.cpp:93-107 | the saturating sum is the lesser of the true sum and what is required |
| Arb.OfferedExactly | cpp/src/strategy/monotonic_arb.cpp:110-364 | the candidates are exactly the levels reachable from the top with enough depth, each as its own selection |
| Arb.ScanLevelScans | cpp/src/strategy/monotonic_arb.cpp:138-211 | one pass of the loop body extends every running quantity by exactly one level |
| Arb.Collect | cpp/src/strategy/monotonic_arb.cpp:110-364 | the loop returns exactly the offered levels, or exactly the first reason that refuses the side, for both mirrored functions |
| Arb.FeeCovers | cpp/src/strategy/monotonic_arb.cpp:558-599 | the charged fee never falls short of the exact one and exceeds it by less than a tick beyond the reserve |
| Arb.FeeBound | cpp/src/strategy/monotonic_arb.cpp:512-599 | under a valid configuration the fee before the reserve is at most 25 ticks a lot, so only the reserve can overflow it |
| Arb.SelectPair | cpp/src/strategy/monotonic_arb.cpp:386-506 | the nested loops return the clearing pair that is first by depth score, then net edge, then position, or the exact reason there is none; any unrepresentable fee refuses |
| Arb.Evaluate | cpp/src/strategy/monotonic_arb.cpp:601-687 | accepted exactly when the screen passes, no fee overflows and some pair clears; then the best pair, otherwise the exact reason |
| Arb.AcceptedPays | cpp/src/strategy/monotonic_arb.cpp:601-687 | in every settlement where the harder YES implies the easier YES, filling both legs at their limits pays at least the net edge after fees, and that is at least what is required |
| Arb.CandidateFacts | cpp/src/strategy/monotonic_arb.cpp:601-687 | an accepted candidate names its own observation and two different markets, with limits strictly inside the dollar and an edge above its fees |
| Arb.ProjectedSides | cpp/src/strategy/monotonic_arb.cpp:110-130 | a side projected from any book is usable by the evaluator exactly when it is not empty and shows no level at nothing or at a dollar |
| Arb.FreeAskIsRefused | cpp/src/strategy/monotonic_arb.cpp:110-130 | a snapshot with an ask at a price of nothing makes a usable book whose side the evaluator refuses |
| Arb.PublishedHeader | cpp/src/strategy/monotonic_arb.cpp:51-80 | a published observation passes the header check exactly when its ids are set and differ |
| Strategy.RetireInv | cpp/src/strategy/strategy.cpp:384-411 | forgetting a group releases exactly the capital promised to it and keeps the maps inverse |
| Strategy.ActivateInv | cpp/src/strategy/strategy.cpp:273-279 | a published group enters both maps under a new id, and its capital is added without overflow |
| Strategy.PortfolioInv | cpp/src/strategy/strategy.cpp:337-353 | a portfolio report takes out exactly the capital of the groups already admitted |
| StrategyRuns.StrategyStepInv | cpp/src/strategy/strategy.cpp:126-425 | every message keeps the strategy invariant |
| StrategyRuns.StrategyRunInv | cpp/src/strategy/strategy.cpp:126-425 | over every run the event and group maps are inverse, pending capital is the sum over active groups, and identities advance together without wrapping |
| StrategyRuns.BlockedIsSilent | cpp/src/strategy/strategy.cpp:188-193 | once execution is blocked nothing is published again |
| StrategyRuns.IntentsAreFresh | cpp/src/strategy/strategy.cpp:443-519 | no group, signal or order identity is used twice in a run, and a pair is never acted on twice at one revision |
| StrategyRuns.UnavailableIsRespected | cpp/src/strategy/strategy.cpp:164-172 | an event declared unavailable is acted on again only at a later revision |
| StrategyRuns.PromisesFitCapital | cpp/src/strategy/strategy.cpp:246-253 | whenever an intent is published, everything promised to active groups fits the capital last reported |
| StrategyRuns.OneGroupPerEvent | cpp/src/strategy/strategy.cpp:194-199 | a second group for an event is published only after the order manager ended the first |
| StrategyRuns.PublishedIsWellFormed | cpp/src/strategy/strategy.cpp:443-519 | a published intent passes every shape, timestamp, distinctness and edge check of admission |
| StrategyRuns.CapitalAgrees | cpp/src/strategy/strategy.cpp:427-441 | the strategy's capital estimate is the order manager's requirement exactly when that is defined |
| StrategyRuns.SizesDisagree | cpp/src/strategy/monotonic_arb.cpp:379-380 | a size the strategy's configuration allows whose notional the order manager cannot represent |
| StrategyRuns.PublishedIsAdmitted | cpp/src/oms/oms.cpp:411-588 | a published intent is admitted if and only if the order manager's own state, routes, limits and funds allow it, its revision is not 0 and its size is representable; then the reservation is the strategy's estimate |
| StrategyObject.MonotonicArbStrategy.constructor | cpp/src/strategy/strategy.cpp:36-57 | a new strategy has no group and its first identities |
| StrategyObject.MonotonicArbStrategy.RequiredCapital | cpp/src/strategy/strategy.cpp:427-441 | the estimate is the model's |
| StrategyObject.MonotonicArbStrategy.MakeGroupIntent | cpp/src/strategy/strategy.cpp:443-519 | the next identities are taken, or none and nothing changes |
| StrategyObject.MonotonicArbStrategy.HandleCandidate | cpp/src/strategy/strategy.cpp:220-283 | a candidate is suppressed, blocks, loses its identities to backpressure, or is published and remembered |
| StrategyObject.MonotonicArbStrategy.HandleObservation | cpp/src/strategy/strategy.cpp:126-284 | an observation is evaluated exactly when it is expected, timely, newer, unblocked and its event idle, and then handled as the model says |
| StrategyObject.MonotonicArbStrategy.HandleEventUnavailable | cpp/src/strategy/strategy.cpp:286-301 | the latest unavailable revision is kept |
| StrategyObject.MonotonicArbStrategy.CountAdmitted | cpp/src/strategy/strategy.cpp:347-353 | the in-place loop, in any order, leaves pending equal to what is still promised |
| StrategyObject.MonotonicArbStrategy.HandlePortfolio | cpp/src/strategy/strategy.cpp:329-353 | a newer report for this strategy is taken, any other ignored |
| StrategyObject.MonotonicArbStrategy.HandlePosition | cpp/src/strategy/strategy.cpp:354-366 | the sequence advances |
| StrategyObject.MonotonicArbStrategy.HandleAdmission | cpp/src/strategy/strategy.cpp:367-388 | an accepted group stops being pending, a rejected one is forgotten |
| StrategyObject.MonotonicArbStrategy.HandleGroupState | cpp/src/strategy/strategy.cpp:389-412 | an unsafe state blocks, a terminal one forgets the group |

## Left out

- Sockets, sessions, JSON, configuration, logging, statistics, latency histograms and telemetry messages: plumbing and presentation around the modelled state.
- Status and portfolio messages from the order manager to strategies and the control plane: the model keeps the state they report, not the messages, and the strategy takes them as inputs in any order.
- Telemetry counters are unbounded; the conservation laws are about counters that do not wrap.
- Hash maps are mathematical maps; loops over them are proved for every iteration order.
- Allocation failure is modelled only where the coordinator rolls back from it.
- Recovery durations and time points are integers; durations in the configuration are not negative.
- The long-double average entry price is an arbitrary integer input of a fill; no statement depends on it.
- Portfolio totals and counts are unbounded integers where the code has no overflow guard; every guard the code has is modelled.
- The quantity summed inside the near-top window is unbounded; the code adds it in 64 bits without a guard.
- Client order ids are identified with the request ids they are printed from; an empty id is 0.
- OrderRestEgressDrained and the reconciled order snapshot, whose handlers only report or do nothing.
- OmsObject.OrderManager keeps related fields in four records (orders, outgoing commands, money, gate) and holds its maps as values; aliasing between records is not modelled.
- SpscQueueObject.SpscQueue takes a loaded index as an argument, so that a load may be stale; the destructor is not modelled.
- Raw memory orders are represented by which older values a load may return and by the order of accesses in Spsc.AccessesOrdered, not by a full memory model.
- ShardObject.ShardWorker does not model the hand-off of frame slots after use, the drain loops around a single pump, or timestamps; a frame's content is a function of its handle.
- Pipeline joins the router and one shard through a FIFO whose pops may miss what is there and whose pushes may be refused at any time; that the ring is such a FIFO is Spsc.EveryInterleavingIsFifo, and the ring's own steps are not interleaved into the joint run.
- The shard's fault, sid and sequence fields in statuses are not modelled.
- ShardReports.LossReportedIff states its if-and-only-if for a market whose id no other market of its event has, because a report names a market by its ids; ShardReports.ReportsAreOwed needs no such condition.
- Arb.Collect stands for both mirrored functions, with the direction as a parameter.
- StrategyObject.MonotonicArbStrategy does not model the round-robin over input queues; which message comes next is arbitrary.
- Observations carry their timestamps and closing times beside the projected pair; the shard model builds the pair without them.
- Universe building is used only through what it guarantees: every route owns its slot and indices match.
