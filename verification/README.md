# A verified model of the SimLN core

SimLN simulates payment activity on a Lightning network. This project models two of its parts and proves what holds
of them in every run.

**The simulated network.** Channels have two one-sided states, each with a balance, a map of HTLCs in flight and a
counter. A payment locks its route hop by hop, asks interceptors after each hop, and then unwinds the route backwards.
The lock on the channels is taken for one hop at a time, so any number of payments interleave between any two hops.

- `Channel` gives one channel as values; `SimChannel` gives the two classes that update their fields in place and proves
  each method equal to its value-level function, with every balance and total in a u64.
- `Network` is the step relation: channels, payments, and how far the task of each payment has come. `Invariant`,
  `NetworkProofs` and `Preservation` prove the invariant of all runs; `LedgerProofs`, `NodeWealth`, `Fees` and
  `TaskProgress` draw the conclusions; `StrandedRun` is a run in which a payment reports success and stays locked.
- `ChannelProofs` says when an addition, a removal or a forward is accepted, refused or critical, and what it does;
  `StepOutcomes` says the same of the steps of a payment, and which of them break a payment off.
- `SimNetwork` holds the loops that add and remove the HTLCs of a route, as methods over channel objects that other
  tasks may change wherever the task waits. Each locked section is proved to be one step of the relation.
- `Interceptors` merges what several interceptors say about an HTLC; `GraphIndex` builds the graph and its index.

**The payment scheduler.** A heap of events, at most one for each source, ordered by time and then by key.

- `Schedule` gives the scheduler as values, `ScheduleProofs` its invariant and `ScheduleTheorems` what follows for whole
  runs: the payments sent are the sorted merge of the schedules of the single sources. `StartDelay` says when the first
  payment of a source is sent, in runs that may draw zero amounts.
- `Draws` says which destination, amount and time each event gets, by folding the shared stream of destinations over the
  order in which the sources are asked.
- `HeapSchedule` gives the loop with its heap as a list, for any executors; `EventLoop` is the class with the heap, the
  tracker map and the clock, proved against it; `HeapRefinement` shows that with distinct sources a run of the loop is a
  run of `Schedule`.
- `Ordering`, `NetworkView` and `Reproducible` cover sorting by key, the view from which random destinations are drawn,
  and why a run does not depend on the order in which maps hand out their entries.
- `Reporting` and `ReportingProofs` follow the results from the send tasks through two bounded channels to the logger;
  `ReportingAnswers` ties each report to what a node answered; `Simulation` joins the end of the loop, which shuts the
  simulation down, to what has been reported by then.

Times are whole seconds, amounts are millisatoshi. `dafny verify dfyconfig.toml` checks the project.

Where comments in the code and the code differ, the model follows the code:

- `simln-lib/src/lib.rs:654-656` says that the heap holds at most one event for each source. This is so if and only if
  no two executors have the same source (`HeapSchedule.OneEventEachIff`); with two for one source two events are pending
  and the first generator is overwritten (`HeapSchedule.RepeatedSource`).
- `simln-lib/src/lib.rs:1343-1344` says that a start delay is a once-off delay for the first payment. It applies anew to
  each event that replaces one without an amount before the source has sent anything. The first payment is then late if
  and only if such an event was popped after the start (`StartDelay.FirstPaymentDue`), as in the run of
  `StartDelay.StartDelayTwice`.
- `simln-lib/src/sim_node.rs:339-340` says that the capacity is split evenly between the two sides. An odd millisatoshi
  is lost, and such a channel refuses every HTLC (`ChannelProofs.EvenSplitIsSane`).
- `simln-lib/src/sim_node.rs:1541-1545` says that a breakdown of the state machine still gives the outcome of the
  payment. If the interceptors cannot be told of a resolution, `Success` or a failure is reported while hops stay locked
  (`LedgerProofs.StrandedIff`).
- `simln-lib/src/random_activity.rs:65-66` says that nodes without capacity are filtered out; the code refuses them.

## Model

| member | source | states |
|---|---|---|
| SimChannel.ChannelState.InFlightTotal | simln-lib/src/sim_node.rs:195-197 | the sum of all HTLCs in flight, whatever order the map is visited in, without u64 overflow |
| SimChannel.ChannelState.CheckHtlcForward | simln-lib/src/sim_node.rs:201-228 | the method with its checked u64 product and sum answers as the specification whose answers `ForwardAnswers` and `FeeIs` fix, and never overflows |
| ChannelProofs.FeeIs | simln-lib/src/sim_node.rs:209-216 | the proportional part f of the fee of every policy and amount is the millionth rounded down: 1000000 * f <= amount * rate < 1000000 * (f + 1) |
| ChannelProofs.ForwardAnswers | simln-lib/src/sim_node.rs:201-228 | without naming the fee: accepted if and only if the delta suffices, the fee fits u64 and what is offered pays it; critical if and only if only the fee does not fit; refused otherwise; the errors name the least fee that pays |
| SimChannel.ChannelState.CheckOutgoingAddition | simln-lib/src/sim_node.rs:239-261 | names the first limit that an addition breaks, for every side on which these sums fit u64 |
| ChannelProofs.AdditionPassesIff | simln-lib/src/sim_node.rs:230-261 | an addition passes if and only if it is within the sender's size limits, the peer's count and total, the balance and the expiry limit |
| SimChannel.ChannelState.AddOutgoingHtlc | simln-lib/src/sim_node.rs:264-283 | the fields after an addition, and no change otherwise, as in the specification whose answers `AdditionAnswers` and `AdditionEffect` fix |
| SimChannel.ChannelState.RemoveOutgoingHtlc | simln-lib/src/sim_node.rs:286-290 | hands back the entry and its index and takes just this entry out, or reports that the hash is unknown |
| SimChannel.SimulatedChannel.constructor | simln-lib/src/sim_node.rs:341-355 | every channel split in half can be operated on without u64 overflow, and one with even capacity and valid policies is in good order |
| ChannelProofs.EvenSplitIsSane | simln-lib/src/sim_node.rs:339-355 | a new channel passes its sanity check if and only if its capacity is even; an odd one refuses every HTLC |
| SimChannel.SimulatedChannel.AddHtlc | simln-lib/src/sim_node.rs:395-415 | the answer and the whole new state are those of the specification on every channel whose sums fit u64, sane or not; good order is kept; `AdditionAnswers` says when it accepts |
| ChannelProofs.AdditionAnswers | simln-lib/src/sim_node.rs:264-283 | every answer of an addition on every channel, each with its exact condition: accepted if and only if it has an amount, the channel holds its capacity, the sender is an end, the six limits allow it and the hash is not in flight on that side; refused, a duplicate hash, and each other error likewise |
| ChannelProofs.AdditionEffect | simln-lib/src/sim_node.rs:395-415 | what an addition changes on the sender's side, to the balance, the map and the counter, and that the peer's side and all terms stay |
| ChannelProofs.RefusalNames | simln-lib/src/sim_node.rs:239-261 | a refusal names the first limit that is broken, with the two values compared |
| ChannelProofs.AddHtlcEffect | simln-lib/src/sim_node.rs:395-415 | an addition keeps capacity and limits and never fails its sanity check; if it is not accepted nothing changes, and if it is the index is the old counter and only the sender's side is charged |
| SimChannel.SimulatedChannel.SanityCheck | simln-lib/src/sim_node.rs:419-432 | fails if and only if both balances and both totals in flight do not add up to the capacity |
| SimChannel.SimulatedChannel.SettleHtlc | simln-lib/src/sim_node.rs:456-473 | on success only the peer is credited, on failure only the sender |
| SimChannel.SimulatedChannel.RemoveHtlc | simln-lib/src/sim_node.rs:438-451 | the answer and the whole new state are those of the specification on every channel whose holdings fit u64, sane or not; good order is kept |
| ChannelProofs.RemovalAnswers | simln-lib/src/sim_node.rs:438-451 | every answer of a removal on every channel, each with its exact condition, and the entry handed back |
| ChannelProofs.RemovalEffect | simln-lib/src/sim_node.rs:286-308 | the entry leaves the sender's side and its amount goes to the peer on a success, to the sender otherwise, on every channel |
| ChannelProofs.RemoveHtlcEffect | simln-lib/src/sim_node.rs:438-473 | on a channel in good order the removal of an HTLC in flight succeeds and keeps capacity and limits |
| ChannelProofs.AddThenFailRestores | simln-lib/src/sim_node.rs:295-299 | adding an HTLC and failing it back restores both sides but for the counter |
| SimChannel.SettlementFits | simln-lib/src/sim_node.rs:295-308 | settling never takes a balance beyond what the channel holds, so that no u64 overflows |
| Preservation.RunKeepsInv | simln-lib/src/sim_node.rs:1335-1529 | the whole invariant (channels, payments, owners, indexes, ledger) in every state of every interleaving |
| LedgerProofs.LedgerEquation | simln-lib/src/sim_node.rs:264-308 | in every reachable state a balance is the initial one, less what is locked, less what was sent and settled, plus what was received and settled, critical errors included |
| LedgerProofs.SanityNeverFails | simln-lib/src/sim_node.rs:395-451 | in every reachable state holdings equal capacity, and no addition or removal by anybody fails its sanity check |
| LedgerProofs.LimitsHold | simln-lib/src/sim_node.rs:230-283 | in every reachable state each side keeps within the count and total its peer negotiated, and every HTLC within the sender's sizes |
| LedgerProofs.OwnedByOne | simln-lib/src/sim_node.rs:1356-1385 | every HTLC in flight belongs to exactly one hop of one payment, with the amount, expiry and index it was added with, even when payments share a hash |
| LedgerProofs.RemovalNeverFails | simln-lib/src/sim_node.rs:1482-1504 | a task that unwinds always finds the HTLC of its hop and gets back the index handed out for it |
| LedgerProofs.IndexesIdentify | simln-lib/src/sim_node.rs:277-282 | channel, sending side and index name one hop of one payment for ever, and the index stays below the counter |
| LedgerProofs.StrandedIff | simln-lib/src/sim_node.rs:1509-1526 | a payment ends with hops locked, without a critical error, if and only if its interceptors failed to hear of a resolution other than the last |
| StrandedRun.SuccessStrands | simln-lib/src/sim_node.rs:1560-1577 | a run over two hops that reports success with the first hop still locked |
| LedgerProofs.AllOrNothing | simln-lib/src/sim_node.rs:1546-1624 | each balance is what the other payments make of it plus all amounts of a successful payment, or plus nothing for a failed one; nothing of the payment is in flight if and only if it was not stranded |
| LedgerProofs.AllSettled | simln-lib/src/sim_node.rs:1473-1529 | when all payments have ended without critical errors, nothing is in flight anywhere if and only if none was stranded |
| LedgerProofs.BalancesWhenDone | simln-lib/src/sim_node.rs:456-473 | when all payments are done, each balance is the initial one plus what the hops of the successful payments moved |
| LedgerProofs.LeftForGood | simln-lib/src/sim_node.rs:1608-1618 | what a payment leaves locked, for instance after a critical error, stays in flight whatever happens later |
| LedgerProofs.ResolutionsMirrorAdditions | simln-lib/src/sim_node.rs:1482-1526 | each hop added gets one resolution, in reverse order, with the index of its addition and the channel after it |
| TaskProgress.NeverStuck | simln-lib/src/sim_node.rs:1356-1526 | in every reachable state the task of a payment that has not ended can take a step, and it brings it nearer to its end |
| TaskProgress.TaskEndsInTime | simln-lib/src/sim_node.rs:1335-1529 | in every run a payment over n hops takes at most 4 * n steps of its own, those still left included |
| StepOutcomes.AddStep | simln-lib/src/sim_node.rs:1356-1422 | what becomes of a payment when it adds a hop, told from the channel, the answer to the addition, the next policy and u64 alone: a refusal by the channel unwinds from the hop before, one by the forward check from this hop, a missing channel, a critical answer, an unknown forwarder or a fee overflow breaks the payment off |
| StepOutcomes.ReplyStep | simln-lib/src/sim_node.rs:1440-1457 | a refusal by the interceptors unwinds from this hop, a critical error breaks the payment off, and otherwise the next hop follows or the unwinding of a success |
| StepOutcomes.RemoveStep | simln-lib/src/sim_node.rs:1482-1507 | in every reachable state a task that unwinds settles or fails back just its hop |
| StepOutcomes.ToldStep | simln-lib/src/sim_node.rs:1509-1526 | unwinding goes on with the hop before, and ends at the source or where a notification fails |
| StepOutcomes.BrokenIff | simln-lib/src/sim_node.rs:1608-1618 | in every run a payment ends with `Unknown` if and only if at some place of the run its hop met no channel or a critical answer, or the next channel did not know its forwarder or its fee overflowed, or its interceptors were critical |
| NodeWealth.WealthEquation | simln-lib/src/sim_node.rs:456-473 | what a node owns over all its channels is what it started with plus what the payments did to it |
| NodeWealth.SuccessShiftsWealth | simln-lib/src/sim_node.rs:1345-1457 | a successful payment gives each node the fees of the hops into it and takes the full amount from the source, also on routes that visit a node twice |
| NodeWealth.SimpleRouteGains | simln-lib/src/sim_node.rs:1345-1457 | on a simple route the source loses the total, each other node of the route gains exactly the fee of its hop (at the destination the final value), nobody else changes |
| NodeWealth.NetworkWealthUnchanged | simln-lib/src/sim_node.rs:456-473 | a successful payment changes nothing for the nodes of the network taken together |
| NodeWealth.WealthWhenDone | simln-lib/src/sim_node.rs:1345-1457 | when all payments are done, a node owns what it started with plus the fees of the hops into it, less the full amounts it sent, over the successful payments |
| Fees.FeeMonotone | simln-lib/src/sim_node.rs:210-217 | the fee with its floored proportional part ("HTLC Fees" of BOLT #7) grows with the amount |
| Fees.LockedCoversPolicies | simln-lib/src/sim_node.rs:1394-1409 | if every forward offers what the next policy asks, the amount and expiry of each hop cover the policies of all later forwarders compounded |
| Fees.WholeRouteCoversPolicies | simln-lib/src/sim_node.rs:1394-1457 | this holds for every payment of every run whose hops were all added |
| SimNetwork.SimGraph.DispatchPayment | simln-lib/src/sim_node.rs:1240-1280 | a route of exactly one path starts a payment at its first hop with nothing locked; any other route changes nothing |
| SimNetwork.SimGraph.AddUnderLock | simln-lib/src/sim_node.rs:1361-1422 | one locked section of `add_htlcs` is one step of the relation, of which `AddStep` says what it decides |
| SimNetwork.SimGraph.RemoveHop | simln-lib/src/sim_node.rs:1495-1507 | one locked section of `remove_htlcs` is one step of the relation and cannot fail |
| SimNetwork.PathTotals | simln-lib/src/sim_node.rs:1345-1346 | fees plus final value of a path are the amount locked at its first hop, and likewise for expiries |
| SimNetwork.SimGraph.AddHtlcs | simln-lib/src/sim_node.rs:1335-1462 | the loop ends with all hops locked, or with the last hop added and its reason, or in a critical error, while others take any steps; each hop's interceptors are shown its index, channels, amounts, expiries and the records attached at the hop before, and the last answer that is no acceptance decides; amounts and expiries never underflow |
| SimNetwork.SimGraph.RemoveHtlcs | simln-lib/src/sim_node.rs:1473-1529 | unlocks from the last hop added backwards; an error occurs if and only if some notification fails, and then the hops before the last one whose notification fails, and only these, stay locked; the notices given are those on record |
| SimNetwork.SimGraph.PropagatePayment | simln-lib/src/sim_node.rs:1546-1624 | the outcome reported is the one the task ended with, and it is `Unknown` if and only if the run broke the payment off in one of the ways of `BrokenIff`; a shutdown is signalled if and only if that happened or the interceptors failed to hear of a hop added; how many hops stay locked in each case |
| Interceptors.MergeRecords | simln-lib/src/sim_node.rs:1014-1028 | merges two maps of records unless they differ on a key that both have |
| Interceptors.HandleIntercepted | simln-lib/src/sim_node.rs:983-1061 | of the answers read, all of them or those before a shutdown: critical if and only if one is critical or two conflict, with the first such error; else a refusal if and only if one refuses, with the last reason; else exactly the union of all records |
| Interceptors.HandleInBothOrders | simln-lib/src/sim_node.rs:1003-1058 | for every two orders in which the interceptors finish, the result is of the same kind and the records are the same |
| GraphIndex.Validate | simln-lib/src/sim_node.rs:358-370 | a channel is valid if and only if its ends differ and both policies fit its capacity |
| GraphIndex.NewGraph | simln-lib/src/sim_node.rs:1093-1139 | succeeds if and only if all channels are valid and ids are distinct, and otherwise names a fault there is; then the index lists for each node exactly its channels |
| GraphIndex.NewChannelsStart | simln-lib/src/sim_node.rs:341-355 | a graph built from new channels is one that the theorems on runs start from if and only if every capacity is even and below two to the power of 63 |
| GraphIndex.LookupNode | simln-lib/src/sim_node.rs:1283-1304 | fails if and only if the node has no channel, else finds exactly its capacities that are not excluded |
| GraphIndex.LookupStable | simln-lib/src/sim_node.rs:1294-1301 | nothing that a run does changes what a lookup finds |
| GraphIndex.EveryChannelTwice | simln-lib/src/sim_node.rs:839-847 | summed over all nodes, the capacities found are twice the total that is not excluded |
| HeapSchedule.OneEventEachIff | simln-lib/src/lib.rs:654-656 | in every run the heap holds at most one event for each source at all times if and only if no two executors have the same source |
| HeapSchedule.RepeatedSource | simln-lib/src/lib.rs:1079-1087 | two executors with one source leave two events pending and only the second generator |
| EventLoop.PaymentEvents.SetUpEvents | simln-lib/src/lib.rs:1068-1088 | for any executors, setting up gives the specified start, or fails if and only if some first event cannot be generated |
| ScheduleTheorems.StartDelayOnce | simln-lib/src/lib.rs:1343-1373 | in every run without zero amounts the first payment of a source comes after its start delay, or a wait if it has none, and each later one a wait after the one before |
| StartDelay.FirstPaymentDue | simln-lib/src/lib.rs:1184-1192 | in every run, zero amounts included, the first payment of a source is sent its start delay after its last event without an amount was popped, or after the start; so it is sent on time if and only if no such event was popped after the start |
| StartDelay.StartDelayTwice | simln-lib/src/lib.rs:1345-1373 | a run of two sources in which a start delay of one second makes the first payment leave after two |
| EventLoop.PaymentEvents.GeneratePayment | simln-lib/src/lib.rs:1232-1278 | the method takes the step of the specification, whose draws `EventsAreDrawn` fixes, for a known source, and reports an unknown one and an event that cannot be generated |
| Draws.EventsAreDrawn | simln-lib/src/lib.rs:1244-1275 | in every run, zero amounts included, the shared stream is at the fold of all draws so far, and every event pending or sent has the destination drawn at the position before its own draw, the amount its own generator gave for that destination, and the time its delay gave |
| Draws.MergeIsDrawn | simln-lib/src/lib.rs:1258-1268 | in every state of every run without zero amounts the list of sources and the log alone determine the position, every destination and every amount: payment number n of a source has amount number n for its destination |
| EventLoop.PaymentEvents.Pop | simln-lib/src/lib.rs:652-661 | takes out an event that no other is before |
| EventLoop.PaymentEvents.TakeTurn | simln-lib/src/lib.rs:1136-1224 | for any executors and heap, what one turn does, with each way in which it can end the loop, a shutdown during its sleep included |
| HeapSchedule.AsleepSendsNothing | simln-lib/src/lib.rs:1194-1203 | a shutdown during the sleep of a turn sends nothing and moves no clock |
| EventLoop.PaymentEvents.Produce | simln-lib/src/lib.rs:1124-1230 | the states of the loop follow from each other turn by turn, and how it ended |
| HeapRefinement.TurnRefines | simln-lib/src/lib.rs:1143-1224 | with distinct sources a turn is a round of the scheduler, or one of the ends of the loop |
| HeapRefinement.LoopRefines | simln-lib/src/lib.rs:1068-1230 | with distinct sources the states of the loop are a run of the scheduler |
| HeapRefinement.EmptyMeansFull | simln-lib/src/lib.rs:1221-1224 | a queue that has run empty means that every payment wanted was sent |
| EventLoop.ProducePaymentEvents | simln-lib/src/lib.rs:1068-1230 | with distinct sources, counts, non-zero amounts, known nodes and events that can be generated the loop ends by itself after exactly the sum of count + 1 turns and has sent the whole merge: sorted by time and key, every payment that any source wants, at its own time, and nothing else; each payment has the destination and amount that the order of the draws gives it |
| ScheduleProofs.RunKeepsInv | simln-lib/src/lib.rs:1124-1230 | in every state of every run each source has one event pending, due when its own delays say, or has met its count, and the log holds just what was sent, sorted |
| ScheduleTheorems.SendsTheMerge | simln-lib/src/lib.rs:1143-1220 | what was sent is the sorted merge of the sources' own schedules up to the first event pending, each payment at its own time whatever other sources do |
| ScheduleTheorems.SendsNothingElse | simln-lib/src/lib.rs:1143-1220 | every payment sent is one its source wants, at the time it is due |
| ScheduleTheorems.SortedLogUnique | simln-lib/src/lib.rs:652-661 | the order of time and key leaves only one order for what is sent |
| ScheduleTheorems.EndsAfterAllRounds | simln-lib/src/lib.rs:1165-1224 | the queue is empty after exactly the sum of count + 1 rounds; no source exceeds its count, and in the end each has met it |
| ScheduleTheorems.FrontExists | simln-lib/src/lib.rs:1143-1150 | while events are pending one of them is first |
| ScheduleTheorems.ClockAtLastSent | simln-lib/src/lib.rs:1165-1224 | the clock only moves to send, so that a loop that runs out of events ends at the time of its last payment |
| ScheduleTheorems.BoundedWaiting | simln-lib/src/lib.rs:1143-1202 | with n sources and waits of at least a second, an event due at t is popped within n * (t - now + 1) rounds |
| NetworkView.NetworkGraphView.New | simln-lib/src/random_activity.rs:54-82 | refused if and only if there are fewer than two nodes, or one without capacity, or the library builds no weighted index, else the nodes sorted by key |
| NetworkView.NetworkGraphView.ChooseDestination | simln-lib/src/random_activity.rs:89-117 | the first node drawn that is not the source, with the generator just past that draw; the same destination and position as the scheduler of random activity works with |
| NetworkView.FirstHitUnique | simln-lib/src/random_activity.rs:102-116 | the draw that is chosen is determined by the stream |
| Ordering.SortSorts | simln-lib/src/random_activity.rs:69 | sorting by key orders the list and keeps its entries |
| Ordering.SortForgetsOrder | simln-lib/src/random_activity.rs:68-69 | with distinct keys the sorted list is the same for every permutation |
| Reproducible.OrderForgotten | simln-lib/src/lib.rs:1076-1088 | for every order of the executors a run is the same, round by round |
| Reproducible.ActiveOrderForgotten | simln-lib/src/lib.rs:1032-1060 | with random activity, where all sources share the sorted view and its stream of draws, no state of a run depends on the order of the map of active nodes |
| Reproducible.NobodyPaysItself | simln-lib/src/random_activity.rs:106-109 | with random activity no payment of any run goes from a node to itself |
| Reporting.PaymentResultLogger.ReportResult | simln-lib/src/lib.rs:1434-1441 | one counter goes up by one and the total by the amount |
| Reporting.PaymentResultLogger.ConsumeResults | simln-lib/src/lib.rs:1396-1415 | after any number of results, all received or those before a shutdown, the counters add up to the results read and to their amounts |
| ReportingProofs.StepConserves | simln-lib/src/lib.rs:1498-1604 | no step of any task duplicates a payment or drops one unaccounted |
| ReportingProofs.NeverTwice | simln-lib/src/lib.rs:1206-1217 | in every run, with shutdowns and errors, no payment is reported more often than it was dispatched, and the counters are those of the reports |
| ReportingProofs.StoppedIff | simln-lib/src/lib.rs:1211-1213 | a run is shut down if and only if it takes a shutdown from outside or a send task fails for good |
| ReportingAnswers.ReportsAreAnswers | simln-lib/src/lib.rs:1559-1593 | in every run the reports made, with those still on their way, are as a multiset part of the answers given: the result a tracker got for its payment, or that a payment was not dispatched |
| ReportingProofs.LosesIff | simln-lib/src/lib.rs:1313-1338 | a run loses a payment if and only if a send task meets a permanent error or a closed channel, a producer or tracker with a result finds a shutdown, or the consumer does while results wait in its channel |
| ReportingProofs.ExactlyOnce | simln-lib/src/lib.rs:1498-1604 | in every state of every run every payment was reported exactly as often as it was dispatched if and only if the pipeline has drained and no step of the run dropped a payment |
| ReportingProofs.AllCounted | simln-lib/src/lib.rs:1434-1445 | success plus failed and the total sent are then those of all payments dispatched |
| ReportingAnswers.AllAnswersReported | simln-lib/src/lib.rs:1434-1441 | drained and with nothing dropped, the reports are exactly these answers, and the logger counts as many successes as trackers passed on |
| ReportingProofs.CalmDropsNothing | simln-lib/src/lib.rs:1282-1341 | without a shutdown and without permanent errors no step drops a payment |
| ReportingProofs.ShutdownLoses | simln-lib/src/lib.rs:1586-1590 | a shutdown can lose the result of a payment that was sent and is tracked |
| ReportingProofs.BufferedResultLost | simln-lib/src/lib.rs:1396-1401 | a shutdown can lose a result that waits in the channel to the consumer |
| ReportingProofs.NeverStuck | simln-lib/src/lib.rs:1498-1549 | while payments are under way some task can go on, despite the two bounded channels, also after a shutdown |
| ReportingProofs.Drains | simln-lib/src/lib.rs:1396-1604 | from every state, stopped or not, the pipeline drains by its own steps |
| ReportingProofs.DrainsInTime | simln-lib/src/lib.rs:1498-1604 | without a shutdown, once nothing more is dispatched, the pipeline has drained after exactly as many effective steps as are left |
| Simulation.EndOfLoop | simln-lib/src/lib.rs:1103-1116 | for any run of the event loop whose payments are those sent through the pipeline, the loop ends by shutting the simulation down: what had been reported by then, a part of the loop's log, is all that ever is, and it is the whole log if and only if the pipeline had drained |
| Simulation.WholeMergeReported | simln-lib/src/lib.rs:1103-1116 | if it had, and the loop ran out of events, every payment that any source wants is reported with the time it was due |

## Left out

- Node backends, command line, configuration files, CSV writing, tracing and the discrete-event runtime are not part of this model.
- Pathfinding, the scorer and the library graph: a route is any non-empty list of hops whose sums fit u64 and u32.
- `SimNode`: keys, invoices and the channels on which it waits for results; a payment has one task and one result.
- Random number generators and distributions: waits, amounts, draws and whether an event can be generated are arbitrary functions given from outside, for each source by how often it was asked, and for the shared stream of destinations by its position.
- The rounding of waits to whole seconds: time is whole seconds, where rounding changes nothing.
- GeneratePayment: what an event that fails to be generated had drawn by then is not modelled; the loop has ended.
- Zero amounts: the scheduler and its class model that such an event is replaced at once, but the theorems on the merge, on counts and on waiting ask for non-zero amounts, because a source without them is rescheduled without being counted.
- HandleIntercepted: what interceptors answer is given from outside; that one may answer differently because a refusal of another signals it is not modelled.
- Index counters are unbounded: the wrap at two to the power of 64 is not modelled.
- AddHtlc: channels whose sums do not fit u64, where the code overflows, are not modelled; runs start from channels with balances that add up to the capacity, which is below two to the power of 63 millisatoshi.
- ReportResult: asks that the u64 total fits; the state machine `Reporting` counts without bound.
- ConsumeResults: the writing of results to a file, and its errors, are not modelled.
- The heap and the library sort are modelled by what they promise: the event popped is a least one, found by a scan, and sorting is insertion by key.
- ChooseDestination: asks for some later draw that is not the source, since otherwise the loop of the code never ends.
- New: for which weights the library builds a weighted index is given from outside.
- Await: what other tasks do while a task waits is any sequence of steps of the relation that are not steps of the task itself.
- Which nodes have enough capacity for random activity, and how many events they generate in a month, are not modelled.
