# Verified model of the vanetza core

This project models the parts of vanetza-idf (an implementation of the ETSI ITS-G5 protocol suite)
that carry the most state, and proves what they keep over whole runs.

The model has one module per component. A component that updates its fields is a class whose
methods are proved equal to a step function on a plain state; the laws are lemmas about the step
functions and about `Run`, the state after any sequence of events. Time is an `int` (ticks of the
system clock), sizes are unbounded naturals, ratios are exact reals.

- `DueList`, `ManualRuntime`: lists ordered by due time, and the manually driven runtime.
- `CbfPacketBuffer`, `CbfViews`, `CbfInvariants`, `CbfRuns`, `CbfHistory`, `CbfAges`,
  `CbfCapacity`, `CbfArming`: the contention-based forwarding buffer. It keeps packets in a list, timers in
  an ordered container and exactly one scheduled callback. The view maps an identifier to its packet,
  expiry and start.
- `BurstBudget`, `BurstPauses`: the budget for DP0 messages.
- `FlowControl`, `FlowControlRuns`, `FlowControlLaws`, `FlowControlDrops`, `FlowControlWitness`,
  `FlowControlTimes`: the DCC gatekeeper with its four queues.
- `Limeric`, `LimericConvergence`, `LimericControl`: the adaptive rate control.
- `FullyMeshed`, `GradualStates`: the reactive DCC state machines.
- `HappyEyeballs`, `HappyVerdicts`: the race between IPv6 and IPv4 in the PKI client, over every
  interleaving of its completion handlers.
- `Recency`, `BoundedMemories`: the LRU cache and the memory of GBC packets, against the recency list
  of their accesses.
- `TcpFraming`: the length-prefixed framing of socktap's TCP link.
- `CountryData`, `CountryFormat`: the country data reader and the language it accepts.
- `CbrAggregator`: the aggregation of channel busy ratios.
- `PathHistory`: the concise path of a vehicle.
- `Options`, `Bytes`, `Reversal`, `Subsequences`, `UnitInterval`: shared vocabulary.

## Where the code differs from what one might expect

- Burst budget: asking may clear the ring in the middle of a period, so a window as long as the period
  can hold up to 2n - 1 messages. Both the bound (`WindowHoldsFewerThanTwoBursts`) and, for all
  parameters, a run that reaches it (`WindowBoundIsReached`) are proved.
- CBF buffer: `update` does not reschedule the callback, so a shortened timer can be missed. The
  callback is on time if and only if no update makes a packet expire before it (`StepTimely`), and a
  trigger leaves no expired packet behind if and only if the callback is due or nothing has expired
  (`TriggerExact`).
- CBF buffer: the header speaks of at most so many bytes, but adding a packet exceeds the capacity if and
  only if the packet alone does (`AddExceeds`, with the input in `LongPacketExceeds`). In every run the
  capacity is exceeded exactly by one long packet (`ExceededByOne`), and it holds if all packets fit on
  their own (`FittingPacketsFit`).
- LRU cache: a capacity of zero behaves like a capacity of one.
- TCP link: the delimiter is an unsigned 16 bit number, so packets survive the round trip if and only
  if all of them are shorter than 65536 bytes.
- Flow control: a trigger strands queued packets if and only if no other trigger is pending and, of the
  packets that have not expired and without the one it transmits, rate control delays the first one of
  every queue for ever (`TriggerStrands`). `StrandedRun` is a run in which this happens. It takes a rate
  control that answers with the largest duration, which `NeverStranded` excludes. The repository's budgets
  answer with zero or the rest of an interval; this is proved for the burst budget (`DelayIsBounded`), the
  other two are not part of this model.
- Flow control: the drop hook is told about an expired packet itself, but about the new packet when a
  queued one makes room for it (`DropsAreReported`).
- LIMERIC: more load never permits a higher duty cycle if the alternate alpha of dual alpha is at least alpha
  (`NextDutyFalls`); with a smaller one it can (`SmallerAlternateRises`).
- LIMERIC: an update that runs more than one interval late skips a grid point.
- Path history: the query for a maximum length returns one point for a negative distance.
- Country data: bytes after a geometry but within its announced size are ignored, and every byte order
  flag other than 1 means big endian.

## Model

| member | source | states |
|---|---|---|
| ManualRuntimes.ManualRuntime.Schedule | vanetza/common/manual_runtime.cpp:11-14 | the entry is added to the bag of entries and an ordered queue stays ordered |
| ManualRuntimes.ManualRuntime.CancelScope | vanetza/common/manual_runtime.cpp:21-27 | no callback of the scope is left, every other scope keeps its callbacks, an ordered queue stays ordered, and a null scope changes nothing |
| DueList.InsertKeepsOrder | vanetza/common/manual_runtime.cpp:11-14 | the queue stays ordered by deadline and its front is the earlier of the old front and the new entry |
| ManualRuntimes.WithoutKeepsOrder | vanetza/common/manual_runtime.cpp:21-27 | cancelling keeps the queue ordered |
| CbfBuffers.CbfPacketBuffer.Add | vanetza/geonet/cbf_packet_buffer.cpp:92-124 | the new state, with head drop, duplicates, refused timeouts and rescheduling, is the one of the step function |
| CbfBuffers.CbfPacketBuffer.Remove | vanetza/geonet/cbf_packet_buffer.cpp:63-90 | the packet and its timer are gone, whether it was there is returned, erasing the first timer reschedules |
| CbfBuffers.CbfPacketBuffer.Update | vanetza/geonet/cbf_packet_buffer.cpp:126-137 | the packet is charged, its timer restarted and its counter incremented; the callback is left alone |
| CbfBuffers.CbfPacketBuffer.Fetch | vanetza/geonet/cbf_packet_buffer.cpp:139-159 | the charged packet is returned if some lifetime is left, and leaves the buffer in any case |
| CbfBuffers.CbfPacketBuffer.Flush | vanetza/geonet/cbf_packet_buffer.cpp:173-211 | the packets of all expired timers leave in timer order and the callback is scheduled for the first timer left |
| CbfBuffers.CbfPacketBuffer.Trigger | vanetza/common/manual_runtime.cpp:43-72 | the clock moves and the runtime runs due callbacks until none is due |
| CbfBuffers.DropCountUnique | vanetza/geonet/cbf_packet_buffer.cpp:98-105 | the number of dropped packets is the only one after which the rest fits and before which it did not |
| CbfViews.RemoveView | vanetza/geonet/cbf_packet_buffer.cpp:63-80 | removal changes the entry of its identifier only |
| CbfViews.FetchView | vanetza/geonet/cbf_packet_buffer.cpp:139-159 | fetching changes the entry of its identifier only and returns that packet charged with its time |
| CbfViews.UpdateView | vanetza/geonet/cbf_packet_buffer.cpp:126-137 | an update changes the entry of its identifier only: new expiry, new start, packet charged |
| CbfHistory.AddView | vanetza/geonet/cbf_packet_buffer.cpp:92-124 | what adding does to the entry and the counter of every identifier, including those dropped to make room |
| CbfRuns.TriggerView | vanetza/geonet/cbf_packet_buffer.cpp:173-197 | a trigger removes exactly the expired entries if the callback is due and none otherwise |
| CbfInvariants.AddKeeps | vanetza/geonet/cbf_packet_buffer.cpp:92-124 | adding keeps the invariant and a callback that is on time |
| CbfInvariants.TakeKeeps | vanetza/geonet/cbf_packet_buffer.cpp:63-90 | taking a packet out keeps the invariant and a callback that is on time |
| CbfInvariants.UpdateTimely | vanetza/geonet/cbf_packet_buffer.cpp:126-137 | the callback is on time after an update if and only if the new expiry is no earlier than the pending callback |
| CbfInvariants.FlushArms | vanetza/geonet/cbf_packet_buffer.cpp:173-211 | the callback re-establishes the invariant, is on time again and is not due any more |
| CbfInvariants.FireExact | vanetza/common/manual_runtime.cpp:57-72 | the trigger loop hands out exactly the expired packets if the callback is due, moves no packet otherwise, and leaves nothing due |
| CbfRuns.RunKeeps | vanetza/geonet/cbf_packet_buffer.cpp:63-211 | in every run packets and timers agree, the byte count is exact, only a lone packet exceeds the capacity, and a buffer that is not empty has exactly one callback pending |
| CbfRuns.StepTimely | vanetza/geonet/cbf_packet_buffer.cpp:126-137 | for every event the callback stays on time if and only if the event is no update that expires before the callback |
| CbfRuns.RunTimely | vanetza/geonet/cbf_packet_buffer.cpp:205-211 | in every run without such updates the callback is on time |
| CbfRuns.TriggerExact | vanetza/geonet/cbf_packet_buffer.cpp:173-197 | a trigger leaves no expired packet behind if and only if the callback is due or nothing has expired |
| CbfRuns.TriggerLeavesNoneExpired | vanetza/geonet/cbf_packet_buffer.cpp:173-197 | in every run without such updates a trigger leaves no expired packet and no due callback |
| CbfHistory.EveryPacketHasOneFate | vanetza/geonet/cbf_packet_buffer.cpp:63-197 | in every run the packets given to the buffer are, as a bag, those in it and those that left it |
| CbfHistory.HandedOutAtMostOnce | vanetza/geonet/cbf_packet_buffer.cpp:63-197 | in every run in which no packet is given to the buffer twice, no packet leaves twice |
| CbfHistory.HandedOutIsNotBuffered | vanetza/geonet/cbf_packet_buffer.cpp:63-197 | in every run in which no packet is given to the buffer twice, none that has left, the latest one included, is still buffered |
| CbfHistory.CountedExactlyIfBuffered | vanetza/geonet/cbf_counter.cpp:27-37 | in every run a contending counter is zero exactly for identifiers that are not buffered |
| CbfHistory.CounterCountsUpdates | vanetza/geonet/cbf_counter.cpp:14-37 | in every run the contending counter of a buffered identifier is one more than the number of updates after the event that stored it |
| CbfHistory.ImmortalCounterCountsAll | vanetza/geonet/cbf_counter.cpp:9-25 | in every run an immortal counter is the number of events that stored a packet of the identifier or updated the buffered one |
| CbfCapacity.AddExceeds | vanetza/geonet/cbf_packet_buffer.cpp:92-105 | adding a packet exceeds the capacity if and only if the packet alone does |
| CbfCapacity.ExceededByOne | vanetza/geonet/cbf_packet_buffer.cpp:92-124 | in every run the capacity is exceeded if and only if a single packet is buffered that is longer than it |
| CbfCapacity.LongPacketExceeds | vanetza/geonet/cbf_packet_buffer.cpp:92-124 | one long packet in an empty buffer exceeds the capacity |
| CbfCapacity.FittingPacketsFit | vanetza/geonet/cbf_packet_buffer.cpp:92-124 | in every run the capacity holds if all packets that are given with a positive timeout fit on their own |
| CbfAges.EntriesAge | vanetza/geonet/cbf_packet_buffer.cpp:199-203 | in every run the lifetime a buffered packet has lost is the time from the latest event that stored its identifier to the start of its timer |
| CbfAges.LifetimeSpentIsTimeInBuffer | vanetza/geonet/pending_packet.hpp:68-86 | in every run the lifetime lost by a packet that is fetched, delivered or expired is exactly the time since the latest event that stored its identifier, however often it was updated; it is expired exactly if none is left |
| CbfAges.HandedOutInExpiryOrder | vanetza/geonet/cbf_packet_buffer.cpp:173-197 | a trigger hands packets out in order of their expiry and keeps the earlier log |
| CbfAges.ShortenedTimerIsMissed | vanetza/geonet/cbf_packet_buffer.cpp:126-137 | a timer shortened to expire before the callback is missed by a trigger in between |
| CbfAges.MissedPacket | vanetza/geonet/cbf_packet_buffer.cpp:126-137 | for every configuration, packet and times such a state is reachable: add for long, update to short, trigger in between |
| CbfAges.FirstAdd | vanetza/geonet/cbf_packet_buffer.cpp:92-124 | the run that adds one packet has it buffered and one callback at its expiry |
| CbfArming.FirstToExpire | vanetza/geonet/cbf_packet_buffer.cpp:82-90 | the first packet to expire has the earliest expiry, and a packet that expires before all others is the first one |
| CbfArming.RemoveRearms | vanetza/geonet/cbf_packet_buffer.cpp:63-90 | from every state of the invariant, timely or not: removing the first packet to expire with others left leaves the one callback due exactly at the smallest expiry left; every other removal leaves the callbacks alone; those of other components stay |
| CbfArming.FetchRearms | vanetza/geonet/cbf_packet_buffer.cpp:139-159 | fetching does the same to the callbacks |
| CbfArming.AddRearms | vanetza/geonet/cbf_packet_buffer.cpp:92-124 | adding leaves the callbacks alone if the first packet to expire is neither dropped nor overtaken, and otherwise leaves the one callback due exactly at the earliest expiry |
| CbfArming.CallbackIsExact | vanetza/geonet/cbf_packet_buffer.cpp:63-212 | in every run without updates the one callback of a buffer that is not empty is due exactly at its earliest expiry |
| BurstBudgets.BurstBudget.Delay | vanetza/dcc/burst_budget.cpp:28-45 | a positive answer leaves the ring alone, the budget opens exactly when it is over and not before, and it is never longer than the period; within the duration of a burst that is not full it is zero, from there to the end of the period positive |
| BurstBudgets.BurstBudget.Notify | vanetza/dcc/burst_budget.cpp:47-50 | the ring holds the latest n messages |
| BurstBudgets.DelayIsBounded | vanetza/dcc/burst_budget.cpp:28-45 | in every run the answer is between zero and the period |
| BurstBudgets.DelayIsShortest | vanetza/dcc/burst_budget.cpp:28-45 | until the answered delay is over the answer stays positive, and then it is zero |
| BurstBudgets.RunInv | vanetza/dcc/burst_budget.cpp:28-50 | in every run the ring is the tail of the messages sent since the last clear, and any 2n consecutive messages span the period |
| BurstBudgets.WindowHoldsFewerThanTwoBursts | vanetza/dcc/burst_budget.cpp:13-50 | in every run of a sender that obeys the delay no window of the period holds more than 2n - 1 messages |
| BurstBudgets.WindowBoundIsReached | vanetza/dcc/burst_budget.cpp:13-50 | for all parameters a monotone run reaches 2n - 1, so the bound is exact |
| BurstPauses.TransmitsExactly | vanetza/dcc/burst_budget.cpp:28-50 | in every run a poll transmits exactly if it is wanted and no message counts, a burst of fewer than n messages is within its duration, or the period since its start has elapsed; the ring is cleared exactly after the period |
| BurstPauses.NoMessageInPause | vanetza/dcc/burst_budget.cpp:35-42 | in every run nothing is sent from the end of the duration of a burst until the period since its first message has elapsed |
| BurstPauses.BurstGoesOn | vanetza/dcc/burst_budget.cpp:35-36 | in every run a burst with fewer than n messages takes another one within its duration |
| BurstPauses.MessageWasAllowed | vanetza/dcc/burst_budget.cpp:28-50 | every message of a run was wanted and allowed by the messages before it |
| FlowControls.FlowControl.Request | vanetza/dcc/flow_control.cpp:25-36 | expired packets are dropped, then the packet is transmitted at once or queued |
| FlowControls.FlowControl.Enqueue | vanetza/dcc/flow_control.cpp:59-73 | the oldest packets of a full queue are forgotten, the packet joins its queue, the first queued packet schedules a trigger |
| FlowControls.FlowControl.IsContended | vanetza/dcc/flow_control.cpp:87-101 | contention is reported exactly if a queue of the same or a higher priority is not empty |
| FlowControls.FlowControl.NextQueue | vanetza/dcc/flow_control.cpp:111-127 | the queue found by the loop is the one of the specification |
| FlowControls.FlowControl.DropExpired | vanetza/dcc/flow_control.cpp:135-148 | exactly the expired packets of every queue are dropped |
| FlowControls.FlowControl.Trigger | vanetza/dcc/flow_control.cpp:38-51 | expired packets are dropped, one packet is transmitted, the next trigger is scheduled |
| FlowControls.FlowControl.Reschedule | vanetza/dcc/flow_control.cpp:177-184 | pending triggers are replaced by one for the next queue |
| FlowControlRuns.NextIsEarliest | vanetza/dcc/flow_control.cpp:111-127 | the next queue has the smallest delay and among those the highest priority; there is none exactly if every first packet is delayed for ever |
| FlowControlRuns.TriggerStrands | vanetza/dcc/flow_control.cpp:38-57 | a trigger leaves packets queued without a pending trigger if and only if no other is pending and, of the unexpired packets before it without the one to transmit, every first packet is delayed for ever |
| FlowControlWitness.StrandedRun | vanetza/dcc/flow_control.cpp:38-57 | for any two packets of a category there is a legal run that strands the second one |
| FlowControlDrops.DropsAreReported | vanetza/dcc/flow_control.cpp:59-148 | in every run each drop was caused by one event: an expired queued packet is reported itself, a packet that makes room is reported as the requested one of its category |
| FlowControlRuns.NeverStranded | vanetza/dcc/flow_control.cpp:25-73 | in every run with finite delays a queued packet has a trigger pending |
| FlowControlRuns.NeverStale | vanetza/dcc/flow_control.cpp:75-148 | in every run no packet is transmitted after its lifetime, unless at its request |
| FlowControlLaws.PacketsAreConserved | vanetza/dcc/flow_control.cpp:25-160 | in every run the requested packets are, as a bag, the transmitted, the dropped and the queued ones |
| FlowControlLaws.HookCallsAddUp | vanetza/dcc/flow_control.cpp:135-170 | in every run requests = calls of the transmit hook + calls of the drop hook + queued packets |
| FlowControlLaws.OrderIsKept | vanetza/dcc/flow_control.cpp:25-101 | in every run and category the transmitted packets followed by the queued ones are a subsequence of the requested ones, also when packets are transmitted at once |
| FlowControlTimes.PriorityOfProfile | vanetza/dcc/mapping.cpp:9-35 | the four profiles have four different priorities, a lower profile number a higher one |
| FlowControlTimes.RequestExactly | vanetza/dcc/flow_control.cpp:25-36 | a packet is transmitted at once exactly if no unexpired packet of equal or higher priority is queued and its delay is zero; otherwise it joins the end of its queue, the oldest excess packets are forgotten, and a trigger is scheduled exactly if all queues were empty |
| FlowControlTimes.RoomIsLeast | vanetza/dcc/flow_control.cpp:64-67 | a limited queue forgets the least number of packets that leaves room for one, an unlimited one none |
| FlowControlTimes.TriggerSchedules | vanetza/dcc/flow_control.cpp:38-57 | a trigger schedules exactly one next trigger, at now plus the smallest delay of the first packets left, and none exactly if all those delays are infinite |
| FlowControlTimes.RescheduleSchedules | vanetza/dcc/flow_control.cpp:177-184 | rescheduling leaves exactly one trigger, at now plus the smallest delay of the first packets, and other callbacks alone; nothing changes if all delays are infinite |
| FlowControlTimes.PendingWasArmed | vanetza/dcc/flow_control.cpp:25-73 | in every legal run a pending trigger was scheduled by an event, at the time of the event plus the smallest delay rate control answered then |
| FlowControlTimes.TriggerWaits | vanetza/dcc/flow_control.cpp:38-57 | in every legal run a trigger fires no earlier than the time that an earlier event scheduled it for |
| FlowControlTimes.SentForAReason | vanetza/dcc/flow_control.cpp:25-51 | in every run each transmission was made at once for a packet free to go, or by a trigger for the packet with the smallest delay, ties by priority |
| Limerics.Limeric.UpdateCbr | vanetza/dcc/limeric.cpp:40-47 | the latest two measurements are kept, the load is their mean until there are two and then left alone, and load and duty cycle stay within their bounds |
| Limerics.Limeric.Calculate | vanetza/dcc/limeric.cpp:49-76 | load and duty cycle stay within their bounds and the next update is scheduled on the grid |
| Limerics.NextUpdateOnGrid | vanetza/dcc/limeric.cpp:78-92 | updates are scheduled on multiples of two intervals, one to three intervals ahead |
| Limerics.NextUpdateIsConsecutive | vanetza/dcc/limeric.cpp:78-92 | the next grid point is hit if and only if the update runs at most one interval late |
| Limerics.GridHasNoSkips | vanetza/dcc/limeric.cpp:70-92 | as long as no update runs later than that, the k-th update is exactly k grid steps after the first |
| LimericConvergence.ReachedInRange | vanetza/dcc/limeric.cpp:18-98 | in every run of measurements, updates and changes of the dual alpha setting load and duty cycle stay within their bounds |
| LimericConvergence.LimericContracts | vanetza/dcc/limeric.cpp:31-68 | an update halves the difference of loads of two instances and shrinks that of their duty cycles by 1 - alpha up to beta times the loads |
| LimericConvergence.PastFades | vanetza/dcc/limeric.cpp:31-76 | after n updates two instances differ by at most (1 - alpha)^n times their first difference plus beta times that of their loads, which is scaled by 1/2^n |
| LimericConvergence.PastsFade | vanetza/dcc/limeric.cpp:31-76 | the same bound for two instances with any pasts, from the second common measurement on |
| LimericConvergence.PastIsForgotten | vanetza/dcc/limeric.cpp:49-76 | for every tolerance there is a number of updates after which any two instances agree up to it, whatever their pasts, once they have seen two common measurements |
| LimericControl.OffsetIsClamped | vanetza/dcc/limeric.cpp:51-57 | the offset is beta times the distance of the load below the target, within the gain limits |
| LimericControl.NextDutyFalls | vanetza/dcc/limeric.cpp:49-68 | with equal duty cycle, more load never gives a higher next one, with dual alpha if its alternate alpha is not the smaller one |
| LimericControl.SmallerAlternateRises | vanetza/dcc/limeric.cpp:61-66 | an input for which a smaller alternate alpha gives a higher duty cycle for more load |
| LimericControl.NextDutyFollowsTarget | vanetza/dcc/limeric.cpp:49-68 | a load above the target gives at most, one below it at least, the decayed and clamped duty cycle, with the alpha that dual alpha chooses |
| LimericControl.DualIsSingle | vanetza/dcc/limeric.cpp:61-66 | dual alpha gives the duty cycle of the alternate alpha exactly if alpha alone lowers it by more than the threshold, and of alpha otherwise |
| LimericControl.DutySettles | vanetza/dcc/limeric.cpp:31-76 | under a constant load, after any past, load and duty cycle come as close as desired to the load and to its equilibrium |
| LimericControl.EquilibriumFalls | vanetza/dcc/limeric.cpp:49-68 | more load has a lower equilibrium, and a load at or above the target the smallest duty cycle |
| FullyMeshed.FullyMeshedStateMachine.Update | vanetza/dcc/fully_meshed_state_machine.cpp:103-127 | the measurement enters the ring and the mode changes by at most one: relaxed and restrictive never follow each other |
| FullyMeshed.FullyMeshedStateMachine.MinChannelLoad | vanetza/dcc/fully_meshed_state_machine.cpp:146-161 | the minimum of the latest ten loads, or of all if there are fewer, and zero if there are none |
| FullyMeshed.FullyMeshedStateMachine.MaxChannelLoad | vanetza/dcc/fully_meshed_state_machine.cpp:163-178 | the maximum of the latest fifty loads, or of all if there are fewer |
| FullyMeshed.LowIsBelowHigh | vanetza/dcc/fully_meshed_state_machine.cpp:146-178 | the short minimum never exceeds the long maximum |
| FullyMeshed.SubstateFollowsHigh | vanetza/dcc/fully_meshed_state_machine.cpp:46-63 | the active substate is determined by the long maximum alone |
| FullyMeshed.ElevenHighLoadsRestrict | vanetza/dcc/fully_meshed_state_machine.cpp:103-127 | from every reachable state eleven loads of at least 0.59 lead to the restrictive state |
| FullyMeshed.TenHighLoadsActivate | vanetza/dcc/fully_meshed_state_machine.cpp:103-127 | after ten loads of at least 0.19 the relaxed state is left |
| FullyMeshed.FiftyOneLowLoadsRelax | vanetza/dcc/fully_meshed_state_machine.cpp:103-127 | from every reachable state 51 loads below 0.19 lead to the relaxed state |
| FullyMeshed.RestrictiveIsLeftAfterFifty | vanetza/dcc/fully_meshed_state_machine.cpp:103-127 | the restrictive state is left if and only if the last fifty loads are below 0.59, and never to the relaxed state directly |
| FullyMeshed.ModeFollowsLoads | vanetza/dcc/fully_meshed_state_machine.cpp:103-127 | in every run the next mode is given by the mode, the last ten and the last fifty measurements: relaxed is left after ten of at least 0.19, restrictive after fifty below 0.59, active to relaxed after fifty below 0.19 and to restrictive after ten of at least 0.59 |
| FullyMeshed.SubstateFollowsLoads | vanetza/dcc/fully_meshed_state_machine.cpp:46-63 | in every run the active substate counts the thresholds 0.27, 0.35, 0.43 and 0.51 reached by one of the last fifty measurements |
| GradualStates.GradualStateMachine.Update | vanetza/dcc/gradual_state_machine.cpp:22-38 | the machine moves one step towards the state that matches the load and stays there |
| GradualStates.MatchIsUnique | vanetza/dcc/gradual_state_machine.cpp:22-38 | at most one state matches a load |
| GradualStates.MatchExists | vanetza/dcc/gradual_state_machine.cpp:57-63 | some state matches every load |
| GradualStates.StepTowards | vanetza/dcc/gradual_state_machine.cpp:22-38 | an update moves one step towards the matching state and stays there |
| GradualStates.WalksStraight | vanetza/dcc/gradual_state_machine.cpp:22-38 | the state after n updates with the same load, in closed form |
| GradualStates.ReachesMatch | vanetza/dcc/gradual_state_machine.cpp:22-38 | the matching state is reached from any state within one update less than there are states |
| HappyEyeballs.HappyEyeballsRace.V6ResolveDone | tools/pki/http.cpp:193-202 | an answer starts IPv6 and gives it the attempt delay, a failure lets IPv4 go at once, and the progress invariant is kept |
| HappyEyeballs.HappyEyeballsRace.V4ResolveDone | tools/pki/http.cpp:204-212 | an answer starts IPv4 if and only if the gate is open and otherwise leaves it to an armed gate, and the progress invariant is kept |
| HappyEyeballs.HappyEyeballsRace.V6ConnectDone | tools/pki/http.cpp:214-220 | a connection stops the race, a lost attempt opens the gate and stops it only if IPv4 is decided, and the progress invariant is kept |
| HappyEyeballs.HappyEyeballsRace.V4ConnectDone | tools/pki/http.cpp:134-138 | a connection stops the race, a lost attempt stops it only if IPv6 is decided, and gate, IPv6 and the progress invariant are kept |
| HappyEyeballs.NeverStuck | tools/pki/http.cpp:170-243 | in every interleaving, when nothing but the deadline is outstanding the race has stopped with a connection or two failures |
| HappyEyeballs.TimedOutMeansDeadline | tools/pki/http.cpp:170-191 | in every interleaving a timeout is reported exactly when the deadline stopped the race |
| HappyEyeballs.V4StartsOnceAndAfterHeadStart | tools/pki/http.cpp:204-246 | in every interleaving IPv4 starts at most once, after a gate delay has elapsed and, unless IPv6 has failed, not before the attempt delay after an IPv6 answer that came in time, or the resolution delay after the IPv4 answer |
| HappyVerdicts.OutcomesAreSeen | tools/pki/http.cpp:113-142 | in every interleaving a family is resolved, connected or failed exactly if one of its completions said so, and at most one is connected |
| HappyVerdicts.StoppedBy | tools/pki/http.cpp:237-243 | in every interleaving the race has stopped exactly after a connection, a failure of both families or the deadline |
| HappyVerdicts.VerdictIsRight | tools/pki/http.cpp:182-190 | in every interleaving the verdict names the family that connected, a failed resolution exactly if both lookups failed, a failed connect exactly if both families failed and one of them while connecting, and a timeout otherwise |
| BoundedMemories.LruCache.Access | vanetza/common/lru_cache.hpp:49-57 | the key becomes the newest one, the oldest key makes room for a new one, and every cached value is the one cached before, as its callers left it, or else a generated one |
| BoundedMemories.StoresMostRecent | vanetza/common/lru_cache.hpp:49-90 | for every capacity and trace the cache holds the latest distinct keys in order |
| BoundedMemories.CachedByDistance | vanetza/common/lru_cache.hpp:49-90 | a key is cached if and only if fewer than capacity distinct keys were accessed since |
| BoundedMemories.LargerCacheIncludes | vanetza/common/lru_cache.hpp:64-90 | on the same trace a larger cache holds all keys of a smaller one |
| BoundedMemories.GbcMemory.Resize | vanetza/geonet/gbc_memory.cpp:8-17 | the capacity is at least one and the oldest identifiers beyond it are forgotten |
| BoundedMemories.GbcMemory.Remember | vanetza/geonet/gbc_memory.cpp:24-44 | whether the identifier was known, and it becomes the newest one |
| BoundedMemories.MemoryMirrorsRecency | vanetza/geonet/gbc_memory.cpp:8-44 | however capacities change, the memory is the newest part of the recency list |
| BoundedMemories.KnownByDistance | vanetza/geonet/gbc_memory.cpp:24-49 | with a capacity of c throughout, an identifier is known if and only if fewer than c others came after it |
| Recency.TakenByDistance | vanetza/common/lru_cache.hpp:64-90 | the first c of the recency list are the keys after whose last access fewer than c distinct keys came |
| TcpFraming.TcpSocket.ReceiveHandler | tools/socktap/tcp_link.cpp:148-181 | all complete frames of the stored bytes are passed up and the rest is kept; what was indicated are always the packets passed up that hold an Ethernet header |
| TcpFraming.ChunkingIsIrrelevant | tools/socktap/tcp_link.cpp:148-166 | for every way of cutting the bytes into chunks the receiver ends as if they had come at once |
| TcpFraming.NothingIsLost | tools/socktap/tcp_link.cpp:148-190 | on any bytes the frames of what was passed up followed by the kept bytes are the input |
| TcpFraming.DrainLeavesIncomplete | tools/socktap/tcp_link.cpp:148-166 | the kept bytes are no complete frame |
| TcpFraming.RoundTrip | tools/socktap/tcp_link.cpp:27-56 | the packets sent are passed up in order, for every way of cutting, if and only if all are shorter than 65536 bytes |
| TcpFraming.IndicatedRoundTrip | tools/socktap/tcp_link.cpp:148-181 | for every way of cutting exactly the packets sent that hold an Ethernet header are indicated, in order |
| TcpFraming.IndicatedExactly | tools/socktap/tcp_link.cpp:168-181 | exactly the packets of at least 14 bytes are indicated, each as often as it comes |
| TcpFraming.FrameLayout | tools/socktap/tcp_link.cpp:33-36 | a frame is the size, most significant byte first, and the packet |
| TcpFraming.PrefixOfStream | tools/socktap/tcp_link.cpp:148-190 | at any moment the first packets have been passed up and a proper prefix of the next frame is kept |
| CountryData.ReadRings | vanetza/geodesy/country_data_reader.cpp:66-95 | the loop over rings reads what the specification reads; the first ring is the outer one |
| CountryData.ReadPolygonBody | vanetza/geodesy/country_data_reader.cpp:58-98 | the polygon and the number of bytes read, or the failure and its position |
| CountryData.ReadPolygons | vanetza/geodesy/country_data_reader.cpp:127-147 | the loop over the polygons of a multi-polygon, each with its own byte order |
| CountryData.ReadWkb | vanetza/geodesy/country_data_reader.cpp:102-151 | the polygons of a geometry, or the failure and its position |
| CountryData.CountryDatabase.Read | vanetza/geodesy/country_data_reader.hpp:84-125 | the result of reading, and the entries passed to the callback so far are emplaced |
| CountryData.CountryDatabase.Load | vanetza/geodesy/country_database.cpp:47-65 | all or nothing: the first entry of every code if the data is accepted, otherwise no entry |
| CountryData.ReadCountryData | vanetza/geodesy/country_data_reader.hpp:84-125 | success ends exactly at the end of the data, a failure is located within the data |
| CountryData.FirstEntryIsKept | vanetza/geodesy/country_database.cpp:51-54 | of the entries of a code the first one is kept |
| CountryData.OnlyEntriesAreKept | vanetza/geodesy/country_database.cpp:51-54 | a code is known if and only if an entry has it |
| CountryFormat.WrittenIsRead | vanetza/geodesy/country_data_reader.hpp:84-125 | every file of the format, with any mix of byte orders, is accepted and its entries are passed on in order |
| CountryFormat.ReadWasWritten | vanetza/geodesy/country_data_reader.hpp:84-125 | accepted data is a file of the format, and the entries passed on are those of the file |
| CountryFormat.AcceptsExactlyTheFormat | vanetza/geodesy/country_data_reader.hpp:84-125 | data is accepted if and only if it is a file of the format |
| CountryFormat.FailureIsLocated | vanetza/geodesy/country_data_reader.hpp:84-125 | on failure the entries passed on are those of the countries at the start of the data, no country follows them, and the reported position is not before that place |
| CountryFormat.PolygonIsRead | vanetza/geodesy/country_data_reader.cpp:66-95 | a polygon written with its outer ring first is read as that polygon, in either byte order |
| CountryFormat.SmallFileIsRead | vanetza/geodesy/country_data_reader.hpp:84-125 | what is read from a small file given byte by byte |
| Bytes.ByteOrders | vanetza/geodesy/country_data_reader.cpp:34-53 | little endian numbers start with their least significant byte, big endian ones end with it |
| CountryFormat.RingsRead | vanetza/geodesy/country_data_reader.cpp:66-95 | rings that were read are found in the data as written, and end where reading stopped |
| CountryFormat.GeometryRead | vanetza/geodesy/country_data_reader.cpp:102-151 | an accepted payload starts with a geometry of the format that has the polygons returned |
| CountryFormat.FirstCountryIsLoaded | vanetza/geodesy/country_database.cpp:47-65 | loading a file keeps the polygons of the first country of every code |
| CbrAggregation.CbrAggregator.Aggregate | vanetza/geonet/cbr_aggregator.cpp:50-71 | the local, one-hop, two-hop and global ratios are those of the specification |
| CbrAggregation.AverageIsMean | vanetza/geonet/cbr_aggregator.cpp:16-29 | the running average is the arithmetic mean |
| CbrAggregation.MaximaAreLargest | vanetza/geonet/cbr_aggregator.cpp:16-29 | the two maxima are the two largest values of the bag |
| CbrAggregation.FoldIgnoresOrder | vanetza/geonet/cbr_aggregator.cpp:16-29 | mean and maxima depend on the bag of values only |
| CbrAggregation.VisitFoldsFresh | vanetza/geonet/cbr_aggregator.cpp:31-38 | visiting the table folds the values of exactly its fresh reports |
| CbrAggregation.AggregateIgnoresOrder | vanetza/geonet/cbr_aggregator.cpp:50-71 | the aggregated ratios do not depend on the order of the location table |
| CbrAggregation.AggregateChooses | vanetza/geonet/cbr_aggregator.cpp:31-71 | one-hop and two-hop ratio are the largest of the fresh reports if their mean exceeds the target and otherwise the second largest; the global ratio is the largest of both and of the previous local ratio |
| CbrAggregation.FreshByDistance | vanetza/geonet/timestamp.cpp:81-98 | a report is fresh exactly if it is less than half the range of time stamps ahead, modulo 2^32, or exactly half with the smaller number |
| PathHistories.PathHistory.AddSample | vanetza/facilities/path_history.cpp:41-50 | the sample enters the ring, and the concise path is extended and truncated |
| PathHistories.PathHistory.UpdateConcisePoints | vanetza/facilities/path_history.cpp:69-91 | afterwards the newest point is the sample before the latest one or describes the way to the latest one accurately enough; older points are kept |
| PathHistories.PathHistory.TruncateConcisePoints | vanetza/facilities/path_history.cpp:93-107 | the path is cut after the first point that reaches the retention distance |
| PathHistories.PathHistory.MinLength | vanetza/facilities/path_history.cpp:115-133 | a prefix whose length reaches the distance only at its end |
| PathHistories.PathHistory.MaxLength | vanetza/facilities/path_history.cpp:141-158 | a prefix that cannot be extended without exceeding the distance |
| PathHistories.MaxCutIsLongest | vanetza/facilities/path_history.cpp:141-158 | the result is the longest prefix within the distance, and within it if and only if the distance is not negative or nothing is returned |
| PathHistories.MinCutIsShortest | vanetza/facilities/path_history.cpp:115-133 | the result is the shortest prefix that reaches the distance, or everything if none does |
| PathHistories.ConciseSelectsSamples | vanetza/facilities/path_history.cpp:41-107 | in every run the concise points are distinct samples, newest first, and every segment joins neighbouring samples or has a chord within the allowable error |
| PathHistories.ErrorMeansMisfit | vanetza/facilities/path_history.cpp:69-89 | the error exceeds the allowable one exactly if the chord is too long, or the heading changes and the bulge is too large |
| PathHistories.KeptExactly | vanetza/facilities/path_history.cpp:41-107 | in every run the sample before the latest one is kept exactly if there are three and the chord to the latest one misfits, and oldest points are forgotten only if the rest reaches the retention distance |
| PathHistories.PathIsBounded | vanetza/facilities/path_history.cpp:93-107 | in every run the path without its oldest segment is shorter than the retention distance |

## Left out

- CbfBuffers.Reduced: lifetimes are exact durations; rounding to the multiplier and base of the GeoNetworking lifetime field is not modelled.
- CbfBuffers.CbfPacketBuffer.Flush: the delivery callback does not call back into the buffer, as in the router.
- CbfBuffers.CbfPacketBuffer.Trigger: callbacks of other components do not schedule new ones while the trigger loop runs; they may do so between triggers.
- CbfBuffers.CbfPacketBuffer.Update: a restarted timer is placed after equal expiries; boost's replacement leaves their order open.
- CbfHistory.CounterCountsUpdates: the counters are a map in a field of the buffer, not objects of their own that could be shared.
- FlowControls.FlowControl.Request: the answers of the transmit rate control are parameters, constant during one call.
- LimericConvergence.PastIsForgotten: dual alpha may be used in the past but is off while the instances converge, since its switch between two factors is not continuous; the bounds hold with it.
- CbrAggregation.AverageIsMean: over exact reals; the tolerance of floating-point comparison is not modelled.
- HappyEyeballs.HappyEyeballsRace.V6ResolveDone: the two families are values in the fields of the race; sockets, addresses and error codes are reduced to outcomes.
- CountryData.ReadRings: sizes are unbounded, so the overflow of a 32 bit size type in the check of point data is not modelled.
- The fading CBF counter, resetting the manual runtime, and changes of the burst budget's parameters during a run.
- Limeric for clocks that start more than two intervals before the epoch, and the overflow of 64 bit times.
- Point-in-polygon queries, file access and error texts of the country database.
- The trigonometry of chords: distance and bulge are parameters of the path history, assumed to be non-negative distances.
- The router, serialisation of headers, certificates, security services, ASN.1 messages and the socktap applications: mostly fixed layouts and glue around libraries.
