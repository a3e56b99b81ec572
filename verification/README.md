# Ordering, timing and exactly-one-answer in acton-reactive

acton-reactive is an actor framework. This project models the parts of it that promise an
order, a rate, or exactly one answer, and proves those promises for every run.

* `Subscriptions`, `BrokerProtocol`, `Shutdown`: the broker's subscriber map; its fan-out,
  interleaved one send at a time with clients, subscribers and closing inboxes; the flush
  barrier; and the order shutdown builds on it.
* `Pipeline`, `PipelineProof`, `PipelineResults`, `PipelineCompletion`: the broadcast example on top of
  the broker, end to end: one report, after everything has drained, and no way for a run to stop short of it.
* `Deadlines`, `ScheduledSend`: saturating deadline arithmetic, the manual clock, and the timer
  loop with its published progress.
* `SendPath`, `Ask`, `AskDelivery`, `Handoff`: getting a message into an inbox, request and reply over
  it, and the three-way wait for a supervisor's answer.
* `RestartLimiter`, `IpcRegistry`, `RgbCorrelator`: the pruned restart list, the IPC names, and
  the keystroke correlator.

Code that edits state in place (the broker's map, the example's actors, the timer's record, the
manual clock, the limiter, the registry, the correlator) is a class. Each method is proved
against a function of the old state, and the theorems are about that function over arbitrary
sequences of calls. Concurrent protocols are state machines: `Next(s, a)` is one step, an action
that is not possible leaves the state unchanged, and `Run` plays any list of actions, so each
theorem is about every interleaving. Main results are stated against something other than the
step function: the request log, the actions of the run, the full history, the naive loop, the calls,
the inbox read backwards.

## Assumptions

* An inbox is a FIFO bounded queue, and a closed one rejects sends.
* A mutable handler, with the sends it awaits, finishes before its actor takes the next message.
* A clock never goes backwards.
* Each call on a shared map is one atomic step.
* Taking a supervision request up and answering it is one uninterrupted stretch, short of a crash of
  the supervisor's task. That task ends only when cancelled, or once its inbox is closed and drained.
* Time is in nanoseconds, with the range of a signed 64-bit count of seconds for an instant and
  an unsigned one for a duration.

## Where the code and its documentation differ

The model follows the code. Paths are relative to `acton-reactive/`.

* `next_fixed_rate` (`src/common/scheduled_send.rs:263-279`): a saturated deadline is described
  as never landing in the past. Once a whole interval has elapsed and the next grid point is not
  representable, it is never after now (a schedule armed at the very first instant excepted):
  `Deadlines.NextFixedRateStrictlyAfterNow` gives the exact condition and
  `Deadlines.SaturatedGridLandsInThePast` an input. Such a schedule can deliver without limit while
  the clock stands still (`ScheduledSend.SpinsWithTheClockStill`, `ScheduledSend.SaturatedSchedulesSpin`).
* `ScheduledSend::cancel` (`src/common/scheduled_send.rs:402-412`): cancelling during a delivery is
  said to settle without arming another tick. That holds exactly for one-shots, and for schedules
  whose inbox closes before the send has its slot
  (`ScheduledSend.CancelDuringDeliveryArmsNothingExactly`). Any other arms the next deadline first, and
  if its inbox is open its preference-free wait may serve that one too.
* `ManualClock::advance` (`src/common/clock.rs:188-194`): said to saturate at the end of the range;
  it leaves the clock unmoved (`Deadlines.ManualClock.Advance`).
* `supervise_with`, `retire_child` (`src/common/actor_handle.rs:517-518,609,654`): documented to return
  `SupervisorStopped` when the supervisor stops first. They never do. The token their wait watches is
  the handle's own, made at `src/common/actor_handle.rs:116,138` and never cancelled; a supervisor is
  cancelled by another one (`src/actor/supervision/engine.rs:851`). A supervisor that stops with the
  request unread makes the caller report `RegistrationLost` or `ReleaseLost`
  (`Handoff.TheVerdictIsTheAnswer`, `Handoff.CancellingIsWhatLosesARequest`).
* `AskError::Cancelled` (`src/common/ask.rs:114-118`) is documented for a scope that is shutting down.
  An ask sends under the handle's token too (`src/traits/actor_handle_interface.rs:244`), so it cannot
  arise (`AskDelivery.OnlyACancelledTokenCancelsAnAsk`).
* The example's sum is an `i32`: the report is the sum of the data wrapped to 32 bits, so it is
  the mathematical sum if and only if that fits
  (`PipelineCompletion.ReportsAreTheSumExactlyWhenItFits`, with an input in
  `PipelineCompletion.OneTooManyWrapsAround`). The test for
  a final sum in `run_complete` is implied by the count (`PipelineResults.TwoFinishedImplyDone`).
* Handles compare by identifier, so subscribing again after a restart does not replace the earlier
  handle: the earliest unremoved one stays (`Subscriptions.TableHoldsEarliestUnremoved`).

## Model

| member | source | states |
|---|---|---|
| Subscriptions.Broker.HandleSubscribe | acton-reactive/src/common/broker.rs:165-182 | The subscribe handler inserts into the type's set, creating it if needed; an equal handle already there stays. |
| Subscriptions.Broker.RemoveSubscription | acton-reactive/src/common/broker.rs:301-311 | Removes one entry and drops the set if that emptied it. |
| Subscriptions.Broker.RemoveAllSubscriptions | acton-reactive/src/common/broker.rs:323-328 | Removes the actor from every set and drops the sets that emptied. |
| Subscriptions.Broker.CollectSends | acton-reactive/src/common/broker.rs:258-278 | A broadcast makes one send for each subscriber of its type, for nobody else, and for nobody twice. |
| Subscriptions.EditsRefineTheRelation | acton-reactive/src/common/broker.rs:165-211 | The three edits are insertion, deletion and deletion by actor on the plain relation of (type, actor) pairs. |
| Subscriptions.LookupAfterEdits | acton-reactive/src/common/broker.rs:301-328 | Which handle each edit leaves for every type and actor: only the named pair, or the named actor, is affected, and an entry already present is not replaced. |
| Subscriptions.RemoveAllIsRemoveFromEach | acton-reactive/src/common/broker.rs:323-328 | Removing an actor altogether equals removing it from every type one by one, in any order and with repetitions. |
| Subscriptions.LookupDeterminesTable | acton-reactive/src/common/broker.rs:289-294 | With no empty sets kept, two maps that answer every lookup alike are equal. |
| Subscriptions.TableHoldsEarliestUnremoved | acton-reactive/src/common/actor_handle.rs:341-356 | After any request log no set is empty, and the entry for a type and actor is the handle of the earliest subscription not removed since, read off the log without the map. |
| BrokerProtocol.InboxIsProjection | acton-reactive/src/common/broker.rs:144-223 | In every reachable state a live inbox holds exactly the broker's log projected onto what its handle was subscribed to at each position, in order, except its own pending send; a closed or cancelled one holds a prefix. |
| BrokerProtocol.FlushIsABarrier | acton-reactive/src/message/flush_broadcasts.rs:36-49 | Once a flush is answered, every broadcast ahead of it is in each inbox subscribed at that point and still live, at its own place. |
| BrokerProtocol.PlaceInProjection | acton-reactive/src/common/broker.rs:258-281 | Each broadcast due to a subscriber has its own position in the projection, right after those due before it: nothing is merged or duplicated. |
| BrokerProtocol.RunKeepsInv | acton-reactive/src/common/broker.rs:250-287 | The invariant tying the log, the fan-out in progress, every inbox and every answered flush holds over all interleavings. |
| BrokerProtocol.HistoriesGrow | acton-reactive/src/message/outbound_envelope.rs:244-283 | No step removes or moves anything already enqueued anywhere, reopens an inbox or revives a token. |
| Shutdown.TerminateIsBehindFlushedBroadcasts | acton-reactive/src/common/actor_runtime.rs:660-694 | If the flush was answered, each broadcast accepted ahead of it lies before `Terminate` in every subscribed root's inbox and is handled first, under any interleaving. |
| Shutdown.WithoutFlushABroadcastIsLost | acton-reactive/src/common/actor_runtime.rs:662-664 | Without an answered flush a run exists in which a broadcast accepted before the stop never reaches its subscriber. |
| Shutdown.WithTheFlushItIsKept | acton-reactive/src/common/actor_runtime.rs:664-668 | A run in which the same broadcast, with the flush answered, is ahead of `Terminate`. |
| Shutdown.RunAllKeepsInv | acton-reactive/src/common/actor_runtime.rs:676-694 | The invariant of shutdown laid over the broker's holds over all interleavings. |
| Pipeline.Wrap | acton-reactive/examples/broadcast/main.rs:215-217 | The result is the one 32-bit value congruent to its argument, and the argument itself when that fits. |
| Pipeline.RunningSumIsWrappedSum | acton-reactive/examples/broadcast/main.rs:215-225 | Wrapping at each addition leaves the mathematical sum wrapped once. |
| Pipeline.DataCollectorActor.OnNewData | acton-reactive/examples/broadcast/main.rs:175-189 | Records the data point and announces that point. |
| Pipeline.DataCollectorActor.OnFinalize | acton-reactive/examples/broadcast/main.rs:191-196 | Announces `Finished` and nothing else. |
| Pipeline.AggregatorActor.OnNewData | acton-reactive/examples/broadcast/main.rs:215-227 | Keeps the sum of all data handled, wrapped to 32 bits, and announces it. |
| Pipeline.AggregatorActor.OnFinalize | acton-reactive/examples/broadcast/main.rs:235-242 | Announces the wrapped sum of all data handled, then `Finished`. |
| Pipeline.PrinterActor.OnStatusUpdate | acton-reactive/examples/broadcast/main.rs:303-325 | Counts completions, keeps the final sum, and answers a stored request exactly when the run completes. |
| Pipeline.PrinterActor.OnAwaitReport | acton-reactive/examples/broadcast/main.rs:331-342 | Answers at once if the run is complete, otherwise stores the request. |
| PipelineProof.ProjectionOfShaped | acton-reactive/examples/broadcast/main.rs:382-403 | For any log the program can make, the printer is owed exactly the status updates and each collector exactly the rest, in order. |
| PipelineProof.EmittedInFull | acton-reactive/examples/broadcast/main.rs:172-255 | A collector's only `Finished` is its last word, and the aggregator's last `Done` carries the sum of all the data. |
| PipelineProof.EmittedIsTheWholeStream | acton-reactive/examples/broadcast/main.rs:172-255 | For any data, what the handlers broadcast is: each data point and then `Finished`, from the data collector; the wrapped sum after each point, then `Done` with the wrapped total and `Finished`, from the aggregator. |
| PipelineProof.FinishedMeansAll | acton-reactive/examples/broadcast/main.rs:191-196 | Hearing a collector's `Finished` means having heard everything it says. |
| PipelineProof.TallyBySource | acton-reactive/examples/broadcast/main.rs:307-312 | The printer's count and sum, taken over the merged stream, are those of the separate sources. |
| PipelineResults.TwoFinishedMeanDrained | acton-reactive/examples/broadcast/main.rs:119-121 | Two `Finished` counted means all updates of both collectors were handled and the sum is that of all the data. |
| PipelineResults.TwoFinishedImplyDone | acton-reactive/examples/broadcast/main.rs:119-121 | In every run, completion is equivalent to the count alone: `Done` has then been handled. |
| PipelineResults.OneCorrectReport | acton-reactive/examples/broadcast/main.rs:362-412 | In every interleaving, for any data and arrival time of the request, at most one report is sent, exactly when the run is complete and the request handled; it carries the wrapped sum of all the data, the mathematical sum iff that fits; the printer has by then handled the whole stream of both collectors, and before that always a part of it from the start. |
| PipelineResults.ExecutionKeepsInv | acton-reactive/examples/broadcast/main.rs:172-358 | The invariant of the whole program holds over all interleavings. |
| PipelineCompletion.SomethingToDo | acton-reactive/examples/broadcast/main.rs:362-412 | With room in the inboxes and none closed, every reachable state in which the run is not over has a step that strictly lessens the work left: there is no dead end. |
| PipelineCompletion.EveryRunCanReport | acton-reactive/examples/broadcast/main.rs:396-412 | For any data, every run that has closed nothing, however far it got and in whatever order, can be carried on to the one report of the wrapped sum. |
| PipelineCompletion.EveryStepCounts | acton-reactive/examples/broadcast/main.rs:362-412 | Every step of a run that closes nothing and changes anything strictly lessens the work left. |
| PipelineCompletion.NoRunGoesOnForEver | acton-reactive/examples/broadcast/main.rs:362-412 | In every endless list of steps that closes nothing, some step changes nothing: no run goes on for ever. |
| PipelineCompletion.AStuckRunHasReported | acton-reactive/examples/broadcast/main.rs:405-412 | Every run that closes nothing and can go no further has sent the one report. |
| PipelineCompletion.ReportsAreTheSumExactlyWhenItFits | acton-reactive/examples/broadcast/main.rs:215-217 | All reports of all runs are the mathematical sum iff that fits in 32 bits. |
| PipelineCompletion.OneTooManyWrapsAround | acton-reactive/examples/broadcast/main.rs:215-217 | For the data 0x7fffffff and 1 some run reports -0x80000000. |
| Deadlines.HalvedToFit | acton-reactive/src/common/scheduled_send.rs:105-118 | The halving fits the room, leaves a fitting delay alone, and gives up at most half the room. |
| Deadlines.After | acton-reactive/src/common/scheduled_send.rs:100-119 | The loop terminates for all inputs and computes the specified deadline. |
| Deadlines.FireAfterSaturatesUpwards | acton-reactive/src/common/scheduled_send.rs:92-119 | Never before now; exact iff the sum fits; strictly later iff there is a delay and a later instant; saturating at or past half of what remains. |
| Deadlines.OffsetIsExact | acton-reactive/src/common/scheduled_send.rs:264-276 | The 128-bit product never saturates, and splitting into seconds and nanoseconds rebuilds every offset that fits, the longest duration otherwise. |
| Deadlines.NextFixedRateIsTheNaiveLoop | acton-reactive/src/common/scheduled_send.rs:255-279 | The division equals adding intervals until past now: on the grid, strictly after now, at most one interval later, whenever that point is representable. |
| Deadlines.NextFixedRateStrictlyAfterNow | acton-reactive/src/common/scheduled_send.rs:263-279 | Exactly when the next deadline is in the future, saturation included. |
| Deadlines.SaturatedGridLandsInThePast | acton-reactive/src/common/scheduled_send.rs:93-98 | An input whose next deadline is already past. |
| Deadlines.ManualClock.Advance | acton-reactive/src/common/clock.rs:190-194 | Moves by the step if that is representable, else stays; never backwards. |
| Deadlines.ManualClock.AdvanceTo | acton-reactive/src/common/clock.rs:200-206 | Moves to a later deadline, else stays. |
| Deadlines.AwaitTimer | acton-reactive/src/common/clock.rs:231-252 | Resolves at the first value seen at or past the deadline, or at the clock's end, and not before. |
| ScheduledSend.TimerTask.Run | acton-reactive/src/common/scheduled_send.rs:573-632 | For any sequence of wakeups the loop publishes what the plan prescribes, settling at most once; which deadlines those are is `DeadlinesAreExact`. |
| ScheduledSend.TimerTask.Arm | acton-reactive/src/common/scheduled_send.rs:540-566 | Arming publishes no deliveries, the plan's first deadline, and no outcome. |
| ScheduledSend.TimerTask.Settle | acton-reactive/src/common/scheduled_send.rs:604-611 | Settling clears the deadline and keeps the count. |
| ScheduledSend.TimerTask.RecordDelivery | acton-reactive/src/common/scheduled_send.rs:619-625 | A delivery counts one and arms the next deadline, or settles as delivered if there is none. |
| ScheduledSend.AwaitOutcome | acton-reactive/src/common/scheduled_send.rs:429-444 | Returns the first outcome seen, or `Abandoned` only if the channel closed with none. |
| ScheduledSend.WaitForDeliveries | acton-reactive/src/common/scheduled_send.rs:458-473 | Returns the count of the first record that reached the target or had settled, or of the last record once closed. |
| ScheduledSend.ProtocolRunsTheLoop | acton-reactive/src/common/scheduled_send.rs:592-631 | In every run of the protocol the published record is the one the loop produces for the wakeups of that run, so the results below are about `TimerTask.Run`. |
| ScheduledSend.DeadlinesAreExact | acton-reactive/src/common/scheduled_send.rs:493-519 | In every run without saturation, read off its actions: each deadline after the first is, under a fixed delay, the clock at the delivery before it plus the interval, and under a fixed rate what adding intervals first takes past that clock; the record published with the k-th delivery shows k and that deadline. |
| ScheduledSend.SendEveryKeepsItsCadence | acton-reactive/src/common/actor_handle.rs:253-267 | The same for the interval and cadence a caller passes, from the moment it asks. |
| ScheduledSend.OutcomesHaveCauses | acton-reactive/src/common/scheduled_send.rs:593-611 | In every run the outcome is by what the loop saw last: `Cancelled` for a cancellation that was requested, `Abandoned` for an inbox that was closed, `Undeliverable` for a failed delivery, `Delivered` for a one-shot's. |
| ScheduledSend.EveryOutcomeHappens | acton-reactive/src/common/scheduled_send.rs:285-319 | Every plan can come to each outcome, except that only a one-shot can be `Delivered`. |
| ScheduledSend.SettledOnceAndForAll | acton-reactive/src/common/scheduled_send.rs:326-334 | Over all runs: a deadline is armed exactly until settling, settled records are final, counts only grow, a one-shot is `Delivered` iff it delivered once, a repeating plan never is. |
| ScheduledSend.ObservedCountIsReal | acton-reactive/src/common/scheduled_send.rs:446-457 | Any record an observer sees has a count really reached in the inbox, and if settled is the last word. |
| ScheduledSend.NothingIsEarly | acton-reactive/src/common/scheduled_send.rs:573-632 | In every run each message has its own armed deadline and never reaches the inbox before the clock reaches that deadline, saturation included. |
| ScheduledSend.FirstMessageWaitsItsDelay | acton-reactive/src/common/actor_handle.rs:186-267 | The three ways of scheduling: no message before the delay, the deadline, or one whole interval has passed, in any run, whenever the sum is representable. |
| ScheduledSend.FirstDeadlineIsAsAsked | acton-reactive/src/common/actor_handle.rs:186-267 | The first deadline armed is exactly the delay, the deadline or the interval asked for, whenever it is representable. |
| ScheduledSend.NeverFasterThanTheInterval | acton-reactive/src/common/scheduled_send.rs:493-519 | For both cadences and every run without saturation: armed deadlines at least one interval apart, and messages sent times the interval never exceed the time since arming. |
| ScheduledSend.CoalescesExactlyWhenArmingTheFuture | acton-reactive/src/common/scheduled_send.rs:592-631 | After one clock jump at most one delivery follows until the clock moves, iff nothing can be served or the next deadline lies ahead; otherwise any number can. |
| ScheduledSend.ArmsTheFutureWhen | acton-reactive/src/common/scheduled_send.rs:506-518 | Exactly when the next deadline lies ahead, for every plan and every clock reading, saturated or not. |
| ScheduledSend.SpinsWithTheClockStill | acton-reactive/src/common/scheduled_send.rs:592-631 | From arming, with the clock stopped past the first deadline, a repeating schedule can send any number of messages iff the clock is at its last reading (fixed delay, or armed at the very first instant), or iff the next grid point is not representable (any other fixed rate). |
| ScheduledSend.SaturatedSchedulesSpin | acton-reactive/src/common/scheduled_send.rs:93-98 | Two schedules that do so before the last instant, one past its first interval and one within it. |
| ScheduledSend.CancelledIsQuiet | acton-reactive/src/common/scheduled_send.rs:592-611 | Cancelled while waiting, with the clock held before the armed deadline, nothing is delivered or armed ever again. |
| ScheduledSend.CancelledMaySendExactly | acton-reactive/src/common/scheduled_send.rs:592-611 | Cancelled while waiting, another message may be sent iff the inbox is open and the armed deadline has been or may be reached by the clock. |
| ScheduledSend.CancelDuringDeliveryArmsNothingExactly | acton-reactive/src/common/scheduled_send.rs:402-412 | Cancelled at any point of a delivery up to its publication, no run arms another tick iff the schedule is a one-shot or its inbox closed before the send had its slot; and no run sends more than the message under way iff it is a one-shot or the inbox has closed. |
| ScheduledSend.ACloseMayComeTooLate | acton-reactive/src/common/scheduled_send.rs:602-631 | A run cancelled and closed before the delivery is published, which arms again all the same, exists for every repeating plan and for no one-shot. |
| ScheduledSend.OneShotPastCancelling | acton-reactive/src/common/scheduled_send.rs:402-412 | A one-shot that has begun delivering settles as delivered or undeliverable, by whether its message was sent, and never as cancelled or abandoned. |
| ScheduledSend.CancelDuringDeliveryMayDeliverAgain | acton-reactive/src/common/scheduled_send.rs:402-412 | A run in which a schedule cancelled in mid-delivery sends that message and one more exists for every repeating plan and for no one-shot. |
| SendPath.SuccessMeansAppendedOnce | acton-reactive/src/message/outbound_envelope.rs:354-413 | A send returned success iff its message was appended, exactly once; after an error, or before it returns, the message is not there. |
| SendPath.OneSendersMessagesStayInOrder | acton-reactive/src/message/outbound_envelope.rs:354-413 | Sends awaited in turn by one sender land in that order, and the inbox never exceeds its capacity. |
| SendPath.AnOpenInboxTakesItsCapacity | acton-reactive/src/message/outbound_envelope.rs:372-403 | Into an open inbox exactly as many sends as its capacity succeed with nobody receiving; the next waits, and gets in once one message is received. |
| SendPath.ClosedInboxFillsOnlyHeldSlots | acton-reactive/src/message/outbound_envelope.rs:372-413 | After an inbox closes, in every run only the slots reserved by then can still be filled. |
| SendPath.CancelledSenderIsSilent | acton-reactive/src/message/outbound_envelope.rs:365-367 | Once a sender's token is cancelled, every send it begins returns `Cancelled` and none of its messages arrives any more. |
| SendPath.ErrorsHaveCauses | acton-reactive/src/message/outbound_envelope.rs:364-409 | In every run each error returned so far has its cause, still standing: `Cancelled` a cancelled token, `ChannelClosed` and `SendFailed` a closed inbox. |
| SendPath.HowAWaitEnds | acton-reactive/src/message/outbound_envelope.rs:387-409 | In every run, a send that had to wait never ends in `ChannelClosed`, and one whose wait does not watch the token is never cut short by it. |
| SendPath.AClosedInboxTellsWhetherItWaited | acton-reactive/src/message/outbound_envelope.rs:324-326 | In every run, a send refused by a closed inbox reports `SendFailed` iff at some point of the run it had to wait, and `ChannelClosed` iff at none. |
| SendPath.BothErrorsHappen | acton-reactive/src/message/outbound_envelope.rs:372-409 | A run ending in each of the two. |
| SendPath.WhatAWaitMayComeTo | acton-reactive/src/message/outbound_envelope.rs:387-409 | A send that waits can always be refused or given up, never as `ChannelClosed`, and can be cancelled iff its wait watches the token. |
| SendPath.RunKeepsInv | acton-reactive/src/message/outbound_envelope.rs:244-283 | Slots, outcomes and inbox contents agree over every interleaving of filling, draining, closing and cancelling. |
| Ask.EachAskGetsItsOwnFirstReply | acton-reactive/src/common/ask.rs:309-359 | Read off the actions of any run of any number of asks: an answer is the first reply anybody sent through a live address that came with that ask, of the type it asked for; an unexpected reply likewise, of another type; `NoReply` and delivery failures mean nobody ever sent one and no address is left. |
| Ask.OneAnswerOnly | acton-reactive/src/common/ask.rs:331-359 | A returned answer is never changed by anything later. |
| Ask.WaitsOnlyOnALiveAddress | acton-reactive/src/common/ask.rs:331-359 | A waiting exchange can finish by itself unless its channel is empty and someone else holds a live address. |
| Ask.KeepingTheEnvelopeHangs | acton-reactive/src/common/ask.rs:331-359 | Without the explicit drop, a request let go of unanswered would wait for ever, short of the deadline. |
| Ask.TheHangIsReachable | acton-reactive/src/common/ask.rs:331-359 | An ordinary run reaches that state. |
| AskDelivery.RefinesTheAskProtocol | acton-reactive/src/common/ask.rs:309-359 | Asks driven by real sends into bounded, closing inboxes are runs of the ask protocol, so all of the above holds of them. |
| AskDelivery.ResultsTellOfTheRequest | acton-reactive/src/common/ask.rs:259-270 | In every run an answer, or `NoReply`, means the request reached the recipient's inbox exactly once; `Undeliverable` that it never did and the inbox is closed; `Cancelled` that it never did and the token is cancelled. |
| AskDelivery.OnlyACancelledTokenCancelsAnAsk | acton-reactive/src/traits/actor_handle_interface.rs:236-248 | An ask is reported cancelled only if somebody cancelled the very token it sends under. |
| AskDelivery.EveryAskCanBeEnded | acton-reactive/src/common/ask.rs:309-327 | From every reachable state the exchange and its deadline can bring any ask that was made to its end, whatever recipient and inbox have done. |
| Handoff.TheVerdictIsTheAnswer | acton-reactive/src/common/actor_handle.rs:562-572 | Read off the actions of any run: the caller returns an answer iff it is the first the supervisor gave with the request in hand, and Lost iff it gave none, then or later; never that the supervisor stopped. |
| Handoff.AnyAnswerGetsThrough | acton-reactive/src/actor/supervision/engine.rs:242-273 | From every reachable state with the request queued, whatever the supervisor chooses to answer can reach the caller, by the answer or by the channel closing behind it. |
| Handoff.LostOnlyToAClosedSupervisor | acton-reactive/src/common/actor_handle.rs:552-572 | While the supervisor's inbox is open every verdict is an answer. |
| Handoff.AnOrderlyStopLosesNothingAccepted | acton-reactive/src/actor/managed_actor/started.rs:729-738 | From every reachable state with the request queued, while nobody cancels the supervisor and it does not crash, its task runs until the request is answered, however it is told to stop, and that answer is what the caller returns. |
| Handoff.CancellingIsWhatLosesARequest | acton-reactive/src/actor/managed_actor/started.rs:715-722 | From every reachable state with the request queued some run with a cancellation returns Lost, where `SupervisorStopped` is documented; from a supervisor not yet cancelled, short of a crash, no run without one does. |
| Handoff.ChildStoppedExactlyWhenCalledFor | acton-reactive/src/common/actor_handle.rs:574-625 | By what the supervisor answered: after a registration not accepted, or unsupervising a child whose handle was given back, the child's task has ended and its inbox is closed; after anything else the caller has sent it no `Terminate`; never two. |
| Handoff.TerminateIsOnItsWay | acton-reactive/src/common/actor_handle.rs:442-455 | While the caller waits for the child to end, its `Terminate` is in the child's inbox or that has closed, however full it was. |
| Handoff.WaitsOnlyWhileTheRequestExists | acton-reactive/src/common/actor_handle.rs:552-560 | A caller can resolve iff its request is answered or no longer exists; otherwise the request is before a supervisor that still runs. |
| Handoff.RunKeepsInv | acton-reactive/src/actor/supervision/engine.rs:242-347 | Stage, request, answer cell and child inbox agree over every interleaving with supervisor and child. |
| RestartLimiter.Limiter.PruneExpired | acton-reactive/src/actor/restart_limiter.rs:313-318 | The list becomes its entries younger than the window, in order. |
| RestartLimiter.Limiter.CanRestart | acton-reactive/src/actor/restart_limiter.rs:191-209 | Allows exactly when limiting is off or fewer than the maximum remain after pruning; the error reports the count and the limits. |
| RestartLimiter.Limiter.RecordRestart | acton-reactive/src/actor/restart_limiter.rs:220-241 | Appends the timestamp, counts it, and waits the whole milliseconds in the smaller of the cap and the first wait multiplied once for each restart in a row before it. |
| RestartLimiter.Limiter.ResetConsecutive | acton-reactive/src/actor/restart_limiter.rs:248-250 | Resets the consecutive count and nothing else. |
| RestartLimiter.KeepsWhatTheWindowHolds | acton-reactive/src/actor/restart_limiter.rs:313-318 | After any calls, the list is the full history inside the window at the last prune, plus everything recorded since. |
| RestartLimiter.DecidesByTheFullHistory | acton-reactive/src/actor/restart_limiter.rs:191-209 | The check allows a restart iff fewer than the maximum of all restarts ever recorded lie in the window. |
| RestartLimiter.RestartsAreSpread | acton-reactive/src/actor/restart_limiter.rs:191-241 | If every restart follows an allowing check, any restart and the one `max_restarts` later are a whole window apart in the full history. |
| RestartLimiter.BackoffGrowsToItsCap | acton-reactive/src/actor/restart_limiter.rs:226-236 | The wait starts at the initial value, never exceeds the cap, and with a multiplier of at least one never shrinks as failures accumulate. |
| RestartLimiter.EachRestartWaitsItsTurn | acton-reactive/src/actor/restart_limiter.rs:220-250 | Over any calls, counted off the call list: the restart after n others since the last reset waits the first wait multiplied n times (up to the 32-bit exponent), capped and rounded down. |
| IpcRegistry.ActorRegistry.Expose | acton-reactive/src/common/actor_runtime.rs:298-309 | Claims a free name; for a live one changes nothing and reports the holder. |
| IpcRegistry.ActorRegistry.Rebind | acton-reactive/src/common/actor_runtime.rs:337-356 | Every name of the child gives the new handle, no other entry changes, and the count is exact. |
| IpcRegistry.ActorRegistry.Forget | acton-reactive/src/common/actor_runtime.rs:368-385 | Exactly the child's names are gone, and the count is exact. |
| IpcRegistry.ActorRegistry.Hide | acton-reactive/src/common/actor_runtime.rs:403-406 | Removes one name and returns what it held. |
| IpcRegistry.ActorRegistry.Lookup | acton-reactive/src/common/actor_runtime.rs:425-427 | Returns the handle of a claimed name, and nothing for a free one. |
| IpcRegistry.CountsAreExact | acton-reactive/src/common/actor_runtime.rs:337-385 | Rebinding keeps the child's set of names, forgetting empties it, and the registry shrinks by exactly the returned count. |
| IpcRegistry.LookupIsTheStandingClaim | acton-reactive/src/common/actor_runtime.rs:298-427 | After any calls a lookup returns a handle iff it is the newest incarnation of the actor whose claim, made while the name was free, nothing has ended. |
| RgbCorrelator.KeystrokeProcessor.HandleKeystroke | acton-reactive/examples/rgb_keyboard/server.rs:166-191 | Counts the keystroke and opens an empty request under its identifier. |
| RgbCorrelator.KeystrokeProcessor.HandleColorResponse | acton-reactive/examples/rgb_keyboard/server.rs:195-248 | Stores a known component of a pending request; the last one missing removes it, counts it and emits its colour; anything else changes nothing. |
| RgbCorrelator.KeystrokeProcessor.HandleCleanup | acton-reactive/examples/rgb_keyboard/server.rs:251-265 | Keeps exactly the requests not past the timeout, and the reported count is the number dropped. |
| RgbCorrelator.EveryKeystrokeIsAccountedFor | acton-reactive/examples/rgb_keyboard/server.rs:140-148 | Keystrokes equal pending plus completed plus expired plus overwritten, and completed equals the number of colours emitted, after any events. |
| RgbCorrelator.FreshIdsOverwriteNothing | acton-reactive/examples/rgb_keyboard/server.rs:170-181 | With distinct identifiers nothing is overwritten, so the first three account for every keystroke. |
| RgbCorrelator.PendingIsWhatIsOpen | acton-reactive/examples/rgb_keyboard/server.rs:166-265 | The table holds exactly the keystrokes still open, each with the latest value received since it for R, G and B, read off the inbox. |
| RgbCorrelator.EmitsExactlyOnCompletion | acton-reactive/examples/rgb_keyboard/server.rs:216-241 | A colour goes out iff an event gives an open keystroke the last of R, G and B it was missing, with that keystroke's character and the latest value of each. |
| RgbCorrelator.ColouredAtMostOnce | acton-reactive/examples/rgb_keyboard/server.rs:216-241 | No keystroke is coloured by two events, and no event colours two keystrokes. |

## Left out

- Progress, fairness and deadlock freedom: the code does not promise them, and with small inboxes the broker and a subscriber can wait on each other. `PipelineCompletion` shows that with room enough no run goes on for ever or stops short, provided only that steps which can be taken are.
- BrokerProtocol: a fan-out send that waits for room takes its slot and fills it in one step. `SendPath` has the two steps apart. A subscriber handle's token may be cancelled in the model, although nothing in the framework does so; the broker handle's own is not modelled, and a subscriber identifier is taken to be its handle's.
- Shutdown: the phases after the stop signals, their timeouts, and the stopping of the broker itself.
- Pipeline: an actor that stops also sends the broker its `RemoveAllSubscriptions`; in the model its inbox closes and its subscriptions stay.
- PipelineResults.OneCorrectReport: additions wrap, as in an unchecked build. A build with overflow checks aborts the handler instead, and then no report is sent. Terminal output is not modelled.
- ScheduledSend: dropping the runtime under a timer; `Settle` stands for every outcome, and the text of an undeliverable outcome is not kept. A message counts as sent when its slot is taken.
- ScheduledSend.NeverFasterThanTheInterval: holds while the clock is at least one interval short of the last instant; past that, see `CoalescesExactlyWhenArmingTheFuture` for what fails.
- Ask: the 30-second deadline is a step that may happen at any time. Type erasure is a type tag on the reply.
- Handoff: starting the child before the request is sent, and the supervisor's own slot table. The answer is any the supervisor may give. A restart of the child between two steps is not modelled.
- AskDelivery: a deadline drops an ask only while its send waits for room or after delivery, the points at which the exchange can be suspended.
- RestartLimiter.BackoffGrowsToItsCap: the formula is over the reals, without rounding, infinities and NaNs, so `RecordRestart` returns its wait as a ghost value. Cloning and defaults are not modelled.
- IpcRegistry: two concurrent claims of a name, between the check and the insertion. Each call is one step.
- RgbCorrelator: identifiers are parameters, and the two counters are unbounded rather than 64-bit. The broadcasts themselves are the returned values.
- IPC sockets, wire framing, serialisation and forwarding to IPC clients: input and output.
- The actor wake loop and the restart engine, beyond the assumptions above.
- Config loading, tracing, macros, the command line, display text and builders: easy members only.
