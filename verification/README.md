# kinby: the event log and what must agree with it

Almost everything a kinby instance shows is computed again from its append-only event log: by a fold over the
whole log, by a read of part of it, by a projection onto a few event types, or by a live stream. Each fast
form has a simple counterpart, and this project proves that the two agree, together with the protocols that
feed the log and read it. To verify the project with Dafny 4.11: `dafny verify dfyconfig.toml`. Nothing here
runs the instance.

## How the model is laid out

- `Events.dfy` has the events, and each bounded read of the log as the filter it states.
- `Pricing.dfy`, `Memory.dfy`, `Metrics.dfy`, `MetricsWindow.dfy`: the metrics fold over open and closed turns,
  as one pass over the events proved against a recursive fold, and the window of events a time range reads.
  `Gathered.dfy`, `GatheredResults.dfy` and `ClosedTurns.dfy` tell a record from its turn's own events.
  `WindowProof.dfy`, `WindowSimulation.dfy`, `WindowTheorem.dfy` and `WindowReport.dfy` prove that the window
  reports what the whole log does; `Recaps.dfy` what a record counts after any number of recaps; `Usage.dfy`
  the token totals per thread; `Budgets.dfy`, `BudgetTheorem.dfy` and `DailySpend.dfy` the daily cost.
- `Delivery.dfy`, `DeliveryTheorem.dfy` and `DeliveryBounds.dfy`: the delivery protocol as a state machine over every interleaving of
  appends, server steps, losses, reconnects and late frames. `EventStore.dfy` has the classes that take its
  steps: the log with its heads and subscribers, a stream, and both ends of a subscription.
- `Gate.dfy`, `ToolNode.dfy`, `ToolReplay.dfy`, `ToolOnce.dfy`, `ToolResults.dfy`: the node that decides and runs a
  message's tool calls, run again from its start after each answer, and what it stores of them.
- `HeldResults.dfy`: the step results held for factory runs.
- `RoutineHistory.dfy`, `RoutineReads.dfy`, `RoutineRuns.dfy`, `FailurePolicy.dfy`, `FailurePolicyTheorem.dfy`,
  `FailureNotices.dfy`, `Deliveries.dfy`: routine firings, the failure policy, and the deliveries that wait.
- `Threads.dfy`, `ThreadsTheorem.dfy` and `ThreadSummaries.dfy`: the thread list, its pages and what its lines say.
- `ViewSpec.dfy`: the cycle search of a view's layout. `Stats.dfy`, `StatsTheorem.dfy` and `StatsColumns.dfy`:
  buckets and totals.
  `OwnTokens.dfy`: the running totals of coding sessions.

A fold or a decision is stated once as a function, and what it means is stated beside it from the events or the
inputs alone, in its own terms: `ClosedTurns`, `DailySpend`, `RoutineRuns`, `ThreadSummaries` and `StatsColumns`
hold such readings, and each is proved to be what the function gives.

Times are whole microseconds, ids are numbers, costs are reals, and token counts are integers.

## What a log is assumed to be

Each theorem names, in its `requires`, the assumptions it needs of the log and no others.

- `Monotone`: timestamps do not decrease in append order.
- `ClosesOnce`, `StartsOnce`: a turn closes, and starts, at most once.
- `OneThreadEach`: a turn id belongs to one thread.
- `RunsApart`: no turn closes on the thread of a factory run that stops. A run's events are stored under its id,
  which is no turn's thread.
- `ParksBeforeClosing`: a turn parks before it closes.
- `Numbered`: a thread's events are numbered from one. `EventStore.EventLog.Append` keeps this.
- `UniqueIds`: the ids of the model's tool calls are distinct, within a message and across the messages of a turn.
- A delivery takes a turn id of its own, and no other work starts that turn (`IsNewTurn`, `IsOther`).
- One failure pass runs at a time, as the scheduler's lock has it. Anything else may happen between its steps.

The metrics window needs neither that a turn starts once nor that its id belongs to one thread.

## Where the code does not do what is said of it

- **Held step results.** The class promises to run a step call once per attempt until the run's next different
  call. It compares calls, not the tasks that run them. When a run is sent A, then B, then A again while the
  first task of A still runs, two tasks of A return, with answers that may differ (`HeldResults.ASecondResult`).
  `HeldResults.AtMostOneResult` gives the exact condition: at most one result, whatever follows, if and only if
  no task of the same call is still running when the call starts.
- **Approvals replayed after a change of policy.** A resume loads the policy, the mode and the tools anew, and
  the stored answers go in order to whatever asks then. When an earlier call of the message asks no more, its
  answer goes to a later call, which then runs on an answer given for another (`ToolReplay.AnAnswerMoves`).
  `ToolReplay.AnswersStayWithTheirCalls` gives the exact condition: every answer stays with its call if and only
  if every call up to the one that waits is asked in the new context what it was asked in the old. With nothing
  changed in between, `ToolReplay.RerunIsOnline` needs no condition.
- **Late frames.** The client handles the frames of a socket it has given up on. Events that come late are
  harmless, as `DeliveryTheorem.DeliversInOrder` proves. A late error or end frame does close the subscription,
  though the newer socket streams (`DeliveryTheorem.ALateErrorCloses`). `DeliveryTheorem.StaysOpen` gives the
  exact condition: after any run the subscription is open if and only if it was not cancelled and no error or
  end frame was received for it, on any socket it was ever sent on. The run needs a `Transport` that delivers a
  message after its close. The browser's own socket (`packages/contract/src/client.ts:140-151`) delivers none,
  and the timer that gives up on a socket before its close does so only before anything was sent on it.
- **Bash patterns and stricter modes.** The decision records say that the deny patterns are enforced even in
  full access (`docs/adr/0014-gate-policy-is-per-tool-rules-under-mode-presets.md:5`), and that they always apply
  and are enforced in every mode (`docs/adr/0069-shipped-bash-deny-patterns-always-apply.md:3`). The gate does
  not look for them in read-only mode. With a policy rule that allows `bash`, `git reset --hard` runs in read-only
  mode and is denied in every other (`Gate.ReadOnlyRunsADeniedCommand`). `Gate.StricterModeIsStricter` gives the exact condition: a stricter
  mode decides no more leniently if and only if it is not read-only mode letting through a bash command that a
  pattern would stop more severely than the rule or the preset that decides there.

## Model

| member | source | states |
|---|---|---|
| Pricing.TokenCostAdds | src/kinby/core/pricing.py:67-81 | priced at one model, two token counts cost together what their sum costs |
| Pricing.CacheAtInputRate | src/kinby/core/pricing.py:67-90 | a model with no cache rates of its own charges cached input as any other |
| Pricing.ColumnsCostTheirRates | src/kinby/core/pricing.py:67-90 | at any price, each token of uncached input, output, cache reads and cache writes costs its own rate per million, a cache column at the input rate where it has none |
| Pricing.CostByColumns | src/kinby/core/pricing.py:67-81 | every token count costs what its four columns cost, so those rates fix the cost |
| Pricing.CarriedCostsAsCacheReads | src/kinby/core/pricing.py:84-90 | tokens read again from memory cost as many cache reads |
| Memory.CountMemory | src/kinby/core/turn_metrics.py:438-457 | one pass over each model call and the next computes the memory tokens, their carried tokens and cost |
| Memory.CarriedIsReadAgain | src/kinby/core/turn_metrics.py:438-457 | carried tokens, counted forwards from each step, are the sum over the model calls of the memory tokens already in their context |
| Memory.MemoryWithinGrowth | src/kinby/core/turn_metrics.py:438-468 | when no step shrinks, memory tokens are at most the last input less the first input and every output but the last |
| Memory.ShareIsAFraction | src/kinby/core/turn_metrics.py:460-468 | memory's share of a step lies between none and all of it |
| Memory.ShareIsOfTheCharacters | src/kinby/core/turn_metrics.py:460-468 | memory's share is none without its four tools' results, all with no others, and else its part of the characters |
| Memory.OneMoreCall | src/kinby/core/turn_metrics.py:438-457 | one more model call adds memory's share of what the input grew by, and reads again all memory added before; a smaller input adds nothing and makes an estimate |
| Metrics.TakeEvent | src/kinby/core/turn_metrics.py:238-407 | one event updates the variables of the pass as the fold's step does |
| Metrics.TurnMetrics | src/kinby/core/turn_metrics.py:219-425 | the single pass over the events, updating open turns and records in place, computes the fold |
| Metrics.FoldPlaced | src/kinby/core/turn_metrics.py:308-408 | over every log, a closed turn is at the place of a record of its own, and each profile to size is at one record |
| Gathered.RecordTellsItsTurn | src/kinby/core/turn_metrics.py:241-381 | a closed turn's record tells from its own events since its start: calls, calls of memory's tools, approvals, denials, delegated runs, reads, writes and what came before the first write |
| GatheredResults.RecordTellsItsResults | src/kinby/core/turn_metrics.py:241-381 | and the time of reads and writes, the paths opened and reopened, the nodes recalled, what memory added to the model calls, and what its start said |
| GatheredResults.CallsNext | src/kinby/core/turn_metrics.py:257-289 | a result goes to the model call before it, so each call has the results that came back before the next |
| Gathered.MismatchIsOfTheCalls | src/kinby/core/turn_metrics.py:308-333 | a closing is warned of exactly when its turn called the model, worked, and closed with other totals than its calls reported |
| ClosedTurns.ClosingSays | src/kinby/core/turn_metrics.py:308-375 | each closing adds one record, which says as what the turn closed, with which totals, at which model and at what cost, and changes no other |
| ClosedTurns.RatingIsTheLast | src/kinby/core/turn_metrics.py:382-410 | a turn's record has the last rating since it closed |
| ClosedTurns.UnpricedAreLeft | src/kinby/core/turn_metrics.py:335-395 | a turn's unpriced models are exactly those its closings with work, and its recaps after them, ran at without a price |
| ClosedTurns.OutsideIsTold | src/kinby/core/turn_metrics.py:291-387 | the runs, recalls and recaps of factory runs are those reported outside any turn, in order, a recap only after its run stopped |
| ClosedTurns.ClosingIsProfiled | src/kinby/core/turn_metrics.py:376-377 | a closing has its profile sized exactly when its turn called the model under a profile |
| ClosedTurns.SizedOnce | src/kinby/core/turn_metrics.py:412-416 | a reported record is the booked one with its profile's tokens added once, or an estimate when the profile was never counted |
| MetricsWindow.ReadEarlierTurns | src/kinby/core/turn_metrics.py:203-212 | the turns that began before the range are those with a joined event and no start before it, each once |
| MetricsWindow.ReadMetricsEvents | src/kinby/core/turn_metrics.py:192-216 | the read of a range yields the state counted before it, the earlier events of the turns that began before it, and the events since |
| WindowProof.OpenIsLocal | src/kinby/core/turn_metrics.py:219-307 | an open turn has gathered what its own events alone give |
| WindowProof.ReplaysOwn | src/kinby/core/turn_metrics.py:203-216 | the replayed events of a turn are exactly its own from before the range, in order, once |
| WindowReport.WindowReports | src/kinby/core/dispatcher.py:263-317 | for every well-formed log and range, the records, runs, step runs, recaps, recalls, unpriced models and warnings folded from the window are those of the whole log, in order |
| MetricsWindow.ReportHolds | src/kinby/core/dispatcher.py:263-317 | a range reports exactly the records that closed in it, the runs, recaps and recalls of its moments, and the warnings of its turns, both ends included |
| Usage.CountUsage | src/kinby/core/usage.py:36-74 | one pass files each completed turn of the range under its thread, threads in order of their first |
| Usage.WindowCounts | src/kinby/core/dispatcher.py:257-266 | a range's usage read from the window is the whole log's |
| Usage.UsageAddsUp | src/kinby/core/usage.py:62-74 | the threads' totals add up to the tokens of the turns counted |
| Usage.UsageHoldsCompleted | src/kinby/core/usage.py:36-74 | a range's usage has a thread for each in which a turn completed, in the order of the first, with exactly those turns and their tokens |
| Recaps.RecordCounts | src/kinby/core/turn_metrics.py:339-408 | however many recaps arrive, a record holds its closing's totals plus the last recap's, and their costs, or an unknown cost if either is unpriced |
| Recaps.CostOfShownTokens | src/kinby/core/turn_metrics.py:374-408 | with the recap at the turn's own model, the cost is that of the tokens the record shows |
| BudgetTheorem.ClosedOnCosts | src/kinby/core/turn_runner.py:494-508 | a day's cost and unpriced models from the bounded read are those of the whole log |
| DailySpend.DailyCostIsSpent | src/kinby/core/budgets.py:43-62 | over every log, a day's cost is the sum over the day's closings of the turn's priced cost with its last recap, and its unpriced models are exactly those left by the turns that closed on it |
| DailySpend.BoundedReadIsSpent | src/kinby/core/turn_runner.py:494-508 | the bounded read gives that sum and those models of the whole log |
| EventStore.EventLog.Append | src/kinby/core/events.py:148-196 | an append stores the thread's next sequence, its head and any waiting body, reaches that thread's subscribers and no others, and does nothing when a body already waits for the turn |
| EventStore.EventLog.Subscribe | src/kinby/core/events.py:198-217 | the replay, the head and the live queue are taken together |
| EventStore.EventLog.Drop | src/kinby/core/events.py:236-242 | a subscriber leaves its thread and no other |
| EventStore.StoredConsistent | src/kinby/core/events.py:156-188 | appends keep every thread numbered from one and every head that of its last event |
| EventStore.Stream.Pull | src/kinby/core/events.py:219-234 | a stream yields its replay, then the live events past what was asked |
| EventStore.ServerSubscription.FillOne | src/kinby/core/contract_server.py:280-291 | reading one event ahead of the socket; a full buffer ends the stream |
| EventStore.ServerSubscription.DrainOne | src/kinby/core/contract_server.py:251-264 | sending what was read ahead; an overflow sends an error and the end |
| EventStore.ClientSubscription.Handle | packages/contract/src/client.ts:216-236 | a frame delivers an event not delivered yet, or ends the subscription |
| EventStore.ClientSubscription.ReadNext | packages/contract/src/client.ts:371-390 | the reader takes what was delivered, in order, and then meets the error, the end, or waits |
| Delivery.NextIsFirst | src/kinby/core/events.py:219-234 | what a stream yields is the first of what it has outstanding, and nothing is lost |
| DeliveryTheorem.AnswerSound | packages/contract/src/client.ts:305-315 | a frame from any socket, late or not, is the next event, one delivered already, or no event |
| DeliveryTheorem.AdvanceInvariant | src/kinby/core/contract_server.py:231-291 | every step of the log, the server, the sockets and the client keeps each connection's events a run that begins no later than the next to deliver |
| DeliveryTheorem.DeliversInOrder | packages/contract/src/client.ts:210-261 | in every reachable state the events delivered are those past what was asked, from the first on, without gap, repeat or reorder |
| DeliveryTheorem.DeliversAll | src/kinby/core/events.py:198-234 | with a stream open and nothing on its way, every event past what was asked was delivered |
| DeliveryTheorem.CatchesUp | packages/contract/src/client.ts:238-261 | from every reachable state with the subscription open, a new socket can bring all that is missing |
| DeliveryTheorem.StaysOpen | packages/contract/src/client.ts:216-236 | a subscription is open if and only if it was not cancelled and received no error or end frame, from any socket |
| DeliveryTheorem.ALateErrorCloses | packages/contract/src/client.ts:268-271 | a run in which an error from a socket given up on closes a subscription whose newer socket streams |
| DeliveryBounds.ReadAheadIsBounded | src/kinby/core/contract_server.py:280-291 | over every run the server reads at most 1,024 events ahead of a client |
| DeliveryBounds.OverflowsAtTheLimit | src/kinby/core/contract_server.py:280-291 | a stream is given up exactly when a client holds 1,024 unread and another is there, and else the first outstanding event is read |
| DeliveryBounds.ReaderMeetsTheEnd | packages/contract/src/client.ts:216-236 | a reader that has read all meets an error exactly when an error frame ended the subscription, which was not cancelled since, and waits exactly while it is open |
| Gate.GrantOnlyAllows | src/kinby/core/gate.py:100-103 | a routine grant changes a decision only to allow, and none in read-only mode |
| Gate.ReadOnlyNeverAsks | src/kinby/core/gate.py:68-130 | read-only mode denies what a tool's own rule covers, follows a policy rule that names the tool, and else runs exactly the reads, an authored tool marked read-only among them, and asks nothing |
| Gate.StricterModeIsStricter | src/kinby/core/gate.py:21-130 | a stricter mode decides no more leniently, except exactly where read-only mode lets through a bash command a pattern would stop |
| Gate.ReadOnlyRunsADeniedCommand | src/kinby/core/gate.py:84-97 | a command denied in every mode but read-only, where a policy rule for bash lets it run |
| Gate.OtherModesDecide | src/kinby/core/gate.py:68-130 | outside read-only mode a call is decided by its tool's own rule, then a pattern, the policy's rule, a grant; of what is left reads run, writes run in full access, inside the workspace in auto, and as shell reads in ask and auto, and else it asks |
| Gate.RuleSaysWhy | src/kinby/core/gate.py:68-130 | the rule a decision names is one that holds of the call, a pattern's place being the first found |
| ToolNode.ToolRunner.CallTools | src/kinby/core/turn_runner.py:1089-1239 | the loop decides calls up to the first that waits, and runs them only when none does; a denied call's result names who denied it, by what rule and why |
| ToolNode.ToolRunner.EmitToolCallOnce | src/kinby/core/turn_runner.py:1241-1251 | a call already remembered is not stored again |
| ToolNode.ToolRunner.RestoreEmittedToolCalls | src/kinby/core/turn_runner.py:1253-1263 | a process that remembers none of the turn's calls takes them from its log |
| ToolReplay.RerunIsOnline | src/kinby/core/turn_runner.py:1097-1190 | stopping at each ask and running again asks the same of the same calls, decides every call alike and ends as one online pass |
| ToolReplay.GrantsApplyToLaterCalls | src/kinby/core/turn_runner.py:1121-1190 | each call is decided, its rule, whether it runs and who decided, as the gate and its own answer say under the grants and read-only marks of every answer before it in the message |
| ToolReplay.AnswersStayWithTheirCalls | src/kinby/core/turns.py:834-857 | with what is loaded changed at a resume, the answers stay with their calls if and only if the same questions are asked up to the call that waits |
| ToolReplay.AnAnswerMoves | src/kinby/core/turn_runner.py:353-358 | a message of two writing tools for which a changed policy runs the second on the answer given for the first |
| ToolOnce.ParkedStoresCalls | src/kinby/core/turn_runner.py:1097-1190 | while a message of a turn waits, what the earlier messages stored is followed by a beginning of its calls, each once, and no gate or result |
| ToolOnce.StoresEachOnce | src/kinby/core/turn_runner.py:1089-1266 | over any number of messages, parks, resumes and restarts of a turn, its log is message by message each call once, then each call's gate and result in call order |
| ToolResults.ResultsFollowGates | src/kinby/core/turn_runner.py:1192-1231 | whatever a run stores, a result follows each gate and stands nowhere else: a denial with the gate's decider, rule and reason if and only if it denied the call, and the tool's own output if and only if it let it through to a tool that is there |
| ToolResults.TurnResultsFollowGates | src/kinby/core/turn_runner.py:1192-1266 | so it is in the log of a whole turn, over messages, parks, resumes and restarts |
| ToolResults.GatesTellDecisions | src/kinby/core/turn_runner.py:1102-1190 | each call's gate entry, in call order, has its id, its name and what was decided of it, by what rule, by whom and why |
| ToolResults.WaitsForItsCall | src/kinby/core/turn_runner.py:1132-1170 | a run waits at the first call not decided, asking for a takeover with its reason, or for an approval under the gate's rule |
| HeldResults.HeldStepResults.Answer | src/kinby/core/held_results.py:39-62 | a send waits for the task that runs the call, is answered from disk, or starts the call |
| HeldResults.HeldStepResults.EndTask | src/kinby/core/held_results.py:64-88 | a result is held, and an exception lets go, only while the call is the latest |
| HeldResults.AnswersAreBacked | src/kinby/core/held_results.py:39-88 | over every interleaving, each answer is a result of the same step and attempt, or the restart failure of one that was cut off |
| HeldResults.AtMostOneResult | src/kinby/core/held_results.py:42-88 | an attempt runs to at most one result until the next different call if and only if no task of it was left running when it started |
| HeldResults.OneAnswer | src/kinby/core/held_results.py:42-62 | so started, all the call's answers are the same |
| HeldResults.CutIsNotStartedAgain | src/kinby/core/held_results.py:56-58 | a call cut off by a restart is not started again, and each send of it is answered with the restart failure |
| HeldResults.ASecondResult | src/kinby/core/held_results.py:84-92 | the sends for which one attempt has two results |
| HeldResults.LetGoStartsAnew | src/kinby/core/held_results.py:44-62 | a call that is no attempt lets go of what was held, so the next call starts a task unless it still runs |
| RoutineHistory.RoutineHistoryOf | src/kinby/core/routine_history.py:75-161 | the loop over the events, changing histories and runs in place, computes the fold and its unhandled failures |
| RoutineReads.RoutineEventsTell | src/kinby/core/routine_history.py:32-44 | folding the routine events alone gives the whole log's histories and failures, but for first lines and with receipts renumbered |
| RoutineReads.RankKeepsOrder | src/kinby/core/routine_history.py:83-103 | the renumbering keeps the order of receipt |
| RoutineReads.SameDeliveryStarts | src/kinby/core/scheduler.py:372-384 | so the delivery that starts next is the same |
| RoutineReads.LastRunFromItsTurn | src/kinby/core/scheduler.py:266-276 | a routine's last run, first line included, is what its own turn's events give |
| RoutineRuns.RunIsTold | src/kinby/core/routine_history.py:117-157 | each run is of the routine whose start fired it, has the outcome of the closing it ended with or is parked or open before, and keeps the first line of the model's words since the last tool call |
| RoutineRuns.FailuresAndClearings | src/kinby/core/routine_history.py:106-153 | a firing fails exactly when a run that has not ended does, and a routine's failures are cleared exactly by a reset of it or a run of it that has not ended completing with work |
| RoutineRuns.HistoryIsTold | src/kinby/core/routine_history.py:99-153 | a routine's notices are those its failures were first marked with, in order, and its last failure is the last failed firing's reason |
| RoutineRuns.PendingIsTold | src/kinby/core/routine_history.py:83-98 | a delivery that waits says what its arrival does |
| RoutineRuns.FailuresRise | src/kinby/core/routine_history.py:146-161 | a routine's failures are listed in the order they came |
| FailurePolicy.CountIsFailedSince | src/kinby/core/routine_history.py:113-153 | a failure count is the number of failed firings since the last working completion or reset |
| FailurePolicy.Scheduler.HandleFailures | src/kinby/core/scheduler.py:450-499 | the loop over the failures read is the run that handles each, turning off a routine and clearing its grants where it must, raises a notification beside each notice where notifications are raised at that moment, and ends the pass |
| FailurePolicy.RunGoesOn | src/kinby/core/scheduler.py:441-499 | such a pass, from a run, is a run, so what holds over every run holds after it |
| FailurePolicyTheorem.PassHandles | src/kinby/core/scheduler.py:450-499 | from any reachable state in which failures were read, a pass left alone ends with every one of them marked |
| FailurePolicyTheorem.FailuresAreFailedSince | src/kinby/core/routine_history.py:113-161 | the failures of the fold are the failed firings since their routine's last working completion or reset |
| FailurePolicyTheorem.PassHandlesAllItRead | src/kinby/core/scheduler.py:450-499 | a pass at its end leaves no failure it read unhandled, whatever was stored meanwhile |
| FailurePolicyTheorem.MarkersAreLawful | src/kinby/core/scheduler.py:441-499 | no failed firing is marked twice, and between two notices that turn a routine off there is a reset or a working completion |
| FailurePolicyTheorem.TurnedOffAfterTen | src/kinby/core/scheduler.py:455-470 | a routine is turned off only by a firing that failed as at least the tenth in a row |
| FailureNotices.TenthTurnsOff | src/kinby/core/scheduler.py:455-499 | in every reachable state, handling a failure turns its routine off, its file and grants with it, if and only if the firing was at least the tenth to fail in a row and the routine is on in the files loaded; else it is noticed if and only if it was the first |
| FailureNotices.PassTurnsOff | src/kinby/core/scheduler.py:450-499 | a pass left alone turns off exactly the routines on in its files with such a failure among those it read, and changes no other |
| FailureNotices.ResetsAreDue | src/kinby/core/scheduler.py:441-448 | a pass resets exactly the routines on in the files that a marker turned off with nothing clearing it since |
| FailureNotices.PassReadsTheUnmarked | src/kinby/core/scheduler.py:450-455 | a pass reads exactly the failed firings in a row that no marker is of |
| Deliveries.Deliverer.ReceiveDelivery | src/kinby/core/scheduler.py:187-211 | an arrival is stored with its body, or answered with the one stored before |
| Deliveries.Deliverer.StartDelivery | src/kinby/core/scheduler.py:326-336 | a start stores the turn's first event, under the delivery's id and for a signal, and drops the body; a refused start keeps it |
| Deliveries.QueuedIsPending | src/kinby/core/scheduler.py:374-384 | a queued delivery can always be found to start |
| Deliveries.FoldWaits | src/kinby/core/routine_history.py:91-120 | over every log, a queued delivery waits once, in its own routine's history and no other |
| Deliveries.WaitsOrStarted | src/kinby/core/scheduler.py:187-211 | in every reachable state an accepted delivery waits or has started, never both and never neither, and one that waits has its body |
| Deliveries.StoredOnce | src/kinby/core/scheduler.py:326-336 | a delivery starts at most once, and a routine has one arrival under a delivery id |
| Deliveries.RepeatsReturnTheArrival | src/kinby/core/events.py:90-100 | a repeated delivery returns its first arrival and changes nothing |
| Deliveries.ArrivalIsStored | src/kinby/core/scheduler.py:187-211 | a new arrival is stored as it came, and its body kept for its turn |
| Deliveries.StartsWhatArrived | src/kinby/core/scheduler.py:326-336 | in every reachable state, a delivery that waits can start, and its turn's first event is of its arrival's routine and id |
| Threads.EventsByThread | src/kinby/core/threads.py:166-174 | the loop files each event under its thread, leaving out threads not asked for |
| Threads.ThreadList | src/kinby/core/threads.py:177-209 | the list from the summary events, with the threads that may be parked read whole |
| ThreadsTheorem.UnparkedIsKept | src/kinby/core/threads.py:340-357 | a thread that is not read whole is parked on nothing, by all its events and by its summary events |
| ThreadsTheorem.ListsWhatTheLogGives | src/kinby/core/threads.py:177-209 | for every command, that list is the one every event of every thread gives |
| ThreadsTheorem.LastActivityIsLastEvent | src/kinby/core/events.py:83-88 | a thread's last activity, read from its head, is its last event's time |
| ThreadSummaries.StatusIsTold | src/kinby/core/threads.py:291-318 | a thread has each of the six statuses exactly when its events say so: the wait it stands at, and else how the turn started last first closed and the options it left |
| ThreadSummaries.ModeIsTold | src/kinby/core/threads.py:238-288 | a thread runs in the mode it pinned last or the policy's, and never in one freer than the ceiling |
| ThreadSummaries.OriginIsTold | src/kinby/core/threads.py:261-273 | its origin is that of the first turn or delivery, or the user's |
| ThreadSummaries.SummaryIsTold | src/kinby/core/threads.py:238-258 | a summary says what its thread's record and events do, and nothing else does |
| ThreadSummaries.ListHoldsWhatBelongs | src/kinby/core/threads.py:177-235 | a whole list holds exactly the lines of the threads that belong in it: in the sidebar all that waits on the user, and of what is not archived the user's own, those failed or waiting for a reply, and those a user started a turn in |
| ThreadsTheorem.SortedIsOrdered | src/kinby/core/threads.py:204-214 | the list is a reordering of what it lists, the most recently active first |
| ThreadsTheorem.CursorsVisitTheList | src/kinby/core/threads.py:200-209 | following cursors with any positive limits visits the unpaged list, each thread once and in order |
| ViewSpec.Search.Visit | src/kinby/contracts/models.py:3992-4002 | a visit finishes a component and all it leads to, or returns a real cycle; it ends on every graph |
| ViewSpec.FindCycle | src/kinby/contracts/models.py:3988-4004 | no cycle is found if and only if there is none, and one found is a path of real edges back to its start |
| ViewSpec.Check | src/kinby/contracts/models.py:3950-3969 | a layout is accepted if and only if its ids are distinct, one is the root, every component named exists and none contains itself |
| ViewSpec.RankedIsAcyclic | src/kinby/contracts/models.py:3988-4004 | components that rank above what they name contain no cycle |
| ViewSpec.RenderIsOne | src/kinby/contracts/models.py:3944-3969 | an accepted layout renders, ending, to one tree, whatever the rank |
| ViewSpec.EdgesAreNames | src/kinby/contracts/models.py:3972-3985 | the graph's edges are exactly what the components name: a template, children, or cells |
| Stats.StatsBuckets | src/kinby/core/stats.py:179-193 | the loops over turns and runs file each in its bucket |
| Stats.StatsSummary | src/kinby/core/stats.py:196-203 | the loops over turns and runs add each to the total, chat always having a row |
| Stats.WeekStartsOnMonday | src/kinby/core/stats.py:305-310 | a week's bucket is the one Monday within the seven days up to the moment's own |
| StatsTheorem.BucketsAddUpToTheTotal | src/kinby/core/stats.py:107-203 | in either bucket size, the buckets add up to the total in every column, costs and origin rows included |
| StatsTheorem.RowsAddUpToTheClosings | src/kinby/core/stats.py:107-160 | the origin rows' turns with and without work are as many as the closings, and their failures, cost and runs the total's |
| StatsTheorem.EveryTurnIsCounted | src/kinby/core/stats.py:107-123 | the closings of all kinds are as many as the turns |
| StatsTheorem.TotalCountsItsTurns | src/kinby/core/stats.py:107-151 | each count of the total, and each origin row's turns with and without work, is the number of turns it is named for |
| StatsColumns.TotalSumsItsTurns | src/kinby/core/stats.py:107-176 | each column of the total is the sum over its turns, costs of what is known, and the runs are the subscriptions' runs, in all and in each row |
| StatsColumns.BucketHoldsItsOwn | src/kinby/core/stats.py:179-193 | a bucket holds exactly the turns that closed in its day or week and the subscription runs reported in it, and there is one for each that has any |
| OwnTokens.RunReachesItsReading | src/kinby/core/coding_clients.py:222-236 | whatever was recorded before, a run raises its session's sum to its own reading and never lowers it |
| OwnTokens.RecordedIsHighestRead | src/kinby/core/steps.py:152-173 | the tokens recorded for a session add up, per column, to the highest running total yet read, whatever order readings rise or fall in |
| OwnTokens.HighestIsLeastAbove | src/kinby/core/coding_clients.py:222-236 | that highest total is, per column, the least that holds nothing and every reading of the session |
| OwnTokens.WithoutSessionAsRead | src/kinby/core/coding_clients.py:229-230 | a run of no session is recorded as read, and any other with only its tokens changed |

## Left out

- SQLite, JSON and pydantic: the log is a sequence and each query the filter it states; a failed transaction appears only where a body already waits for a turn.
- Sockets, HTTP, authentication, the hub's relay and the framing of text: only frames and connection steps are kept, and frames of other calls and subscriptions are absent.
- The completed end of a stream: a thread's live stream never ends by itself, so only overflow, refusal and a lost socket end one here.
- What a cancel does on the server: the client ignores every frame after it, and the server's side goes on unobserved.
- LangGraph and checkpoints: an interrupt returns the next stored answer or stops the node, and a tool is any function from a call to its output.
- Approval previews, the wording of a denial, and the events a tool stores while it runs.
- The code that wakes a turn is not part of this model: a start it refuses is a start that stores nothing.
- Payload fields that no modelled reader looks at.
- Regular expressions, shell reads and workspace paths: the gate takes them as any predicates.
- A call's argument parsing and the ids derived by hashing: a derived id is a value of its place, distinct from any id a model gave.
- Other turns' tool calls in the set of remembered calls: the set is kept per turn, as its keys are.
- Held results are kept per run by value, without the file's temporary copy: replacing it is one step.
- `recorded_change` keeps a history of configuration files, and a notice's message and a notification's text are words: neither is modelled.
- Cron schedules, arming, catch-up and time zones: of a tick only the choice among waiting deliveries is modelled.
- Prices are any table; a price's own validity, and the shipped table, are not part of this model.
- Sorted lists of names, such as unpriced models, are sets, and the runs of a bucket a multiset: their order is not modelled.
- Mean navigation figures, per-source use, plan windows and limits are computed from the modelled totals by formulas of one line.
- `run_tokens`: the same additions by factory run, which would add only easy members.
- Python's recursion limit, which a view of very deep nesting would meet before the search ends.
- Floating point: costs and memory tokens are exact.
