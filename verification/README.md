# Sonata's delivery engine, verified

Sonata is a local daemon that moves messages between queues. An action subscribes to queues; a message appended to a
queue gets one delivery per subscribed action; a single scheduler goroutine claims deliveries, runs each as a child
process, and turns the lines it prints into new messages. Everything durable is in three tables: messages, versioned
actions and deliveries. Everything else (the busy counter, the in-flight counts, the nudge slot, the retry timer) has to
be rebuilt or kept in step while request handlers, workers, the idle tracker and crashes interleave.

This project models that engine twice and connects the two.

- **As a state machine** (`Tables`, `Engine`). Every write transaction is a function of the whole database; every event
  is one atomic step of the scheduler, a worker, a handler, the idle tracker or the daemon's life. `Run` takes any list
  of events from the empty database, and an event that is not enabled changes nothing, so a statement about `Run` is a
  statement about every interleaving, crashes included. The results over whole runs are in `Ownership`, `Transitions`,
  `Outcomes`, `Outbox`, `Recovery`, `Attempts`, `Busy`, `Wakeup`, `Dispatching`, `Drain`, `Fanout`, `Disabling` and
  `Order`. `Columns` says column by column what each statement is to do to a row.
- **In place** (`Database`, `Scheduler`, `Daemon`). Classes whose methods update their fields the way the program does,
  loops included. Each method of the store leaves in its tables the corresponding function of what it found. Each
  method of the scheduler and of the server appends the events it stands for to a ghost log, and `Valid()` says that
  its fields are those of the engine after that log; so what is proved of every run holds of this code.

Beside them stand the small cores it rests on: the retry delay (`Backoff`), timestamps compared as text (`Stamps`),
UUIDv7 generation (`Ids`), bounded output buffers and the NDJSON splitter (`Streams`), the stamping of the hops header
(`Stamping`), and definition checks (`Workflow`). `Text`, `Digits`, `Sums`, `Integrity` and `Frames` support the proofs.

Parameters: the filter language is a function of action, version and message; JSON validity is a predicate on bytes;
clock readings, random bytes, process outcomes and which database operations fail are arbitrary.

`dafny verify dfyconfig.toml` checks everything.

## Findings

Where the code keeps less than its comments or documents promise. Each has a concrete input, and a condition: the exact
one, unless the line says that it is only sufficient.

- **Dispatch can be kept going.** `internal/scheduler/scheduler.go:269-271` goes on to "the next delivery" when `vet`
  returns false. A resolve whose write failed leaves the delivery where it was, so it is picked again at once, with no
  pause (`cancelSuperseded` guards against exactly this at line 362): `Witnesses.DispatchCanSpin` is a run into such a
  state, and `Dispatching.SpinsForever` returns to it any number of times. And a delivery committed during the pass is
  picked by the same pass, so messages that keep coming and are settled keep it going with no write failing:
  `Witnesses.IngressCanProlong` and `Dispatching.IngressProlongs`. Meanwhile results, nudges, disables and the timer
  wait. `Dispatching.DispatchIsBounded` shows, whatever workers, handlers and the tracker do meanwhile, that nothing else
  can prolong a pass: it ends if and only if only finitely many resolves fail in it and only finitely many rows are
  sent in or replayed, while it lasts, for an action it has still to serve.
- **A disable can leave rows that keep the daemon awake.** `internal/store/deliveries.go:322-324` says it must not
  strand non-terminal rows. An execution running when the disable returns and failing afterwards goes back to failed,
  and nothing dispatches a disabled action: `Witnesses.DisableCanStrand` is the run and `Disabling.FailedRowIsStranded`
  the consequence. A row can be stranded if and only if it was claimed when the disable returned
  (`Disabling.DisableStrandsExactlyClaimed`); and no other row nobody replays is ever active again before the next enable
  (`Disabling.OnlyClaimedRowsSurvive`).
- **The stamped hop count can lose.** `specs/003-queue-action-model.md:182` has ingress stamp zero hops, and
  `internal/api/server.go:155-156` says that the stamp always wins. It is written under one key, but read back under any
  key that equals it once case is folded: a "Hops" that is not a number makes the delivery dead
  (`Stamping.CapitalSpoils`), and a key with a long s, which sorts last, replaces the stamp (`Stamping.LongReplaces`).
  `Stamping.StampWins` is the condition. The hop limit does not depend on it (`Drain.HopLimitHolds`), and neither does
  draining (`Drain.EveryRunDrains`).
- **The backoff guards miss some overflows.** The comment at `internal/scheduler/scheduler.go:498-499` promises
  min(base·2^(n−1), cap). A shift can wrap to a positive value below the cap (`Backoff.GuardsCanMiss`).
  `Backoff.ExactForAllAttempts` says for which settings that never happens, as 64 tests a configuration loader can
  make; the defaults pass (`Backoff.DefaultsMeetCondition`).
- **Superseded by an older version.** Dispatch works from a snapshot of the registry, so a delivery created for version
  2 can be cancelled as superseded by version 1 (`Witnesses.SupersededByAnOlderVersion`). That no version was registered
  after the snapshot is sufficient to exclude it (`Fanout.OlderSupersedesOnlyAfterApply`).
- **The busy counter goes negative** when the scheduler settles a row before its handler has reported it
  (`Witnesses.CounterGoesNegative`): exactly while more is owed to it than there are active rows
  (`Busy.NegativeExactly`), so never while no report is owed (`Busy.CounterNonNegative`).
- **The idle tracker can fire under a pending delivery** when a request arrives between its reads of the in-service
  count and of the busy counter (`Witnesses.IdleRace`): exactly when what is owed to the counter hides all the active
  rows (`Busy.FiresOverWorkExactly`), so never if no report is owed (`Busy.FiresOnlyWhenNothingIsOwed`).
- **Text order is not time order within a second**, because the store trims trailing zeros before it compares: a gate
  on a whole second stays shut for the rest of that second (`Stamps.WholeSecondGateIsLate`).
  `Stamps.TextAgreesWithTimeExactly` has the condition, and no gate is ever off by a whole second.
- **Two readings of a join.** Fan-out and dispatch decide differently whether an action is a join
  (`Workflow.HalfJoinDisagrees`). Validation rejects the definitions on which they disagree, so the daemon never stores
  one, and on valid ones they agree (`Workflow.FanOutAgreesWithDispatch`).

## Model

| member | source | states |
|---|---|---|
| Outbox.ExactlyOnce | internal/store/deliveries.go:224-254 | in every reachable state the messages a delivery has produced are exactly those of its one successful execution if it is done, and none otherwise |
| Outbox.RunOutbox | internal/scheduler/scheduler.go:410-425 | every emitted message carries, in order and under increasing ids, a payload line of the recorded output, the inherited trace, hops + 1 and the pinned version; and every message with an origin is in the emission of that delivery |
| Outbox.DoneForever | internal/store/deliveries.go:220-223 | once done, a row and its recorded emission are the same after any further run with crashes, reaps and replays |
| Busy.RunBalanced | internal/scheduler/scheduler.go:59-63 | in every interleaving the counter, the rows handlers have not reported yet and the scheduler's own due adjustment add up to the number of pending, failed and claimed rows |
| Busy.NegativeExactly | internal/scheduler/scheduler.go:59-63 | while serving, the counter is negative if and only if the reports and the adjustment owed to it exceed the number of active rows |
| Busy.FiresOverWorkExactly | internal/daemon/daemon.go:147-153 | the tracker fires over active rows if and only if what is owed to the counter is at least their number |
| Busy.CounterNonNegative | internal/scheduler/scheduler.go:165-172 | while serving and with no report owed, the counter is not negative |
| Busy.FiresOnlyWhenNothingIsOwed | internal/daemon/daemon.go:147-153 | if the tracker fires and no handler owes a report, no row is pending, failed or claimed, even with a scheduler adjustment outstanding |
| Busy.FiresOnlyWhenIdle | internal/daemon/daemon.go:231-254 | in particular when no request arrives between the tracker's two reads |
| Wakeup.NoLostWakeup | internal/scheduler/scheduler.go:158-169 | for a fixed registry and a working store, whenever the loop blocks each pending row of an enabled action is at its ceiling, or belongs to a handler that has still to nudge, or a nudge is waiting |
| Wakeup.RunAwake | internal/scheduler/scheduler.go:205-219 | the invariant behind it, wherever the loop is, and that the timer is right whenever it blocks |
| Wakeup.TimerCoversRetries | internal/scheduler/scheduler.go:479-496 | whenever the loop blocks with a failed row, the timer is set for the earliest gate, measured from the reading it was armed at, and at once if that has passed |
| Wakeup.NothingWaitsUnseen | internal/scheduler/scheduler.go:241-281 | blocked with nothing running, no nudge and no handler under way, a waiting row of an enabled action has failed and the timer is set |
| Wakeup.DrainsToRest | internal/scheduler/scheduler.go:194-219 | a run that brings nothing in moves rows at most Measure times, and where it comes to rest each active row has failed under a set timer, is of a disabled action, or is claimed with a failed closing write |
| Drain.EveryRunDrains | internal/scheduler/scheduler.go:299-306 | from any reachable state, however actions are wired into cycles, any run without ingress, replay, registry change or reap moves rows at most Measure times |
| Drain.StepDrains | internal/scheduler/scheduler.go:285-331 | each such step that moves a row uses the measure up, and none raises it |
| Drain.HopLimitHolds | internal/scheduler/scheduler.go:299-307 | no message the engine emits, in any run and whatever hops come in, exceeds the hop limit, and each has more hops than the fewest that came in |
| Dispatching.SpinsForever | internal/scheduler/scheduler.go:260-271 | a non-join below its ceiling whose picked delivery settles: any number of failing resolves and repeated picks lead back to the same state |
| Dispatching.IngressProlongs | internal/scheduler/scheduler.go:260-271 | a pass with nothing eligible for an action below its ceiling: any number of messages that the action settles, one after the other, take three steps of the pass each and leave it where it was, with no write failing |
| Dispatching.OnlyIngressArrives | internal/store/deliveries.go:113-121 | rows come to wait during a pass only by a message sent or a delivery replayed, and no more than that commits |
| Dispatching.DispatchIsBounded | internal/scheduler/scheduler.go:244-281 | from any reachable state and with workers, handlers, tracker and crashes interleaved freely, the steps of one dispatch are at most a budget of the waiting rows and the loaded actions, plus two for each failed resolve and four for each row that comes to wait for an action still to be served |
| Transitions.StepEvolves | internal/store/deliveries.go:13-25 | every step keeps every row, and moves it only along pending or failed to claimed, filtered, dead or cancelled; claimed to done, failed or dead; dead to pending |
| Transitions.OthersOnlyReplay | internal/store/deliveries.go:281-320 | a handler changes a row only by replaying it from dead to pending |
| Transitions.WorkersOnlyStamp | internal/store/deliveries.go:206-218 | a worker changes a row only by recording its process group |
| Transitions.DecisionFindsItsRow | internal/store/deliveries.go:190-204 | between NextEligible and the write that follows, the row is unchanged, still waiting and not executing, so the unguarded resolve overwrites nothing and the claim cannot miss |
| Transitions.ResultFindsItsRow | internal/scheduler/scheduler.go:396-446 | the row of an execution is claimed under the version and attempt it was launched with, until its result is applied |
| Transitions.ClaimedRowsAccounted | internal/scheduler/scheduler.go:274-279 | while serving, the claimed rows are exactly the executions in flight and the rows whose closing write failed, and each in-flight count is the number of executions |
| Transitions.DrainedLeavesNoClaims | internal/scheduler/scheduler.go:222-231 | when the daemon exits after a graceful stop, only rows whose closing write failed are still claimed |
| Transitions.LaunchBelowCeiling | internal/scheduler/scheduler.go:260 | a non-join with a delivery about to be claimed runs fewer executions than the concurrency of the version that would claim it |
| Ownership.StepInv | internal/scheduler/scheduler.go:36-72 | every enabled step of any party keeps the ownership invariant: sound tables, each claimed row with one owner, counts equal to executions |
| Ownership.RunInv | internal/scheduler/scheduler.go:36-72 | the invariant holds after every run from the empty database |
| Outcomes.VettingDecides | internal/scheduler/scheduler.go:283-331 | in every reachable state, the write after a pick leaves a non-join's row cancelled if and only if no input of the version covers the queue; otherwise dead if and only if the headers are undecodable, the hops have reached the limit, or the filter does not compile, cannot take the input or fails, with the reason of the first of these that holds; else filtered or claimed as the filter rejects or accepts |
| Outcomes.DecideJudges | internal/scheduler/scheduler.go:272-343 | the same of the whole row: no other row changes, and column by column this one is claimed for the loaded version or resolved |
| Outcomes.JoinCancels | internal/scheduler/scheduler.go:345-366 | a join's picked row is cancelled as superseded by the join, and no other row changes |
| Outcomes.LimitsAreTheVersions | internal/scheduler/scheduler.go:509-550 | an execution runs under a registered version, with the concurrency and attempts of its definition or the defaults |
| Outcomes.ResultDecides | internal/scheduler/scheduler.go:396-446 | in every reachable state, a successful closing write leaves the row done if and only if the execution did not fail and every line of its output that is not blank is JSON, be there none; else dead from the last attempt on and failed with the gate before it, as an execution error if it failed and for its output otherwise |
| Outcomes.ReceiveCloses | internal/store/deliveries.go:220-279 | the same of the whole row, column by column; the other rows are kept, and no message is written unless the row is done |
| Outcomes.RetryWaits | internal/store/deliveries.go:134-137 | a row that has failed with a gate: whatever happens then, crashes and restarts included, the dispatch that next picks it goes by a clock less than a second short of the gate |
| Outcomes.BackoffIsHonoured | internal/scheduler/scheduler.go:428-434 | so it is from the closing of any failed execution that has attempts left, with the gate computed for it |
| Outcomes.SendStores | internal/api/server.go:167-176 | a send adds one message, as sent and without an origin, with fresh rows for its subscribers, and changes no other message or row |
| Outcomes.SetEnabledFlips | internal/store/actions.go:153-185 | afterwards the action is enabled exactly as asked, every older version and every other action as before |
| Outcomes.DisableTakesEffect | internal/api/actions.go:91-111 | once a disable has written its flag, and whatever happens short of an enable, the step that answers it leaves the action off, none of its rows waiting, and quiet from then on |
| Columns.EligibleIsDue | internal/store/deliveries.go:124-155 | the query finds every row of the action that is pending, or failed with a gate in an earlier second, and none that is not pending or failed with a gate less than a second ahead |
| Columns.InsertLaw | internal/store/deliveries.go:113-121 | an insert adds exactly its messages, and rows that are pending and otherwise empty; it changes nothing that was there |
| Recovery.CrashRecovery | internal/scheduler/reap.go:13-39 | from any reachable state, a crash inside an earlier reap included, crash, reap and seed leave no claimed row and no process group, the orphans failed and due at once, all other rows untouched, the same active rows and the counter equal to their number, and no execution, handler or request |
| Attempts.AttemptsBounded | internal/scheduler/scheduler.go:428-431 | columns fit the state; attempt is the number of claims since creation or replay, and at most max_attempts plus the reaps since then |
| Attempts.RunTallied | internal/store/deliveries.go:172-188 | the same accounting for every row of every run, against the largest max_attempts of any version registered |
| Fanout.OneDeliveryPerSubscriber | internal/store/deliveries.go:70-122 | the deliveries of a message and its recorded subscribers correspond one to one, and each recorded version takes the queue |
| Fanout.AppendFansOut | internal/store/messages.go:45-63 | the recorded subscribers of an appended message are the actions enabled at that commit whose current version takes its queue, at that version |
| Fanout.EmitFansOut | internal/store/deliveries.go:238-247 | so are those of each message a completion emits |
| Fanout.FanOutForever | internal/store/deliveries.go:70-72 | no later step, registry changes included, adds a delivery to a message or drops one |
| Fanout.SupersededByAnother | internal/scheduler/scheduler.go:291-297 | a delivery cancelled as superseded by v was not created for v |
| Fanout.OlderSupersedesOnlyAfterApply | internal/scheduler/scheduler.go:244-258 | a delivery is superseded by an older version only if a version was registered after dispatch took its snapshot; a current version supersedes only older ones |
| Disabling.DisabledStaysQuiet | internal/api/actions.go:91-111 | after a disable has returned and until the next enable, whatever comes next, the action gets no row and no claim, and a row of it waits anew only by its own replay, its own result or its own reaping |
| Disabling.DisableCancels | internal/scheduler/scheduler.go:471-477 | when the disable returns no delivery of the action is pending or failed |
| Disabling.QuietUntilEnabled | internal/store/actions.go:24-56 | only an enable ends that, not a newly applied version nor a restart |
| Disabling.OnlyClaimedRowsSurvive | internal/store/deliveries.go:322-344 | over every later run without an enable, a row nobody replays is active only if it was claimed when the disable returned |
| Disabling.ClaimedRowStrands | internal/scheduler/reap.go:18-39 | a crash and a restart after the disable strand every row of the action that was claimed |
| Disabling.DisableStrandsExactlyClaimed | internal/store/deliveries.go:322-344 | some later run without an enable or a replay of the row leaves it failed for good if and only if it was claimed when the disable returned |
| Disabling.FailedRowIsStranded | internal/store/deliveries.go:322-324 | a row that failed after the disable is never touched again by any run without a switch, and keeps counting as work |
| Order.FirstServiceInOrder | internal/store/deliveries.go:113-137 | in one daemon process, when a delivery is about to be claimed or resolved, every earlier one of the same action has been vetted or cancelled, whatever appends, replays and retries interleave |
| Witnesses.SupersededByAnOlderVersion | internal/scheduler/scheduler.go:293-297 | a run in which version 1 supersedes a delivery created for version 2 |
| Witnesses.CounterGoesNegative | internal/scheduler/scheduler.go:333-343 | a run in which the counter is minus one |
| Witnesses.IdleRace | internal/daemon/daemon.go:150-153 | a run in which the tracker fires with a delivery pending |
| Witnesses.DispatchCanSpin | internal/scheduler/scheduler.go:269-271 | a reachable state from which failing resolves lead back to itself |
| Witnesses.IngressCanProlong | internal/scheduler/scheduler.go:260-271 | a reachable state from which any number of rejected messages keep the pass going |
| Witnesses.DisableCanStrand | internal/scheduler/scheduler.go:428-434 | a run in which a delivery claimed when its disable returned fails and is stranded |
| Backoff.ExactPerAttempt | internal/scheduler/scheduler.go:498-504 | the 64-bit shift with its two guards gives min(base·2^(n−1), cap) at one attempt if and only if the shift fits, shifts everything out, or wraps to zero, a negative value or at least the cap |
| Backoff.ExactForAllAttempts | internal/scheduler/scheduler.go:498-504 | it does so at every attempt if and only if it does at the 64 shifts below 64 |
| Backoff.OddPartSuffices | internal/scheduler/scheduler.go:502 | cap times the odd part of base below 2^63 is enough |
| Backoff.RefinesDocumented | internal/scheduler/scheduler.go:498-504 | under that condition the delay is the documented one at every attempt |
| Backoff.DefaultsMeetCondition | internal/scheduler/scheduler.go:119-124 | one second and one minute give the documented delay at every attempt |
| Backoff.GuardsCanMiss | internal/scheduler/scheduler.go:502 | base 5 and cap 2^62 + 1 give 2^62 at attempt 63 instead of the cap |
| Backoff.JitterWithinAFifth | internal/scheduler/scheduler.go:505-506 | the truncated delay is within a fifth of the nominal one, less one nanosecond |
| Backoff.DelayWithinAFifth | internal/scheduler/scheduler.go:498-507 | the delay as computed from base, cap, attempt and jitter is within a fifth of the documented one, for settings that pass the test |
| Scheduler.GateIsBackoff | internal/scheduler/scheduler.go:428-434 | so the gate that Apply stores lies that far ahead of its clock reading, as long as that is before the end of the year 9999 |
| Engine.WithDefaults | internal/scheduler/scheduler.go:105-129 | every setting that is positive is kept, and every other replaced by its default |
| Stamps.EarlierSecondSortsFirst | internal/store/deliveries.go:126-137 | stamps of different seconds sort as text in the order of time |
| Stamps.GateWithinASecond | internal/store/deliveries.go:134-137 | a gate is never passed a full second early, and always once the clock's second is later |
| Stamps.TextAgreesWithTimeExactly | internal/store/deliveries.go:134-137 | the comparison of texts is the comparison of instants if and only if the stamps are comparable, for all stamps |
| Stamps.WholeSecondGateIsLate | internal/store/deliveries.go:264 | a gate on a whole second is shut for the rest of that second |
| Stamps.FormatInjective | internal/store/deliveries.go:397-401 | distinct stamps have distinct text, so a stored gate reads back as the instant written |
| Stamps.EarliestWithinASecond | internal/store/deliveries.go:385-391 | the textual minimum of the gates is less than a second after the true one |
| Stamps.TickIsOneSecond | internal/scheduler/scheduler.go:431 | the calendar counts seconds by one across minutes, midnights, month ends, leap days and years |
| Stamps.AfterIsLater | internal/scheduler/scheduler.go:431 | a stamp plus a delay is that many nanoseconds later |
| Stamps.LeapYears | internal/scheduler/scheduler.go:431 | February of 1900, 2000, 2023 and 2024 |
| Stamps.FormatHasFields | internal/store/deliveries.go:264 | the text has its fields, separators and zone where section 5.6 of RFC 3339 puts them |
| Ids.IdState.NewId | internal/store/id.go:24-58 | one call returns the id of the new counter and the random bytes; a later clock is taken over at once with a fresh counter, and otherwise the counter moves on by exactly one |
| Ids.IdState.Burst | internal/store/id.go:24-58 | a burst of calls returns exactly the ids of the specification, in order |
| Ids.DriftBound | internal/store/id.go:33-46 | after any calls, clock regressions included, ms·4096 + seq is at most the largest clock seen·4096 + 2047 + the number of calls |
| Ids.StrictlyIncreasing | internal/store/id.go:19-23 | ids are strictly increasing as text for any clock readings within 48 bits |
| Ids.VersionAndVariant | internal/store/id.go:52-57 | version 7, variant 10 and the dashes stand where section 5.7 of RFC 9562 puts them |
| Ids.AdvanceFollowsClock | internal/store/id.go:33-46 | the specification takes a later clock over at once, and otherwise moves on by exactly one |
| Ids.LayoutReads | internal/store/id.go:48-57 | milliseconds, counter and random bits can be read back from the bytes of an id |
| Streams.CappedBuffer.Write | internal/executor/executor.go:164-177 | the whole chunk is accepted, and the buffer's invariant ties what it holds to all that was written |
| Streams.CappedBuffer.WriteAll | internal/executor/executor.go:151-177 | overflow depends on the length of the stream alone, and without it the buffer is the whole stream, however it was split into writes |
| Streams.TailBuffer.Write | internal/executor/executor.go:199-207 | the buffer holds exactly the last max bytes of all that was written |
| Streams.TailBuffer.WriteAll | internal/executor/executor.go:190-209 | so after any split of the stream |
| Streams.Execute | internal/executor/executor.go:98-124 | succeeds exactly when the wait succeeded and the stream is within the cap, and then returns the whole stream; a failed wait is told apart as cancelled, timed out (exactly on a passed deadline) or exit failure, and overflow is its own error; the tail is the last 8192 bytes |
| Streams.SplitJoin | internal/scheduler/scheduler.go:601 | splitting at newlines loses nothing and no piece holds a newline |
| Streams.ParseNDJSON | internal/scheduler/scheduler.go:596-612 | returns precisely the trimmed non-blank lines in order, or names the first line that is neither blank nor JSON |
| Streams.PayloadBound | internal/scheduler/scheduler.go:599-612 | a stream of n bytes has at most (n + 1) / 2 payloads |
| Streams.TrimIsTight | internal/scheduler/scheduler.go:602 | a payload neither starts nor ends with white space |
| Streams.TrimTakesSpace | internal/scheduler/scheduler.go:602 | trimming takes off a stretch of white space at the front and one at the back and nothing else |
| Streams.LeadingSpaceIsWhite | internal/scheduler/scheduler.go:602 | for every code point, what counts as white space at the front is the White_Space property of its UTF-8 form |
| Streams.TrailingSpaceIsWhite | internal/scheduler/scheduler.go:602 | and at the back |
| Streams.BlankIsWhite | internal/workflow/validate.go:118-139 | so for characters in validation |
| Streams.ParsesIfAllJson | internal/scheduler/scheduler.go:596-612 | the output parses if and only if every piece between newlines is blank or JSON once trimmed |
| Streams.PayloadsAre | internal/scheduler/scheduler.go:599-612 | the payloads are exactly the trimmed pieces that are not blank |
| Streams.PayloadsAppend | internal/scheduler/scheduler.go:599-612 | line by line and in order |
| Workflow.ValidateInputs | internal/workflow/validate.go:77-116 | accepts exactly the valid input lists; a reported problem is one the list has, and an input is only reported when all before it are in order |
| Workflow.ValidateInstructions | internal/workflow/validate.go:118-139 | accepts exactly a command that names an executable, with a positive timeout if any; a reported problem is one the block has |
| Workflow.Validate | internal/workflow/validate.go:30-75 | accepts exactly the definitions with a proper name, actor, inputs, instructions, output, limits and join timeout whose expressions compile; a reported problem is one the definition has |
| Workflow.FanOutAgreesWithDispatch | internal/workflow/action.go:62-66 | for a valid definition, fan-out's reading of a subscription is dispatch's |
| Workflow.SubscriptionIs | internal/store/deliveries.go:100-108 | for a valid definition: a join is one whose inputs all correlate, and a queue is taken if and only if none does and one of them names it |
| Workflow.NamesLookLike | internal/workflow/validate.go:22-25 | names that the two patterns tell apart |
| Workflow.HalfJoinDisagrees | internal/store/deliveries.go:100-108 | a half-correlated definition is rejected, and without that would be read in two ways |
| Stamping.StampedHops | internal/api/server.go:155-164 | what dispatch reads from a stamped message, for all headers a caller sends: undecodable if a key that means hops holds something else, else the value under the key that sorts last, else zero |
| Stamping.StampWins | internal/scheduler/scheduler.go:563-577 | a message starts at zero hops if and only if no other key that means hops is undecodable and the one that sorts after "hops" is absent or zero |
| Stamping.CapitalSpoils | internal/scheduler/scheduler.go:298-302 | a headers map that makes the message undecodable |
| Stamping.LongReplaces | internal/scheduler/scheduler.go:563-577 | a headers map that replaces the stamp by any number |
| Integrity.VersionsStay | internal/store/actions.go:155-175 | applying or flipping the flag of any action keeps every version's definition |
| Integrity.ApplyInherits | internal/store/actions.go:24-64 | a new version is the next number, is current and inherits the flag, and any change of the definition makes one, of its instructions as well; applying the current definition again changes nothing |
| Integrity.InsertedRow | internal/store/deliveries.go:113-121 | an inserted row is pending, for an enabled subscriber of a message inserted with it |
| Integrity.InsertSound | internal/store/deliveries.go:224-254 | inserting messages with their deliveries keeps the tables sound: references, one row per message and action, columns that fit the state |
| Database.Store.AppendMessage | internal/store/messages.go:49-63 | the message and fresh rows for its subscribers are inserted together, nothing else changes, and the number of rows is returned; or nothing is inserted |
| Database.Store.MaterializeDeliveries | internal/store/deliveries.go:113-121 | the loop adds one pending row per subscriber, in order of name, under the ids given |
| Database.Store.LoadSubscribers | internal/store/deliveries.go:74-111 | the loop collects exactly the enabled actions whose current version takes the queue, by name |
| Database.SubscribesTo | internal/store/deliveries.go:100-108 | the scan of the inputs answers whether fan-out takes the queue |
| Database.Store.ClaimDelivery | internal/store/deliveries.go:172-188 | column by column: claims a pending or failed row for the version, counts the attempt and clears the gate, touching no other row; changes nothing if the row is not waiting or the write fails |
| Database.Store.ResolveDelivery | internal/store/deliveries.go:190-204 | column by column: closes the row in the given state with the given reason without looking at its present state, touching no other row; changes nothing if it is missing or the write fails |
| Database.Store.SetDeliveryPgid | internal/store/deliveries.go:206-218 | records the process group on a claimed row and changes nothing else; succeeds without effect on any other |
| Database.Store.CompleteDelivery | internal/store/deliveries.go:220-254 | marks a claimed row done, column by column, and inserts every output with its deliveries; or changes nothing |
| Database.Store.AppendOutputs | internal/store/deliveries.go:238-247 | the loop over outputs inserts them and their fan in order and returns how many deliveries it made |
| Database.Store.FailDelivery | internal/store/deliveries.go:256-279 | column by column: a claimed row is dead with no gate, or failed with exactly the gate given, with the error and the tail of stderr, its attempt and version as before; no other row changes; or nothing does |
| Database.Store.ReplayDelivery | internal/store/deliveries.go:281-320 | a dead row is pending with attempt 0 and every column of its past cleared, no other row changes; a missing row and a row that is not dead are told apart |
| Database.Store.CancelDeliveries | internal/store/deliveries.go:322-344 | the loop over the rows cancels every pending and failed one of the action, column by column, and no other row changes; none is left waiting, and the active rows are fewer by exactly the number returned |
| Database.Store.ResetOrphanRow | internal/store/deliveries.go:354-369 | column by column: a claimed row is failed, due at the clock given, without a process group; succeeds without effect on any other |
| Database.Store.ApplyAction | internal/store/actions.go:24-72 | appends the next version with the flag of the one before, enabled if it is the first, unless the definition is the current one; reports version, flag and whether anything changed |
| Database.Store.SetActionEnabled | internal/store/actions.go:153-185 | on success the action is enabled exactly as asked, its older versions and every other action unchanged; an unknown action is an error |
| Database.Store.NextEligible | internal/store/deliveries.go:124-155 | the loop over the rows answers with some row of the action that is pending or has a gate less than a second ahead, and whenever a row is pending or its gate lies in an earlier second, with one of at most its id; nothing eligible and not readable are different answers |
| Database.OneOldest | internal/store/deliveries.go:135-137 | only one id has that property, the one the engine picks |
| Database.Store.NextRetryAt | internal/store/deliveries.go:385-402 | the loop over the rows finds the gate with the least text among failed rows, less than a second after any other; no gate and not readable are different answers |
| Database.OneEarliest | internal/store/deliveries.go:389-390 | only one gate has that property, the one the engine arms the timer with |
| Scheduler.FindInput | internal/scheduler/scheduler.go:552-560 | the loop finds the first input on the queue, or none if no input covers it |
| Scheduler.Check | internal/scheduler/scheduler.go:283-331 | launches if and only if an input covers the queue, the headers decode, the hops are below the limit and the filter accepts; any other verdict has the state and reason of the first check that fails |
| Scheduler.DecodeActions | internal/scheduler/scheduler.go:509-550 | the loop yields the current version of exactly the enabled actions, in order of name, each with its own limits or the defaults |
| Scheduler.Payloads | internal/scheduler/scheduler.go:402-411 | some exactly when the execution did not fail and every line that is not blank is JSON, so also for empty output; then the trimmed lines, and nothing for an action without an output queue |
| Scheduler.Outputs | internal/scheduler/scheduler.go:448-469 | each line becomes, in order, a message on the output queue with the trace inherited, hops + 1 and the action, version and message it came from |
| Scheduler.Total | internal/scheduler/scheduler.go:233-239 | the loop's sum of counts is zero exactly when every count is |
| Scheduler.Scheduler.PickNext | internal/scheduler/scheduler.go:261-268 | picks the next eligible delivery, as stored, and moves to the next action if there is none or it cannot be read |
| Scheduler.Scheduler.VetWork | internal/scheduler/scheduler.go:285-331 | passes exactly the deliveries that every check lets through, with nothing changed; any other row is, column by column, closed with the state and reason of the first check that fails, and no other row changes; or its write failed and nothing did |
| Scheduler.Scheduler.Settle | internal/scheduler/scheduler.go:333-343 | if the write succeeds exactly this row changes, to the given state and reason, and the counter drops by one; else nothing changes, and a non-join's turn goes on |
| Scheduler.Scheduler.Launch | internal/scheduler/scheduler.go:272-279 | the row is claimed for the loaded version, then the in-flight count rises by one and the execution starts; a failed claim changes nothing and ends the action's turn |
| Scheduler.Scheduler.CancelSuperseded | internal/scheduler/scheduler.go:345-366 | the loop resolves every eligible delivery of a join, and stops at a failing write; the only rows it changes are the join's, to cancelled as superseded by it |
| Scheduler.Scheduler.FillAction | internal/scheduler/scheduler.go:260-280 | the loop leaves the action at its ceiling or without an eligible delivery if nothing fails |
| Scheduler.Scheduler.DispatchAll | internal/scheduler/scheduler.go:241-281 | if nothing fails, every enabled action ends at its ceiling, or with no pending row and no failed one whose gate lies in an earlier second; eligible rows only become fewer and executions only more |
| Scheduler.Scheduler.Apply | internal/scheduler/scheduler.go:396-446 | with a working write the row is done, failed or dead exactly as ResultDecides has it, the gate is the backoff of this attempt, the other rows are kept, the counter changes by the rows created and the row closed, and the nudge is set; without, the tables and the counter stay; either way the execution and its slot are gone |
| Scheduler.Scheduler.Drain | internal/scheduler/scheduler.go:222-231 | the loop waits for executions that are still running when it starts as well as for those that have reported, and applies their results in whatever order they come until nothing runs; then no row is claimed unless a closing write failed |
| Scheduler.Scheduler.HandleCtrl | internal/scheduler/scheduler.go:471-477 | cancels, column by column, every pending and failed row of the action and no other, subtracts exactly their number and replies with it |
| Scheduler.Scheduler.ArmTimer | internal/scheduler/scheduler.go:479-496 | idle exactly if no failed row has a gate or none can be read; else the delay reaches to the failed rows' gate with the least text, and is zero if that has passed |
| Scheduler.Scheduler.NextGate | internal/scheduler/scheduler.go:479-483 | the gate to wait for, if one can be read |
| Scheduler.Scheduler.Reset | internal/scheduler/scheduler.go:484-496 | the timer that it gives |
| Scheduler.Scheduler.Round | internal/scheduler/scheduler.go:205-209 | one turn of the loop up to its wait takes only steps of the scheduler and, if nothing fails, leaves every enabled action served as in DispatchAll and the timer right |
| Scheduler.Scheduler.Seed | internal/scheduler/scheduler.go:194-200 | the counter starts as the number of active rows |
| Scheduler.Scheduler.WorkAdded | internal/scheduler/scheduler.go:165-169 | reports a handler's rows, then nudges |
| Daemon.ReapOrphans | internal/scheduler/reap.go:18-39 | the loop resets the claimed rows in id order and stops at the first failing write; it succeeds if nothing fails |
| Daemon.StartUp | internal/daemon/daemon.go:101-141 | reap, then seed, then serve: a scheduler that starts has no claimed row and a counter equal to the active rows |
| Daemon.SchedulerKeepsRequests | internal/daemon/daemon.go:150-154 | no run of scheduler and worker events changes the tracker or the in-service count |
| Daemon.Server.Begin | internal/api/server.go:100-106 | the request is counted as in service and the idle countdown starts over |
| Daemon.Server.Look | internal/daemon/daemon.go:238-244 | the first read: the tick goes on only after a full timeout since the last activity |
| Daemon.Server.Glance | internal/daemon/daemon.go:150-152 | the busy counter is read only when no request is in service, after the first read found a full timeout without one; requests may come and go in between |
| Daemon.Server.Judge | internal/daemon/daemon.go:245-252 | fires exactly when the counter is not positive; then every request before the first of the three reads was a full timeout old at that read, and unless one that came after the second owes a report no row is active |
| Daemon.Server.MessageSend | internal/api/server.go:143-184 | rejects a missing queue or payload and what is not JSON; otherwise the tables gain exactly one message, with the queue, payload, trace and time given, no origin, and hops read as StampedHops has them, with fresh rows for its subscribers, whose number is reported; refused or failed, nothing changes |
| Daemon.SendLeaves | internal/api/server.go:155-176 | the same of the engine's step, for all headers |
| Daemon.Server.DeliveryReplay | internal/api/deliveries.go:42-55 | accepts exactly a dead row, which is pending again column by column, and reports it; a missing row, a row that is not dead and a failing store get different refusals, and nothing changes |
| Daemon.Server.SetActionEnabled | internal/api/actions.go:91-111 | on success the action is enabled exactly as asked, its older versions and every other action unchanged; a disable then queues for the scheduler; an empty name, an unknown action and a failing store get different refusals |
| Daemon.Server.ActionApply | internal/api/actions.go:14-39 | registers exactly the definitions that validate, under their name, as the next version unless unchanged, and reports version, flag and whether anything changed |
| Daemon.IdleTracker.Touch | internal/daemon/daemon.go:223-227 | the countdown starts over |

## Left out

- SQLite itself (WAL, pools, migrations): a write is one all-or-nothing step that may fail with no effect, and a read sees the last committed state.
- CEL, JSON and YAML: a filter is an arbitrary function with its five outcomes, JSON validity an arbitrary predicate, a stored definition already decoded, and whether its expressions compile an arbitrary predicate.
- Processes, signals, pipes and timeouts: an execution is one arbitrary outcome, delivered once; its process group may be recorded before that. Spawn failures are a failed outcome.
- The result channel: finished executions are a set from which the scheduler takes any, which allows more orders than the channel does; its capacity is not part of this model.
- The select loop as one unbounded method: Round is one turn up to the wait, and Wake, Expire, Apply, HandleCtrl and Stop are its branches.
- Ids inside the engine are numbers, with a new delivery id above all earlier ones; and the message ids of one completion increasing; that issued ids have that order as text is Ids.StrictlyIncreasing, and that message ids are new is assumed of their insertion.
- Timestamps after the year 9999, whose text has more digits; a gate is computed up to there.
- The safety-net interval of the retry timer and the default task timeout: Idle stands for the one, and the other is part of an execution's arbitrary outcome.
- Error texts: reasons are an enumeration.
- Joins, schedule sources, trace and prune (specs 007 and 008): planned, with no code.
- CLI, HTTP transport, listing, pagination, health, lock files, sockets and spawning: plumbing with only easy properties.
- Scheduler.Scheduler.DispatchAll: runs with nothing arriving meanwhile and with a finite list of failing operations, so its loops end; without either they need not (Dispatching.SpinsForever, Dispatching.IngressProlongs).
- Scheduler.Scheduler.Drain: a worker that has still to record its process group does so before the drain or not at all.
- Wakeup.NoLostWakeup: for a fixed registry only; the code does not nudge when an action is applied or enabled, so prompt dispatch after such a change is not promised.
- Drain.EveryRunDrains: without reaps, since each reap gives an execution back (Attempts.AttemptsBounded counts them).
- Backoff.JitterWithinAFifth: over real numbers; floating-point rounding is not part of this model.
- Daemon.Server.Judge: for clock readings that do not go backwards, which Go's monotonic clock provides.
