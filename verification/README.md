# Verified model of the workflow executor, the agent loop and the heartbeat

This project models, in Dafny, the parts of the runtime in which several things happen at once or in
an order that matters, and proves what they guarantee.

* **Workflow graph.** `WorkflowBuilder` checks a dependency graph by Kahn peeling over arrays and, when
  peeling stops early, walks back to a concrete cycle. `Build` succeeds exactly on the graphs with known
  predecessors and no cycle; what it accepts is what the executor needs in order not to deadlock.
* **Workflow executor.** `WorkflowMachine` is the executor as a transition system: the coordinator's atomic
  steps, and between any two of them the caller's cancel, the passing of the deadline and the end of any
  body. A permit is held from `Start` until the body *ends*, the ledger shows `Running` until the end is
  *joined*; the two are kept apart. `WorkflowExecutor` holds the coordinator's own loops (token check,
  cancel of open tasks, propagation, start pass, wait, report) as imperative code over the recorder and the
  permits; each of its executions is proved to be a run of the transition system (`FinishedRun`), so all
  theorems about runs hold for it.
* **Theorems about runs.** `LedgerInvariant` and `WorkflowLedger` (log, bus and state tables), `WorkflowReport`
  (no deadlock, report statuses, skips and blame), `WorkflowSafety` (two moments of one run), `WorkflowCertainty`
  (what records say, and whom a skip blames), `WorkflowFigures` (the peak and the budget flag),
  `ScheduleIndependence` (every schedule ends like a recursive evaluator on the graph), `CoordinatorRounds`,
  `RoundFacts` and `RoundsRealized` (the undisturbed coordinator as rounds told by logs alone, and back),
  `SequentialReference`, `SingleOrder`, `GraphOrder` and `OneRunning` (when one permit fixes the order), `CoordinatorFacts`
  (what the loops rely on).
* **Failures.** `Failure` (bounded text), `Redaction`, `RedactionExact` and `RedactionText` (placeholders for echoed arguments:
  what is gone, when a value survives, and what stays), `Retry` (bounded retry, one guarded attempt, the walk to the root
  cause), `Provenance`, `RootCauseExact` and `RepeatedIds` (what that walk finds), `Agent` (the loop that produces the
  records, and what it reports to a workflow), `ContextWindow` (pruning).
* **Cancellation token.** `CancelMachine` is the flag-and-notify protocol for any number of waiters and
  cancellers; `CancelToken` is the token, with other parties interleaved at every access.
* **Heartbeat.** `HeartbeatMachine` interleaves any number of pulses and task creations over one task table,
  `HeartbeatAccount` says which pulse did which work, `Heartbeat` holds the table's operations and the loop of one pulse.

Everything outside is a parameter or an arbitrary choice: what task bodies return (`out`), when they end, when
the caller cancels, when time passes, what the model answers, how each dispatch ends and when (`World`), database
failures, digests, clock readings. "Arbitrary" is a nondeterministic assignment in the imperative code and a
universally quantified run in the theorems.

## Where the code and its documentation differ

* `docs/WORKFLOW-DAG.md` says that one permit fixes the whole order for a given specification. A permit is
  returned when a body ends, not when its end is recorded, so a start pass can start a second ready task before
  the first is joined. The claim holds exactly for graphs in which of every two tasks one depends on the other
  (`GraphOrder.GraphFixesOrderExactly`), and for one script exactly if the sequential schedule never has two tasks
  ready at once (`SingleOrder.ScriptFixesOrderExactly`). For every other graph `RoundsRealized.OrderIsOpen` gives a
  run. `WorkflowExecutor.Run` meets the claim under these conditions, and also if the scheduler lets no body
  progress inside a start pass (its parameter `cooperative`).
* The comment on `redact_payload_echoes` says an echoed argument cannot leak. It can when the argument overlaps
  the placeholder itself. For a single argument `RedactionExact.SingleArgumentExactly` gives the exact condition,
  for any number of arguments without brackets `Redaction.RedactionWithoutBrackets` does.
* `root_cause` promises the original failure. With repeated call ids it can end elsewhere
  (`RepeatedIds.RepeatedIdsDefeatTheWalk`); `RootCauseExact.RootCauseExactly` says precisely when it does not.

## Model

| member | source | states |
|---|---|---|
| WorkflowSpec.OrderedHasNoCycle | src/orchestration/workflow.rs:313-319 | A graph whose tasks can be ranked above their predecessors has no closed walk, so a full peel really means acyclic |
| WorkflowBuilder.WorkflowBuilder.AddTask | src/orchestration/workflow.rs:243-276 | Accepts exactly a fresh non-empty id with distinct predecessors other than itself and appends that task; otherwise the builder is unchanged and the error is the first applicable one, naming the first offending edge |
| WorkflowBuilder.WorkflowBuilder.Build | src/orchestration/workflow.rs:280-322 | Ok if and only if every predecessor is known and no cycle exists; otherwise the first unknown predecessor in insertion order, or a concrete simple cycle of length at least 2 |
| WorkflowBuilder.FindUnknown | src/orchestration/workflow.rs:280-290 | None exactly when all predecessors are known, else the first unknown one in insertion order |
| WorkflowBuilder.Peel | src/orchestration/workflow.rs:291-313 | Each node is popped at most once, after all its predecessors; every final indegree is the number of unpeeled predecessors, and it is zero exactly for the popped nodes |
| WorkflowBuilder.PopAndRelax | src/orchestration/workflow.rs:302-313 | One pop keeps all of that: no underflow, no second push, the remaining queue plus newly freed dependents |
| WorkflowBuilder.UnpeeledStep | src/orchestration/workflow.rs:304-312 | Peeling one task lowers the count of exactly its direct dependents, by exactly one |
| WorkflowBuilder.OrderGivesRank | src/orchestration/workflow.rs:313-321 | A complete pop order is a topological order of the graph |
| WorkflowBuilder.FindCycle | src/orchestration/workflow.rs:326-349 | When peeling stopped early: terminates and returns distinct tasks, at least two, each a predecessor of the next and the last of the first |
| WorkflowBuilder.NextUnpeeled | src/orchestration/workflow.rs:334-346 | An unpeeled node always has an unpeeled predecessor, so the walk never needs its fallback |
| WorkflowPlan.BuiltIsValid | src/orchestration/workflow.rs:280-322 | Whatever the builder accepts satisfies what the executor's guarantees assume |
| WorkflowLedger.NoStateRepeats | src/orchestration/workflow.rs:443-463 | Along a legal log a task only moves on: no state is entered twice, so a task starts at most once |
| WorkflowLedger.CompletedBeforeReady | src/orchestration/workflow.rs:840-844 | Every prerequisite has its `completed` entry before a task's `ready` entry |
| WorkflowLedger.ReadyBeforeRunning | src/orchestration/workflow.rs:677-694 | A task's `ready` entry precedes its `running` entry, which precedes what its body leads to |
| WorkflowLedger.StartsAfterPrerequisites | src/orchestration/workflow.rs:677-694 | Every prerequisite's `completed` entry precedes the task's `running` entry |
| WorkflowLedger.LogIsBounded | src/orchestration/workflow.rs:662-786 | n tasks make at most 4n transitions |
| LedgerInvariant.LedgerInvKept | src/orchestration/workflow.rs:443-494 | Every legal move keeps: results exactly for completed tasks, records exactly for failed, cancelled and skipped ones and stamped with the final transition's number, gapless numbers, bus order, faithful log, prerequisites completed, blame on an earlier direct predecessor, certainty only if run, bus replay |
| WorkflowMachine.NewFailure | src/orchestration/workflow.rs:601-624 | A failure record carries the number of the transition that follows it, the run and the task, first attempt, no parent, one moment, and a single cause whose text is cut once |
| WorkflowMachine.PermitsKept | src/orchestration/workflow.rs:649-726 | Holders plus free permits always make up `max_parallel`; `live` is the number of started, unjoined bodies, which are exactly the tasks shown as Running; the peak never exceeds the bound |
| WorkflowMachine.AlwaysInv | src/orchestration/workflow.rs:628-786 | In every reachable state of every run: the ledger invariant, permit accounting, an observed peak, consistent flags, and cancelled tasks before a cancel only by their own body |
| WorkflowReport.PendingIsBehindApproval | src/orchestration/workflow.rs:811-851 | In a quiet uncancelled state every pending task has an ancestor that waits for approval: acyclicity, the propagation fixpoint and permit accounting together |
| WorkflowReport.NoDeadlock | src/orchestration/workflow.rs:730-732 | An uncancelled run stops with no task ready or running, and with a task pending only behind an ancestor that waits for approval |
| WorkflowReport.UnfinishedExactly | src/orchestration/workflow.rs:904-909 | Exactly the ids whose state is not terminal, each once, in insertion order |
| WorkflowReport.ReportStatus | src/orchestration/workflow.rs:894-924 | Waiting for approval exactly when something is unfinished; cancelled exactly when a cancel was seen; completed exactly when all completed; failed exactly when all are terminal and one went bad |
| WorkflowReport.ReportPartition | src/orchestration/workflow.rs:925-941 | Each task is in exactly one of results, failures and unfinished; Failed carries the tabled record; records are stamped with the final transition and claim an effect only if the task ran |
| WorkflowReport.ReportLog | src/orchestration/workflow.rs:894-941 | The log is gapless from 1, legal, closed by one final entry, at most 4n + 1 long; the peak is within the bound and at least 1 if anything ran (what it counts is `ReportedPeakIsExact`) |
| WorkflowFigures.ReportedPeakIsExact | src/orchestration/workflow.rs:696 | The reported peak is the number of bodies that held a permit at once when they were most: no moment of the run with no start half done had more, and if it is positive some moment had exactly as many |
| WorkflowFigures.RunPeakIsExact | src/orchestration/workflow.rs:687-696 | The same of every run, finished or not, and its last state |
| WorkflowFigures.ReportedFlagIsExact | src/orchestration/workflow.rs:664-668 | The budget flag is set exactly if in some step of the run the deadline tripped it; then a budget was configured and the status is cancelled, and a cancelled run without the flag was cancelled by its caller |
| WorkflowReport.ReportIsMeaningful | src/orchestration/workflow.rs:894-941 | All of this together, as a property of the report alone, for every finished run |
| WorkflowReport.BusTellsAll | src/orchestration/workflow.rs:443-509 | A subscriber that saw only the bus can rebuild every state and result of the report; its last event carries the report's number and status, and bus and log match entry by entry |
| WorkflowReport.EverySkipHasARoot | src/orchestration/workflow.rs:811-851 | From a skipped task the recorded prerequisites lead, through strictly earlier records of direct predecessors, to a failed or cancelled task |
| WorkflowReport.SkippedExactly | src/orchestration/workflow.rs:811-851 | At the end of an uncancelled run the skipped tasks are exactly the strict descendants of failed or cancelled tasks |
| WorkflowSafety.LaterFollows | src/orchestration/workflow.rs:443-494 | Between any two moments of a run log, bus, results, records and terminal states are only added to, flags never fall, and after a seen cancel no task becomes ready, starts or is skipped |
| WorkflowSafety.NoStartAfterCancel | src/orchestration/workflow.rs:663-694 | A task that ever runs had its `running` entry before the cancel was seen |
| WorkflowCertainty.AlwaysExact | src/orchestration/workflow.rs:790-892 | In every run every record names the run, the executor and one cause; skipped tasks are Rejected with NoEffect and name the blamed task; cancelled tasks have NoEffect if the log shows they never ran, and otherwise their runner's certainty, with the text telling which of the three cases it was; failed tasks ran |
| WorkflowCertainty.AlwaysFailedAsEnded | src/orchestration/workflow.rs:757-775 | In every run the class, certainty and cause of a failed task's record are those that belong to the way its own body ended: its fault, its timeout, or its panic |
| WorkflowCertainty.AlwaysAsEnded | src/orchestration/workflow.rs:853-870 | In every run each recorded result is the digest its own body ended with, and whoever waits for approval ended by asking for it |
| WorkflowCertainty.AlwaysBlamesFirst | src/orchestration/workflow.rs:819-840 | In every run the prerequisite recorded for a skipped task was, when it was skipped, the first of its predecessors in edge order that had failed, was cancelled or was skipped |
| WorkflowCertainty.AlwaysPossibleEnds | src/orchestration/workflow.rs:707-724 | In every run a body times out only if a timeout is configured and is interrupted only after the run was cancelled |
| WorkflowCertainty.PastOf | src/orchestration/workflow.rs:790-806 | The state of an open task tells whether it ran and whether it waited, as the log has it |
| ScheduleIndependence.RunIsEval | src/orchestration/workflow.rs:662-785 | For any interleaving and any parallelism an undisturbed run ends with the verdicts of the recursive evaluation of the graph |
| ScheduleIndependence.ReportedRunIsEval | src/orchestration/workflow.rs:894-941 | The reported tables of an undisturbed run are those verdicts, with results exactly for the completed tasks |
| ScheduleIndependence.ScheduleDoesNotMatter | src/orchestration/workflow.rs:662-785 | Two undisturbed runs with the same body outcomes agree on every task's end and on all results |
| SequentialReference.FirstReady | src/orchestration/workflow.rs:677-680 | The ready task before which no other is ready in insertion order, or none is ready |
| SequentialReference.PassMovesSomeone | src/orchestration/workflow.rs:813-849 | A propagation pass that changes anything takes some task out of Pending |
| CoordinatorFacts.JoinLowersTall | src/orchestration/workflow.rs:752-777 | Each join reduces the number of tasks that have not finished a body |
| RoundFacts.PassInOrder | src/orchestration/workflow.rs:813-849 | Within one pass of propagation tasks are readied and skipped in insertion order |
| RoundFacts.ReadyIdsInOrder | src/orchestration/workflow.rs:676-694 | What a round finds to start is in insertion order |
| RoundFacts.PropagatedIsFixed | src/orchestration/workflow.rs:811-851 | After n + 1 passes over any legal log propagation has nothing left to do for any task |
| RoundFacts.CanStop | src/orchestration/workflow.rs:662-785 | Every course of undisturbed rounds can be brought to a stop, and only adds to its log |
| SingleOrder.SequentialIfSingle | src/orchestration/workflow.rs:676-728 | With one permit a course of rounds leaves the sequential log if no body progresses in a start pass, or if no two tasks are ever ready at once |
| SingleOrder.ScriptFixesOrderExactly | src/orchestration/workflow.rs:676-728 | Per script: with one permit every course leaves the sequential log if and only if the sequential schedule never has two tasks ready at once |
| GraphOrder.GraphFixesOrderExactly | src/orchestration/workflow.rs:676-728 | For all scripts: with one permit the order is fixed if and only if of every two tasks one is an ancestor of the other |
| RoundsRealized.RoundLogIsRun | src/orchestration/workflow.rs:662-785 | Each course of rounds, for any number of permits, is possible: some finished, undisturbed run of the transition system has exactly its log |
| RoundsRealized.OrderIsOpen | src/orchestration/workflow.rs:676-728 | Any graph with two unrelated tasks has a finished, undisturbed run with one permit, made of the coordinator's rounds, whose log is not the sequential one |
| OneRunning.OneAtATime | src/orchestration/workflow.rs:676-728 | At every moment of the sequential schedule at most one task runs |
| OneRunning.NeverTwoRunning | src/orchestration/workflow.rs:676-728 | A run that ends with the sequential log shows at most one task as Running in every one of its states |
| WorkflowExecutor.Recorder.Transition | src/orchestration/workflow.rs:443-463 | Number, result, state, log entry and bus event change together |
| WorkflowExecutor.Recorder.Finish | src/orchestration/workflow.rs:465-480 | Appends the closing entry to log and bus |
| WorkflowExecutor.Recorder.Move | src/orchestration/workflow.rs:482-494 | A noted record and the transition it explains, as one ledger change |
| WorkflowExecutor.Coordinator.CancelOpenTasks | src/orchestration/workflow.rs:790-806 | Afterwards every task is terminal or running |
| WorkflowExecutor.Coordinator.Observe | src/orchestration/workflow.rs:663-674 | A cancel, a tripped token or an expired deadline that was there on entry is seen, and then nothing is left open; an expired deadline also sets the budget flag, whether or not the caller cancelled |
| WorkflowExecutor.Coordinator.PropagatePass | src/orchestration/workflow.rs:813-849 | One pass writes exactly the entries of the reference pass and reports whether there were any |
| WorkflowExecutor.Coordinator.Propagate | src/orchestration/workflow.rs:811-851 | Reaches the fixpoint in at most n + 1 passes |
| WorkflowExecutor.Coordinator.TryStart | src/orchestration/workflow.rs:681-727 | Restarts exactly on a cancel or deadline, which if it was there on entry keeps the task from starting; gives up only while something is live, and otherwise records exactly one start |
| WorkflowExecutor.Coordinator.StartPass | src/orchestration/workflow.rs:676-728 | Unless restarted it starts a first part of the ready tasks, in insertion order; it leaves one over only if as many bodies are open as there are permits, so none is left when nothing is live; with a cancel or expired deadline there on entry it starts nothing; the propagation fixpoint stays |
| WorkflowExecutor.Coordinator.Round | src/orchestration/workflow.rs:662-777 | One iteration, unless a cancel was tripped, is one round: propagation to the end, a start pass, one join, or the stop |
| WorkflowExecutor.Coordinator.Await | src/orchestration/workflow.rs:734-777 | Wakes on an unseen cancel first, then on the deadline, and joins one body only if there was neither; each can happen only so often |
| WorkflowExecutor.Coordinator.RunToQuiescence | src/orchestration/workflow.rs:662-785 | Stops in a quiet state after at most n + 3 iterations, which are a course of rounds unless a cancel was tripped |
| WorkflowExecutor.Coordinator.MakeReport | src/orchestration/workflow.rs:894-941 | The report is the one the theorems speak of, and the log is closed with its status |
| WorkflowExecutor.WorkflowExecutor.Create | src/orchestration/workflow.rs:578-589 | Refuses exactly a bound of zero |
| WorkflowExecutor.WorkflowExecutor.Run | src/orchestration/workflow.rs:628-786 | Whatever the surroundings do: a finished run of the transition system in at most n + 3 iterations, and its report; statuses, tables, numbers, log, peak and budget flag mean what they should, and the bus tells them all. Unless cancelled, every task ends as the recursive evaluation of the graph says and the log is that of a course of rounds; with one permit and a total order (or a schedule or bodies that leave one task at a time) it is the sequential log and at most one task is ever shown as Running |
| Failure.WidthIsLeast | src/failure.rs:144-153 | A character counts the least number of bytes in which UTF-8 can hold it |
| Failure.FitIsLongest | src/failure.rs:144-153 | The kept text is the longest prefix of whole characters within the byte limit |
| Failure.FitLosesAtMostThreeBytes | src/failure.rs:144-153 | A cut wastes at most three bytes |
| Failure.FitTwice | src/orchestration/workflow.rs:948-950 | Scrubbing and then recording cuts no more than recording alone |
| Failure.TruncateBytes | src/failure.rs:144-153 | The backward search for a character boundary finds exactly that prefix |
| Failure.FailureRecord.WithCause | src/failure.rs:233-248 | With fewer than 8 causes exactly one is appended, its message cut to 512 bytes, with the digest; from 8 on only the truncation flag is set |
| Redaction.CollectedExactly | src/failure.rs:166-177 | Collected are exactly the string values of at least four bytes, at any nesting |
| Redaction.LongestFirstKeeps | src/failure.rs:184-185 | Sorting keeps every value and puts longer ones first |
| Redaction.RedactionRemoves | src/failure.rs:181-193 | A collected value that cannot overlap the placeholder does not occur in the output; later replacements never bring it back |
| Redaction.RedactionExactly | src/failure.rs:181-193 | For any number of arguments none of which merely straddles an end of the placeholder: nothing collected occurs in any redacted message if and only if every collected value is apart from the placeholder |
| RedactionExact.SingleArgumentExactly | src/failure.rs:181-193 | For any single collected value, with whatever characters: no message leaks it if and only if it agrees with the placeholder at no offset, or only where it sticks out in front and an earlier self-overlap comes first |
| RedactionExact.AroundOverlapLeaks | src/failure.rs:181-193 | A single argument with a whole placeholder inside survives in a stated message under the same proviso |
| RedactionExact.CompanyLeaks | src/failure.rs:181-193 | With a second argument replaced later, a value that ends with a beginning of the placeholder survives even if it does not on its own |
| Redaction.RedactionWithoutBrackets | src/failure.rs:181-193 | For arguments without brackets: nothing collected occurs in any redacted message if and only if none of them is part of the word inside the placeholder |
| Redaction.TailOverlapLeaks | src/failure.rs:181-193 | A single argument that begins with an end of the placeholder survives in some message |
| Redaction.HeadOverlapLeaks | src/failure.rs:181-193 | A single argument that ends with a beginning of the placeholder survives in some message, unless an earlier self-overlap gets replaced instead |
| Redaction.PartOfPlaceholderLeaks | src/failure.rs:181-193 | A collected value that is part of the placeholder survives in some message, whatever else is collected |
| Redaction.OverlappingValueLeaks | src/failure.rs:181-193 | A concrete value with a bracket leaks though it is no part of the placeholder |
| Redaction.RedactPayloadEchoes | src/failure.rs:181-193 | The loop that tests before replacing computes the redaction the theorems speak of |
| RedactionText.UnmentionedIsKept | src/failure.rs:186-192 | A message that mentions no collected value comes back unchanged |
| RedactionText.SingleArgumentText | src/failure.rs:186-192 | With one collected value: the pieces between its leftmost, non-overlapping occurrences are kept and joined by the placeholder, whatever the characters |
| RedactionText.SplitExists | src/failure.rs:186-192 | Every message has such pieces |
| RedactionText.RedactIsLastStage | src/failure.rs:181-193 | For all messages and arguments: the output is what comes of doing this with one value after the other, longest first, and such a course always exists |
| RedactionText.RedactionKeepsRest | src/failure.rs:181-193 | With any number of values apart from the placeholder: the message is pieces with collected values between them, the output is the same pieces with placeholders between them, and no piece contains a collected value |
| RedactionText.EchoIsReplacedWhole | src/failure.rs:184-185 | Why longest first: an argument echoed alone becomes one placeholder, even if other arguments are parts of it |
| RedactionText.LongestFirstIsStable | src/failure.rs:184-185 | Values of the same length keep the order in which they were collected |
| RedactionText.CollectedInOrder | src/failure.rs:166-177 | Values are collected in the order in which they stand in the arguments; member names do not count |
| Retry.Eligibility | src/failure.rs:78-93 | Retryable exactly for an unavailable backend without effect, an idempotent capability and a policy of more than one attempt; then within the policy and five, and equal to one of them |
| Retry.Limit | src/failure.rs:78-93 | One attempt if the call is not idempotent or the policy allows one; else as many as the policy says, but at most five |
| Retry.RetryLoop | src/failure.rs:332-366 | Attempts are numbered from 1 and timed, every retried one was unavailable without effect, and the last answer is returned. In numbers: at most five; more than one only for an idempotent call and within the policy; an unavailable answer without effect ends the call only at that bound |
| Retry.AttemptsAgainstDeadBackend | src/failure.rs:332-366 | An idempotent call whose backend stays unreachable is attempted exactly as often as the policy says from one to five, and exactly five times above that; any other call once |
| Retry.RetryOutcomeUnique | src/failure.rs:332-366 | The description of the loop determines the answer and the list of failed attempts |
| Retry.AttemptTool | src/agent.rs:118-157 | Cancelled exactly by a cancel and timed out by the deadline; no effect is claimed before dispatch and on idempotent calls only, so on others never after a dispatch; nothing raised here is retried, and a reply is handed through |
| Retry.RootCause | src/failure.rs:264-282 | The bounded walk returns the record the link-following specification reaches |
| Retry.CycleIsLeft | src/failure.rs:264-282 | Two records that name each other as parent do not trap the walk: it ends after one link more than there are records |
| Provenance.ParentIsPrecedingFailure | src/agent.rs:283-300 | The parent of a record resolves to the terminal failure of the immediately preceding call, if that failed and its id is not used again |
| Provenance.FollowReachesBlockStart | src/failure.rs:264-282 | Following parents from a terminal failure, through ids not used again, ends at the start of its unbroken block of failures |
| Provenance.RootCauseIsBlockStart | src/failure.rs:264-282 | With distinct call ids the walk from any record ends, within its bound, at a record without parent: the start of its block |
| RootCauseExact.RootCauseExactly | src/failure.rs:264-282 | The walk is right for every record if and only if every repeat of a call id is harmless: all calls in between failed under the same id, no failure under it leads on to records of another id, and the first call under it has at least as many failed attempts, and just one unless a failure came before it |
| RepeatedIds.RunRootCauseExactly | src/agent.rs:230-349 | The same condition is exact for every finished agent run |
| RepeatedIds.RepeatedIdsDefeatTheWalk | src/failure.rs:264-282 | For any two ids, a finished run of the agent with calls under the first, the second and the first again whose walk goes wrong from some record |
| Agent.ExecuteCall | src/agent.rs:281-349 | One call is logged as its attempts were answered: each record has the fault's class and certainty, run, turn, tool, call, attempt and times, and one cause with the redacted text and the digest; output and verdict are those of the last answer; everything is published in order |
| Agent.RunTellsAnswers | src/agent.rs:296-349 | The same for every call of every finished run |
| Agent.ExecuteTask | src/agent.rs:196-424 | Turns are numbered from 1, each but the last asked for calls and had all of them carried out; at most `maxTurns` turns, and fewer only if the model gave a final answer or the last call was answered with a fault that waits for approval or was cancelled; if inference fails the bus still has the failures of all turns before |
| Agent.AskedExactly | src/agent.rs:238-285 | What a run is asked for: every call of every turn, by turns, and within a turn as the model listed them |
| Agent.RunStopsExactly | src/agent.rs:329-380 | In every finished run, on the answers alone: a call whose last attempt waits for approval or was cancelled is the last call, in the last turn, of a run that did not complete; and if fewer calls were made than asked for, the last one was such a call |
| Agent.RunProvenance | src/agent.rs:230-349 | In every finished run failure numbers are 1, 2, ... in log and bus order, parents are the preceding failed calls, and, with distinct ids, every walk ends at its block start |
| Agent.LostRunProvenance | src/agent.rs:230-349 | If inference fails, the failures published until then are numbered and linked in the same way |
| Agent.CallIsEffectSafe | src/agent.rs:286-294 | More than one attempt only for the five read-only capabilities, within the policy and five; any other name is dispatched at most once; every retried attempt was unavailable without effect; no false NoEffect |
| Agent.RunIsEffectSafe | src/agent.rs:238-380 | Every call of a finished run is effect safe, all dispatches together stay within the calls' limits, and a call that waits for approval or was cancelled is the last, in the last turn, with no dispatch after it |
| Agent.CallLeaksNothing | src/agent.rs:302-326 | Neither the output of a failed call nor any recorded cause contains an argument that cannot overlap the placeholder |
| Agent.AgentOutcomeMeaning | src/orchestration/workflow.rs:955-997 | Completed exactly when the run completed and no call failed; pending exactly when its last call waits for approval |
| Agent.ReportedFaultMeaning | src/orchestration/workflow.rs:955-997 | A failed outcome is the fault of the last failed call; without one it claims no certainty |
| Agent.ReportedFaultLeaksNothing | src/orchestration/workflow.rs:955-997 | The fault handed to the workflow, at any cut, contains no such argument of the failing call |
| ContextWindow.EstimateTokens | src/agent.rs:163-178 | The loop adds up the cost of all contents and calls |
| ContextWindow.TokensByWords | src/agent.rs:163-178 | The estimate is four tokens a text and four thirds of a token a word, less what rounding each text down takes off |
| ContextWindow.ContextWindow.Prune | src/agent.rs:180-194 | Keeps the first two messages and drops the least number of oldest turns after them that makes the rest fit, or all of them |
| ContextWindow.FewerTurnsAreLighter | src/agent.rs:187-192 | Dropping more never makes the conversation heavier, so the number dropped is an exact threshold |
| CancelMachine.ReturnsOnlyIfCancelled | src/failure.rs:401-410 | Waiting returns only when the flag is set, and the flag is set exactly when some cancel began |
| CancelMachine.NoLostWakeUp | src/failure.rs:382-410 | After one completed cancel no waiter sleeps un-notified and each has a step to take; before that, a set flag with an un-notified sleeper means a canceller is still about to notify |
| CancelMachine.StuckMeansAllOrNothing | src/failure.rs:382-410 | When nobody can move, every waiter has returned if and only if somebody cancelled |
| CancelMachine.ReturnsWithinThreeSteps | src/failure.rs:401-410 | Once the flag is set a waiter takes at most three more steps and has returned exactly when it took them |
| CancelToken.CancelToken.Cancel | src/failure.rs:392-395 | On return the flag is set and every sleeping waiter has been notified, with others interleaved anywhere |
| CancelToken.CancelToken.PollCancelled | src/failure.rs:401-410 | Ready only with the flag set; otherwise asleep, not yet notified, and no cancel has completed |
| HeartbeatMachine.AtMostOnce | src/heartbeat.rs:112-122 | In every interleaving each task's body is started at most once, and exactly once as soon as it left pending |
| HeartbeatMachine.StatusMovesForward | src/persistence/legacy.rs:160-238 | Rows keep id, type, payload and creation time, their status only moves from pending to running to completed, and completed rows never change |
| HeartbeatMachine.AlwaysShaped | src/persistence/legacy.rs:221-238 | In every run a row has a result and a completion time exactly if it is completed |
| HeartbeatAccount.AlwaysWorksThrough | src/heartbeat.rs:98-112 | In every run a pulse works through all that was pending when it listed the tasks, oldest first, or through nothing if listing failed |
| HeartbeatAccount.ScannedArePending | src/heartbeat.rs:98-108 | What a pulse reports as scanned is the number of tasks that were pending when it listed them |
| HeartbeatMachine.FinishedPulseIsBounded | src/heartbeat.rs:108-180 | A finished pulse dispatched at most as many actions as it scanned tasks |
| HeartbeatAccount.FinishedPulseCounts | src/heartbeat.rs:108-180 | At any moment of any run: the actions of a finished pulse are the number of tasks it took |
| HeartbeatAccount.NoTaskTakenTwice | src/persistence/legacy.rs:212-219 | No two pulses ever take the same task |
| HeartbeatAccount.FinishedPulsesAccount | src/heartbeat.rs:108-180 | At any moment, with other pulses still at work or not: the actions of the finished pulses add up to the number of tasks these pulses took |
| HeartbeatAccount.AllDoneAccount | src/heartbeat.rs:108-180 | Once all pulses are done that work is every task that left pending, and a task is left running exactly if writing its completion failed |
| HeartbeatMachine.AlwaysInv | src/heartbeat.rs:94-190 | In every reachable state a running row is being executed by exactly one pulse or lost its completion, and claims are conserved |
| Heartbeat.Database.CreateTask | src/persistence/legacy.rs:160-183 | Adds a pending row with this type, payload and time under a new id; a taken id is refused and nothing changes on any error |
| Heartbeat.Database.ListPendingTasks | src/persistence/legacy.rs:185-208 | Every pending task exactly once, oldest first |
| Heartbeat.ListingMeaning | src/persistence/legacy.rs:187-190 | Being such a listing means: the pending tasks, each once, in the order in which they were created |
| Heartbeat.Database.ClaimTask | src/persistence/legacy.rs:212-219 | True exactly if the row was pending, which then is running and otherwise as it was; else nothing changes |
| Heartbeat.Database.CompleteTask | src/persistence/legacy.rs:221-238 | Writes status, result and completion time on an existing row and leaves its other fields and all other rows; a failed write changes nothing |
| Heartbeat.HeartbeatEngine.PulseOnce | src/heartbeat.rs:94-180 | With other pulses and creations interleaved anywhere, the history stays a run of the protocol; the receipt carries the next tick, what this pulse scanned, and exactly the number of tasks it took; what it scanned was pending at one moment of that history |

## Left out

- Task bodies, threads, wake-ups and timers of the async runtime: a body is its outcome, chosen by `out`, by an interruption after a cancel, or by its timeout; the map from join ids to tasks is the identity here.
- WorkflowExecutor.Coordinator.Await: assumes that some started body ends eventually when neither a cancel nor the deadline comes first; a body that never ends keeps the real coordinator waiting.
- WorkflowExecutor.WorkflowExecutor.Run: whether bodies progress inside a start pass depends on the runtime's scheduler and is a parameter of the model.
- WorkflowExecutor.Coordinator.Propagate: the surroundings are not interleaved inside propagation; their steps touch only permits, bodies and tokens, which propagation does not read.
- ScheduleIndependence.ScheduleDoesNotMatter: the recorded prerequisite of a skip, sequence numbers and timestamps depend on timing and are not compared.
- WorkflowReport.ReportStatus: a cancelled status does not say that some task was cancelled, only that a cancel was seen.
- Redaction.RedactionExactly: for two or more arguments, values that straddle an end of the placeholder are excluded; whether they leak then depends on all the others (`CompanyLeaks`), and no exact condition is given. `RedactionRemoves` covers every value that is apart, whatever the others are.
- Retry.AttemptTool: the deadline's number of milliseconds is not part of the message; a dispatch that was entered counts as dispatched even if its handler did nothing yet.
- Agent.ExecuteTask: final response text, reasoning, message history, timing and the stored turn are not modelled; parsing of tool-call arguments is part of the model's answer; pruning is modelled on its own and does not influence what the model answers.
- Agent.RunProvenance: when inference fails the result is lost, so the theorem speaks of runs that return; what is left on the bus then is `LostRunProvenance`.
- RedactionText.RedactionKeepsRest: a value that overlaps the placeholder may be replaced together with a part of a placeholder put in before, so that the rest of that placeholder stays as text; with such values what is kept is told stage by stage (`RedactIsLastStage`).
- HeartbeatAccount.FinishedPulseCounts: counts every task a finished pulse took, also those whose completion could not be written, as the code does.
- Heartbeat.HeartbeatEngine.PulseOnce: the work of the task types (model probe, shell command, memory crumb, telemetry) and their texts are an arbitrary string; receipts in the database, broadcast and crumb ledger are not modelled.
- CancelMachine.NoLostWakeUp: assumes that a notification future is woken by any notification issued after its creation, which is what the runtime's notifier documents.
- Database: a failed statement changes nothing; timestamps are integers and rows of equal age come in any order.
- Digests are uninterpreted text, state names an enumeration, and the fixed failure texts of the executor are a configuration value (`Config.wording`).
- The event bus is an append-only list that is always attached; lag and loss on the receiving side are not modelled.
- Gateway, command line, streaming, HTTP inference, probe engine, vault client, session and approval stores, vector arithmetic, allowlists and path checks: input and output, or single-branch lookups.
