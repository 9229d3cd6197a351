# Verified model of the agent runtime

A Dafny model of the parts of the agent runtime where a mistake costs most: the durable side-effect protocol of
the agent loop, the task row behind it, the scheduling of sub-tasks by their dependencies, context truncation
and the message tree, and the in-memory queues and windows. What follows are contracts and
lemmas for all inputs, all runs and all interleavings of the model.

## How it is built

**Side effects.** `SideEffects.dfy` is a transition system: workers, resumed runs and people act on one
ledger table, and one step is one SQL statement, one handler start, one human decision or one crash. A statement
that raises may or may not have taken effect. The system carries a log of handler starts, of requests for
approval with their frozen batches, of what people have decided on request ids, and of the approvals that workers
have consumed.

`Discipline.dfy` says what the workers of a team may add to that log: a handler starts under the ledger exactly for
a side effect, a call that needs approval starts only after an approval of its batch has been consumed, requests
have new ids, and an approval is consumed only of the batch that was asked for under the id on which a person has
decided. People decide on ids only; that they have decided on exactly these calls is proved.
From a log on which every entry keeps to this follow, for the whole team at once, at most once for all starts of side
effects and the approval gate. The reasoning is rely and guarantee: `LedgerClient.dfy` puts a database object on top of the system whose every statement may be preceded
by any steps of others; whoever calls a statement has to show that its own entry is allowed, the other workers of
the team are relied on for theirs, and workers outside the team may do anything. Since everything is shown for
an arbitrary worker of the team, racing sessions of the same run are covered. `ToolPolicy.dfy` is the risk of tools
and the approval policy.

`AgentLoop.dfy` (Act, Observe), `Approval.dfy`, `Planning.dfy`, `PausedRuns.dfy` and `Harness.dfy` are the loop, its
pauses and their resumption, written as the source writes them: methods that update the run state, with loops and
early exits. What planners, tools, databases, other workers and people do is left open by nondeterministic
choice, so that a postcondition of `AgentLoopHarness.Run` or `AgentLifetime.Lifetime` holds for every behaviour of the
outside. What it says to a worker is kept in `World.told`: the planner's answers with the goal and the transcript they
were given to, stops, refusals of validation, how each attempt of a handler ended, granted claims, rows that were there
already and statements that raised. `CallAnswers.dfy` says what each call of a batch ends with and that this has a cause
in what was heard, in a start of the call's handler, or in its row; `LoopSteps.dfy` says what a step makes of the
planner's answer and that a run stops only for a reason that it was given. So an answer cannot be made up: a batch that
is answered but not run, or a run that stops on its own, breaks the contracts. Each method of the harness also says what its own log entries can be (`Since`): a step, a plan step or a
turn consumes no approval and starts no call that needs one; a run consumes at most the approval it was
given. `AgentLifetime.dfy` runs any number of sessions by any workers of the team, each from any checkpoint that is
good to resume, whoever has saved it, with any decision that is on the log; a crash cuts the run of the
system off after any step, so that what was done stays and a claim that was held stays too.
`Reconciliation.dfy`, `Redaction.dfy`, `Substitution.dfy` and `Characters.dfy` show that the two places that hand a human
ruling to the ledger ask for the same outcome, which needs idempotence of the redaction. `Snapshot.dfy` and
`StepRecords.dfy` are the checkpoint, `Routing.dfy` the split of a goal into sub-goals.

**The task row.** `TaskRow.dfy` is the transition system of one row of the task table under dealing, approving,
reconciling, cancelling, releasing, unguarded force-release and crashes; `TaskScheduler.dfy` has the scheduler
and the two resume endpoints as methods whose statements are its steps.

**Graphs, messages, queues.** `DagCycles.dfy` and `DagExecution.dfy` are the coordinator; `ContextWindow.dfy`
the truncation; `MessageTree.dfy` the parent-pointer tree; `EventBus.dfy`, `MessageBus.dfy` and `RateLimit.dfy`
are classes with histories.

## Where the code does not do what one would expect

The model follows the code; each of these is a lemma with a run or the exact condition.

- With executor retries a handler starts more than once per ledger key: at most once holds exactly for
  `retry == 0` (`Discipline.TeamAtMostOnce`, `SideEffects.RetriesRepeatTheHandler`).
- A cancellation accepted while the handler runs is safe if and only if the handler has polled it and nobody is about
  to release the row as waiting (`TaskRow.CancelKeptIff`); otherwise a run loses it (`TaskRow.CancelCanBeLost`).
- The claim of an approval or of a ruling looks at the status only. It resumes the checkpoint that the row holds if
  and only if the row still waits for the request or call that is answered, which the statement could test and does
  not (`TaskRow.ClaimResumesRowIff`, `TaskRow.LockRunsRowIff`); `TaskRow.StaleAnswer` is a run in which an old
  checkpoint runs again. The ledger still keeps its side effects to one start.
- The row does not always hold the checkpoint that was saved last: a step takes it away if and only if it is such a
  stale claim, or the rollback of one after another claim (`TaskRow.LastCheckpointLostIff`).
- The comment of `compact_main_path` says that the head does not move. It moves to the summary, and the kept
  messages leave the main path (`MessageTree.MessageTree.CompactMainPath`).
- `run_with_routing` reports success although sub-goals were never started, if and only if the first few sub-runs
  succeed and use up exactly all steps (`Routing.SuccessHidesSubGoalsIff`, `Routing.SuccessWithoutAllSubGoals`).
- A checkpoint gives a step record back as it was if and only if the record has no confidence, reasoning or metadata
  of its own and observes the action of its step (`StepRecords.StepRoundTrip`).
- A tool error with an empty text is shown as `Error: ` the first time and as "previous execution failed" when it is
  replayed from the ledger; every other stored outcome is replayed with the same text (`CallAnswers.ReplayAgrees`).
- A filtered receive puts what it set aside behind the rest of the queue, against the comment on FIFO order
  (`MessageBus.OrderKeptIff`).
- A refused client that waits exactly `Retry-After` gets through only if less than a second was left
  (`RateLimit.RetryAfterSuffices`).

## Model

| member | source | states |
|---|---|---|
| `Discipline.TeamAtMostOnce` | src/core/agents/engine/loop.py:328-415 | over every run of the system, with any other workers, statements, decisions and crashes, if the team keeps to the discipline and has a ledger: all its starts of a side effect under one (trace, call id), whichever worker made them, number at most `retry + 1` and run the tool and arguments the row was claimed with; with no retries no two of them share a key |
| `Discipline.LawfulGate` | src/core/agents/runtime/harness/harness.py:345-366 | every start of a call that needs approval by the team comes after the consumption of an approval of a batch with it, that after a person has decided to approve a request id, and that after the team has asked under this id for exactly this batch; an id names one batch |
| `Discipline.DecisionIsOnBatch` | src/core/agents/runtime/harness/harness.py:345-350 | a decision on the id of a pending request was made after the request, so it is one on exactly the frozen calls |
| `Discipline.AllowedStepIsLawful` | src/core/agents/engine/loop.py:328-332 | a step whose new entry is allowed when it is made keeps the discipline for the whole log, whoever makes it |
| `Discipline.LawfulPrefix` | src/core/agents/runtime/harness/harness.py:188-274 | a log cut off anywhere, by a crash, keeps the discipline |
| `SideEffects.LedgeredAtMostOnce` | src/core/agents/execution/ledger.py:68-105 | over every run of claims, starts, finishes, rulings, crashes and faults of any workers, the starts made under a granted claim number at most `retry + 1` per (trace, call id), always for the same worker and call and always with the tool and arguments the row was claimed with; with no retries at most once |
| `SideEffects.ReachableInv` | src/core/agents/engine/loop.py:328-415 | every reachable state: a granted claim has its row, is held by one worker, and no handler has started under a key without a row |
| `SideEffects.OutcomeWrittenOnce` | src/core/agents/execution/ledger.py:172-197 | from any point of any run on, rows stay, keep tool, arguments and account, and an outcome once written never changes, whoever writes later; the log only grows |
| `SideEffects.RetriesRepeatTheHandler` | src/core/agents/capabilities/skills/executor.py:100-132 | the bound is reached for every number of retries, so at-most-once holds only without retries |
| `LedgerClient.DBToolExecutionLedger.ClaimCall` | src/core/agents/execution/ledger.py:68-105 | the claim is answered `claimed` exactly if this call inserted the row, and then the worker has heard that it was granted; every other answer has its cause: a statement raised, the row is of another account or another call, or it was there already and says exactly what is answered; nothing of others is disturbed |
| `LedgerClient.DBToolExecutionLedger.FinishCall` | src/core/agents/execution/ledger.py:172-197 | it succeeds only if the row now has exactly this outcome; it is unavailable exactly if its statement raised, and has lost the row only to another outcome |
| `LedgerClient.DBToolExecutionLedger.Resolve` | src/core/agents/execution/ledger.py:113-170 | it succeeds if and only if the row has the outcome asked for, by this or an earlier ruling, reports a different outcome if and only if the row has another one, and a missing row if and only if there is none |
| `LedgerClient.RulingAsks` | src/core/agents/execution/ledger.py:113-135 | a ruling "failed" asks for a failed row with a text that is never empty, "completed" for a completed row with the given content, which it needs; anything else for nothing |
| `ToolOutput.WrappedIsNoError` | src/core/agents/capabilities/skills/security.py:49-51 | wrapped output never passes for an error, whatever it contains, and an error text always does |
| `ToolOutput.WrappedHolds` | src/core/agents/capabilities/skills/security.py:49-51 | wrapped output holds the content between marks that do not depend on it, so that different contents stay different |
| `ToolPolicy.WhoIsGated` | src/core/agents/runtime/harness/approval.py:125-128 | which names and risks need approval: an exemption beats a requirement, a requirement beats the risk, an unknown tool counts as destructive; side effects of the ledger are the known tools that write or destroy |
| `ToolPolicy.DefaultGatesSideEffects` | src/core/agents/runtime/harness/approval.py:79-87 | by default exactly the side effects of the ledger and the calls of unknown tools need approval |
| `CallAnswers.SuccessIsOutput` | src/core/agents/engine/loop.py:308-488 | an answer that is no error and no cancellation notice is the wrapped output of the call's own handler, which has started since, or what was stored with an earlier completion of the same call; it is never uncertain |
| `CallAnswers.ReplayAgrees` | src/core/agents/engine/loop.py:349-378 | once the outcome of a call is stored, every later claim of it is answered with the same text if and only if that was not an empty error, which is replayed with a text of its own; a stored failure is replayed as an error in any case |
| `AgentLoop.Act.ExecutePrevalidated` | src/core/agents/capabilities/skills/executor.py:100-132 | between one and `retry + 1` starts, every one of this call and with the ledger flag that the tool asks for, and as many attempts; all but the last were to be retried, and the reply is that of the last one; a claim is kept and counts its attempts |
| `AgentLoop.Act.ExecuteOne` | src/core/agents/engine/loop.py:308-488 | the handler runs exactly if neither the user nor validation nor the registry nor, for a side effect, the ledger keeps it from running, and then between one and `retry + 1` times in all; whatever the call ends with has its cause in what the worker has heard, in a start of its handler since, or in its row, which also decides whether the call is uncertain; a call that was not run has no own handler start; a ledgered success is exactly the stored content |
| `AgentLoop.Act.HoldBack` | src/core/agents/engine/loop.py:310-336 | what ends a call before the ledger is asked: the user's stop, an unknown tool or a refusal of validation that was really heard; otherwise nothing was heard and the tool is known |
| `AgentLoop.Act.ClaimAndRun` | src/core/agents/engine/loop.py:328-398 | a side effect runs exactly if its claim was granted; any other answer of the ledger is shown and starts nothing |
| `AgentLoop.Act.RunFree` | src/core/agents/engine/loop.py:410-448 | a call without a ledger runs, unhindered, and is answered with what its handler ended with: a result wrapped, everything else as an error |
| `AgentLoop.Act.AnswerFromLedger` | src/core/agents/engine/loop.py:349-398 | the exact text shown for a claim that is not granted: the stored content, the stored error as an error, or why the claim failed; only a running row stops the batch |
| `AgentLoop.Act.RunLedgered` | src/core/agents/engine/loop.py:410-488 | a granted call starts its handler between one and `retry + 1` times, never without the ledger, and gives up its claim; its answer is determined by the reply and by what was stored: a stored answer has the row with exactly this outcome, completed for a result and failed for a tool error |
| `AgentLoop.Act.StoreOutcome` | src/core/agents/engine/loop.py:450-477 | a result is stored as a completion with the wrapped content, a tool error as a failure with its text, nothing else is stored; if it could not be stored, the statement raised or the row has another outcome |
| `AgentLoop.Act.ReportOutcome` | src/core/agents/engine/loop.py:461-488 | the answer from the reply and from what was stored; the call becomes uncertain exactly if the handler raised unexpectedly or its outcome could not be stored |
| `AgentLoop.Act.Run` | src/core/agents/engine/loop.py:268-285 | the answers are those of a prefix of the calls, same ids, same order; it is all of them unless the last one is uncertain; every answer has its cause as in `ExecuteOne`, and so has an exception; own log entries are handler starts of calls of this batch only, under the ledger exactly for side effects; an unknown tool is why it raises |
| `AgentLoop.Observe.Run` | src/core/agents/engine/loop.py:542-590 | the exact new transcript, stop reason, final answer and error count: a step in which all calls fail counts, one in which none fails resets, a mixed one leaves it |
| `Approval.CreateRequest` | src/core/agents/runtime/harness/approval.py:130-162 | a request exists if and only if a call of the batch is gated, an unknown tool counting as destructive, and it lists every call of the batch in order with its gate |
| `Discipline.ApprovalClears` | src/core/agents/runtime/harness/harness.py:352-366 | a consumed approval clears all calls of its frozen message from then on |
| `PausedRuns.LiveLater` | src/core/agents/runtime/harness/harness.py:413-517 | a paused run stays resumable whatever others do: transcript, frozen batch and approval stay good as the table and the log grow |
| `PausedRuns.CutBeforeUncertain` | src/core/agents/engine/planning/react.py:56-72 | with unique ids the batch is frozen exactly before the uncertain call |
| `PausedRuns.StillUncertain` | src/core/agents/runtime/harness/harness.py:478-483 | a batch that stops again after a ruling is frozen with all answers so far and its new uncertain call |
| `PausedRuns.JoinAnswers` | src/core/agents/runtime/harness/harness.py:473-490 | the answers before, the ruling and the answers after fit the calls of the message one to one |
| `Planning.BuildPlanSteps` | src/core/agents/engine/planning/plan_execute.py:112-130 | one pending step per line, in order |
| `Planning.CurrentOfShape` | src/core/agents/engine/planning/plan_execute.py:44-53 | the step found by the two searches is the one after the finished ones |
| `Planning.SettleStep` | src/core/agents/engine/planning/plan_execute.py:62-79 | an answer finishes the current step and the run only if it was the last one; an abort fails it; anything else leaves the plan; the shape DONE*, current, PENDING* is kept |
| `Harness.AgentLoopHarness.Think` | src/core/agents/engine/planning/react.py:26-29 | the planner is asked with the goal and the transcript of the run, and its answer decides the message and the stop reason; none without a stop reason only from a planner that may answer nothing |
| `Harness.AgentLoopHarness.Record` | src/core/agents/engine/planning/react.py:75-78 | a message with all its answers is appended as one group, and they are counted as in `Observe.Run`; the run ends with an answer exactly for a non-blank message without calls |
| `Harness.AgentLoopHarness.AfterBatch` | src/core/agents/engine/planning/react.py:56-78 | a finished batch is recorded whole with answers that have their causes, an uncertain one is frozen before its uncertain call and the transcript left |
| `Harness.AgentLoopHarness.ActOn` | src/core/agents/engine/planning/react.py:36-76 | it stops for approval if and only if a call is gated, and then all it has done is to ask for exactly this batch under a new id; any other batch is run: it is recorded with an answer to every call that has its cause, frozen at an uncertain call, or left out because one of its calls raised |
| `Harness.AgentLoopHarness.RunReActStep` | src/core/agents/engine/planning/react.py:24-80 | the planner was asked for this goal with this transcript, and the step has done with the answer what it must: nothing, record a final message, ask for approval, or run the batch; the exact stop reason and error count; no approval is consumed and no call that needs one starts |
| `Harness.AgentLoopHarness.RunPlanStep` | src/core/agents/engine/planning/plan_execute.py:34-81 | the same for the goal of the current plan step; an answer finishes that step, an abort fails it, anything else leaves it in progress; only an answer to the last step ends the run; the goal is restored and the plan keeps its shape |
| `Harness.JoinErrorsAppend` | src/core/agents/engine/planning/plan_execute.py:133-141 | the result of a failed plan step: the contents of all errors of its batch in order, one per line, and nothing else |
| `Harness.AgentLoopHarness.RunApproved` | src/core/agents/runtime/harness/harness.py:362-397 | it needs a decision to approve that a person has made on the id under which exactly these calls were asked for, consumes this one and no other, and after that runs the batch: every call of it ends for a cause since the approval; the batch is recorded, frozen, or left out if it raises |
| `Harness.AgentLoopHarness.RejectBatch` | src/core/agents/runtime/harness/harness.py:367-375 | a rejection answers every call with the same error |
| `Harness.AgentLoopHarness.DecideBatch` | src/core/agents/runtime/harness/harness.py:345-397 | an approval is consumed and its batch run since then; a rejection starts nothing and answers every call with its error |
| `Harness.AgentLoopHarness.ResumeApproval` | src/core/agents/runtime/harness/harness.py:337-404 | refused exactly without a decision for this request, and then nothing changes; a decision to approve is consumed, with the calls of the frozen message, and after that the batch is run, every answer with its cause; a rejection starts no handler, touches no ledger row and answers every call with its error; the run stays good in every case |
| `Harness.AgentLoopHarness.SettleUncertain` | src/core/agents/runtime/harness/harness.py:441-465 | the ledger agrees exactly if the row has the outcome that the ruling asks for; it does not without a ledger, for a malformed ruling, if a statement raised, or if the row has not that outcome |
| `Harness.AgentLoopHarness.ContinueBatch` | src/core/agents/runtime/harness/harness.py:477-496 | the calls after a completed one run under the old approval, each ending for a cause; nothing is recorded before the batch is whole, and then it starts with the answers so far |
| `Harness.AgentLoopHarness.SkipRest` | src/core/agents/runtime/harness/harness.py:484-496 | after a failure the rest of the batch is answered with errors and not run |
| `Harness.AgentLoopHarness.AfterRuling` | src/core/agents/runtime/harness/harness.py:467-510 | after a failed ruling the exact recorded batch and an unchanged world; after a completed one the rest of the batch is run |
| `Harness.AgentLoopHarness.ResumeReconciliation` | src/core/agents/runtime/harness/harness.py:413-517 | a missing or wrong ruling changes nothing; it goes on only if the row has the outcome that the ruling asks for, and is refused otherwise; a ruling "failed" starts nothing and records the answers so far, the ruling's error and one error for every later call; after "completed" the later calls are run, and end for a cause each |
| `Harness.AgentLoopHarness.AfterStep` | src/core/agents/runtime/harness/workflow.py:113-139 | feedback is appended and keeps the transcript paired; a violated constraint comes before the time budget |
| `Harness.AgentLoopHarness.MayStep` | src/core/agents/runtime/harness/harness.py:188-207 | a run that may not go on has heard why, or has used up its steps |
| `Harness.AgentLoopHarness.Turn` | src/core/agents/runtime/harness/harness.py:188-274 | a turn takes exactly one step, with what `RunReActStep` or `RunPlanStep` says of it, and raises the step counter by one up to the limit, or takes none and changes nothing but the stop reason; a stop reason was given by the outside since the turn began or a limit is reached; an exception comes from a call of the batch the planner replied with; no approval is consumed |
| `Harness.AgentLoopHarness.Begin` | src/core/agents/runtime/harness/harness.py:163-187 | what a decision or a ruling that comes with a run does before the first turn: an approval is consumed and its batch run, a rejection recorded, a ruling obeyed as in `ResumeReconciliation`; without one that fits nothing changes |
| `Harness.AgentLoopHarness.Run` | src/core/agents/runtime/harness/harness.py:133-335 | every run ends; with a planner that always replies it ends with a stop reason; steps never pass the limit; APPROVAL_REQUIRED and EXECUTION_IN_DOUBT hold exactly with their pending record, also after a refused resume, which changes nothing; the transcript stays paired and faithful and only grows; a success has a non-blank answer and, for a plan, every step done; its own log entries are at most the approval it was given and starts of calls that need none or are of the approved batch, so a rejection starts none over the whole run; at most once and the gate hold for the whole team; a stop reason was given: by the planner's answer to a transcript that extends the one the run began with, by an objection that was heard, by the limits, or by a pause; an exception comes from a call of a batch that was resumed or replied with; a matching approval is consumed, a rejection and a ruling "failed" are in the transcript |
| `Harness.RulingShown` | src/core/agents/runtime/harness/reconciliation.py:61-68 | a ruling the ledger agreed to is shown as stored, or as an error |
| `AgentState.FaithfulGrows` | src/core/agents/engine/loop.py:349-366 | a transcript whose ledgered answers are the stored ones stays so: every later replay would give the same content |
| `AgentState.FaithfulPaired` | src/core/agents/runtime/harness/harness.py:379-394 | such a transcript has after every assistant message exactly one answer per call, same ids, same order |
| `AgentState.FaithfulConcat` | src/core/agents/engine/loop.py:549-560 | transcripts are extended by whole groups |
| `AgentLifetime.RunAgentMode` | src/core/agent_task/run_goal.py:341-463 | a session runs the harness on its checkpoint and reports the status its result asks for; it saves a checkpoint only of a paused run, exactly the state of the run, and it is good to resume; its decision is taken as in `Run`; a waiting status only without a seen cancellation; it consumes no approval but the one its decision gives on the batch of its checkpoint |
| `AgentLifetime.Session` | src/core/agent_task/run_goal.py:341-463 | a session of any worker of the team that holds no claim, with any decision that people have put on the log or none; if it crashes after any of its steps, the log keeps the discipline and no checkpoint is saved |
| `AgentLifetime.Lifetime` | src/core/agent_task/run_goal.py:341-463 | over any number of sessions by any workers of the team, from any checkpoints that are good to resume, whoever has saved them, with any decisions on the log, crashes after any step and racing workers: at most once for every side effect of the team, no call that needs approval before a person has approved its batch, stored outcomes stay, and every checkpoint saved has a paired transcript within the step limit |
| `AgentLifetime.PartsStayGood` | src/core/agents/state/snapshot.py:184-278 | every checkpoint stays good to resume whatever happens after it was saved |
| `TaskStatuses.FinalStatus` | src/core/agent_task/run_goal.py:457-463 | a seen cancellation always cancels; without one a run waits exactly if it paused, and is a success exactly if its result is one |
| `Reconciliation.ParsedIsValid` | src/core/agents/runtime/harness/reconciliation.py:30-59 | a decision that passes validation has a stripped, non-empty call id, one of the two verdicts, and a result with a completion |
| `Reconciliation.ReadsBack` | src/core/agents/runtime/harness/reconciliation.py:30-59 | every such decision written out reads back as itself |
| `Reconciliation.RulingSays` | src/core/agents/runtime/harness/reconciliation.py:61-68 | a ruling is shown as an error exactly if it does not say completed, and then as its redacted result, wrapped |
| `Reconciliation.StoredDecision` | src/core/agents/runtime/harness/reconciliation.py:70-81 | a decision read back from its stored form is the decision with its reason redacted |
| `Reconciliation.DoubleResolveAgrees` | src/core/agents/runtime/harness/harness.py:446-460 | the endpoint and the resumed run ask the ledger for the same outcome, for every valid decision |
| `Reconciliation.RuleTwice` | src/api/v1/endpoints/agent.py:394-407 | after a first success the second ruling never ends with a different outcome, whatever others do in between |
| `Redaction.RedactIdempotent` | src/core/agents/capabilities/skills/security.py:15-18 | redacting a plain string twice with the keywords of the source is redacting it once |
| `Redaction.RedactLeavesNoSecret` | src/core/agents/capabilities/skills/security.py:45-45 | after redaction with the keywords of the source the pattern matches nowhere but at markers |
| `Redaction.BearerGoes` | src/core/agents/capabilities/skills/security.py:15-18 | after a keyword and a separator, `bearer` in any case with white space and the value behind it is replaced by one marker, up to the end of that value |
| `Redaction.ValueGoes` | src/core/agents/capabilities/skills/security.py:15-18 | any other value after a keyword and a separator is replaced as a whole, up to the first delimiter or the end |
| `Redaction.CharacterStays` | src/core/agents/capabilities/skills/security.py:45-45 | a character at which no such group starts stays |
| `Redaction.TextStays` | src/core/agents/capabilities/skills/security.py:45-45 | a text in which no such group starts anywhere is unchanged |
| `Redaction.SourceIsSane` | src/core/agents/capabilities/skills/security.py:15-18 | the keywords of the source are free of prefixes, and none starts inside the marker |
| `Redaction.PythonLexiconFits` | src/core/agents/capabilities/skills/security.py:15-18 | the white space and case folding of the regular-expression engine satisfy what the two results need, whatever counts as a word character |
| `Redaction.InlineSecretLawful` | src/core/agents/capabilities/skills/security.py:15-18 | the pattern's matches are bounded, local, nested and start at a delimiter, and the marker is taken whole |
| `Substitution.ReplaceIdempotent` | src/core/agents/capabilities/skills/security.py:45-45 | substitution by a marker is idempotent for every lawful pattern |
| `Snapshot.TruncateTwice` | src/core/agents/state/snapshot.py:47-50 | a text within the limit stays; any other keeps its start up to the limit, gets a fixed end and is still over the limit, so that cutting it again changes nothing |
| `Snapshot.StopRoundTrip` | src/core/agents/state/models.py:32-49 | every stop reason is found again by its value |
| `Snapshot.StatusRoundTrip` | src/core/agents/engine/types.py:72-79 | every plan status is found again by its value |
| `Snapshot.DeserializeState` | src/core/agents/state/snapshot.py:184-278 | it fails exactly on an unknown enumeration value of the stop reason, the plan or a step record, and otherwise restores every part of the document |
| `Snapshot.ReadPlan` | src/core/agents/state/snapshot.py:260-272 | the plan of a readable document, step by step |
| `Snapshot.SerializedReadable` | src/core/agents/state/snapshot.py:40-117 | every serialised state can be read again, with its stop reason and plan |
| `Snapshot.SaveLoadSave` | src/core/agents/state/snapshot.py:40-117 | save, load, save gives the same document, and the loaded state has every part of the saved one; tool output may be cut, and step records come back as they were if and only if they have nothing that the document has no place for |
| `StepRecords.StepRoundTrip` | src/core/agents/state/snapshot.py:75-105 | a written step record can be read, reads back as itself if and only if it has no confidence, reasoning or metadata of its own and observes the action of its step, and written again gives the same form |
| `Snapshot.StepsRoundTrip` | src/core/agents/state/snapshot.py:213-245 | the same for the list of step records |
| `Routing.RunWithRouting` | src/core/agents/engine/runner.py:259-336 | the result is the fold over what the sub-goals would end with, whatever those that are not started would give; each started sub-run was a run for its own sub-goal, shown the answers of those before it, within the steps that were left, and its success is the planner's reply to that; no approval is consumed and no call that needs one starts |
| `Routing.RunSubGoal` | src/core/agents/engine/runner.py:338-369 | a sub-run keeps policy, strategy and world and stays within its own limit; it ends for a reason the outside has given it, a success with the planner's non-blank reply to a transcript that starts with its messages, after a step |
| `Routing.JoinAppend` | src/core/agents/engine/runner.py:318-335 | joined answers are all of them in order with separators between |
| `Routing.SubGoalShown` | src/core/agents/engine/runner.py:286-316 | a sub-run is shown what the parent was given, then the answers so far if there are any, and last its own goal |
| `Routing.SuccessHidesSubGoalsIff` | src/core/agents/engine/runner.py:286-335 | a routed run reports success with sub-goals that were never started if and only if, for some k below their number, the first k sub-runs succeed and use up exactly all steps |
| `Routing.SuccessWithoutAllSubGoals` | src/core/agents/engine/runner.py:286-335 | for every limit and number of sub-goals there are possible sub-runs, with answers, for which that happens |
| `TaskRow.SingleWorker` | src/jobs/task_scheduler.py:94-122 | over every interleaving at most one process handles or releases the row, and none while it is new or waiting |
| `TaskRow.FinishedForever` | src/jobs/task_scheduler.py:434-443 | from a finished row on, no run leaves the finished statuses and no handler starts |
| `TaskRow.SeenCancelIsKept` | src/jobs/task_scheduler.py:385-432 | a cancellation the running handler has seen is never lost |
| `TaskRow.CancelKeptIff` | src/jobs/task_scheduler.py:106-122 | from any state with one holder and a requested cancellation, no run brings the row back to waiting if and only if the handler has seen the request and nobody is about to release the row as waiting |
| `TaskRow.CancelCanBeLost` | src/jobs/task_scheduler.py:106-122 | a run in which an accepted cancellation is lost |
| `TaskRow.ResumesSavedCheckpoint` | src/api/v1/endpoints/agent.py:248-325 | every run resumes from a checkpoint that a run of the trace has saved |
| `TaskRow.ClaimResumesRowIff` | src/api/v1/endpoints/agent.py:208-276 | over every run with fresh checkpoints and fresh ids of the kind, a successful claim resumes the checkpoint that the row holds if and only if the row still waits for the request, or for a ruling the call, that is answered |
| `TaskRow.LockRunsRowIff` | src/jobs/task_scheduler.py:94-104 | a handler that gets the lock runs the checkpoint of the row if and only if the row still waits for the request or call of its claim |
| `TaskRow.LastCheckpointLostIff` | src/api/v1/endpoints/agent.py:301-316 | over every such run, a step takes the checkpoint that was saved last from the row if and only if it is a claim of a row that waits for something else by now, or a rollback of a row that has another claim by now |
| `TaskRow.LastCheckpointKept` | src/api/v1/endpoints/agent.py:301-316 | without such steps the row holds the last checkpoint all along |
| `TaskRow.FreshRunNames` | src/core/agents/runtime/harness/approval.py:156-162 | over every such run an id names one checkpoint, in the row and in every process |
| `TaskRow.StaleAnswer` | src/api/v1/endpoints/agent.py:431-446 | a run in which an approval or a ruling read before a newer pause makes the older checkpoint run again, also with fresh checkpoints and ids |
| `TaskScheduling.TaskTable.RunWithGuard` | src/jobs/task_scheduler.py:225-260 | it reports a start exactly if this process has the lock and runs the handler with its own data; a refusal leaves an endpoint to roll back, an exception leaves nothing |
| `TaskScheduling.TaskTable.TaskWrapper` | src/jobs/task_scheduler.py:253-371 | however the handler ends, the last thing the process does is its release, and it gives the row up; unless the release failed the row is then finished or waits for a decision |
| `TaskScheduling.TaskTable.ResolvePending` | src/api/v1/endpoints/agent.py:208-327 | each refusal exactly for its reason on the row that was read; a resumed run has exactly the data that was read with this decision; any other answer keeps no claim |
| `TaskScheduling.TaskTable.ClaimAndDeal` | src/api/v1/endpoints/agent.py:408-471 | after the claim, whatever raises or refuses, either this process handles the row with the data that was read or it is out of the way; it ends with the rollback of its claim exactly if the deal was refused, and a resume with the lock |
| `DagCycles.CycleSearch.Dfs` | src/core/agents/multi_agents/coordinator.py:539-549 | a clear answer leaves the finished nodes sorted by dependency, a found one shows a cycle, an exception a missing task |
| `DagCycles.HasCycle` | src/core/agents/multi_agents/coordinator.py:533-555 | it always ends; on a closed graph it answers true if and only if there is a cycle, self-loops included; on any graph each answer is right |
| `DagCycles.SortedAcyclic` | src/core/agents/multi_agents/coordinator.py:533-555 | a list of all tasks with dependencies first rules out cycles and missing tasks |
| `DagExecution.MultiAgentCoordinator.Collect` | src/core/agents/multi_agents/coordinator.py:457-462 | the last task with an id counts; the ids are exactly those of the list, each once, in the order of their first tasks |
| `DagExecution.MultiAgentCoordinator.StartLayer` | src/core/agents/multi_agents/coordinator.py:496-506 | the ready tasks are running and assigned round robin |
| `DagExecution.MultiAgentCoordinator.FinishLayer` | src/core/agents/multi_agents/coordinator.py:508-529 | each record says what its outcome was: a success completed with its answer and no error, an unsuccessful answer failed with it, a crash failed with its error text and no result; failed tasks count as completed, and exactly their pending dependents are skipped |
| `DagExecution.MultiAgentCoordinator.RunLayers` | src/core/agents/multi_agents/coordinator.py:477-531 | it ends; each task runs at most once, after all its dependencies have completed successfully; what has run is exactly the pending tasks whose dependencies all ran and succeeded; the rest is skipped |
| `DagExecution.MultiAgentCoordinator.ExecuteSequential` | src/core/agents/multi_agents/coordinator.py:287-308 | all tasks in order up to the first crash; an unsuccessful result still counts as completed |
| `DagExecution.MultiAgentCoordinator.ExecuteDag` | src/core/agents/multi_agents/coordinator.py:450-531 | which graphs run in layers, in sequence or not at all; every record of a task that ran says what its outcome was, as in `FinishLayer`, and in sequence completed with its answer or failed with its error text, and the coordinator has the same record filed; on an acyclic graph a pending task is skipped if and only if a path of dependencies leads to one that failed or was not pending |
| `DagExecution.LayersAreReported` | src/core/agents/multi_agents/coordinator.py:508-521 | what a layered execution files says what the outcomes were, in words that do not name its own step |
| `DagExecution.SequenceIsReported` | src/core/agents/multi_agents/coordinator.py:287-308 | the same for the execution in sequence, where an unsuccessful answer still completes its task |
| `DagExecution.RoundRobin` | src/core/agents/multi_agents/coordinator.py:497-499 | the agents take turns: the first tasks of a layer go to the agents in order, and then the turns repeat |
| `DagExecution.RunSetUnique` | src/core/agents/multi_agents/coordinator.py:477-531 | on an acyclic graph there is one set of tasks to run |
| `DagExecution.SkippedIffBlocked` | src/core/agents/multi_agents/coordinator.py:484-494 | skipped if and only if some transitive dependency blocks it |
| `DagExecution.BlockedDoesNotRun` | src/core/agents/multi_agents/coordinator.py:522-529 | a failure anywhere below keeps a task from running |
| `DagExecution.NotRunIsBlocked` | src/core/agents/multi_agents/coordinator.py:484-494 | no deadlock: a pending task that does not run has a failed or non-pending transitive dependency |
| `ContextWindow.TruncationSound` | src/core/agents/state/context/manager.py:142-231 | for any messages and limit: order kept, whole groups, no tool message without its assistant message, and within the limit if and only if the first system message is |
| `ContextWindow.CostUnion` | src/core/agents/state/context/tokenizer.py:65-79 | counting overlapping groups separately counts at least what is kept |
| `ContextWindow.CallsCount` | src/core/agents/state/context/tokenizer.py:65-79 | tool calls are paid for by their text, on top of the content |
| `ContextWindow.WalkKeepsGroups` | src/core/agents/state/context/manager.py:175-206 | the backward walk keeps whole groups within the budget |
| `ContextWindow.WalkKeepsSuffix` | src/core/agents/state/context/manager.py:175-206 | on a paired transcript with fresh ids the walk keeps a suffix, cut at the lowest position down to which everything fits |
| `ContextWindow.PairedTruncation` | src/core/agents/state/context/manager.py:142-231 | on such a transcript the result is exactly the system message and the part after the cut, rounded up to a batch boundary |
| `ContextWindow.TruncationKeepsPairs` | src/core/agents/state/context/manager.py:142-231 | so truncation at any limit gives a paired transcript again |
| `ContextWindow.CleanupOfSuffix` | src/core/agents/state/context/manager.py:208-223 | the cleanup removes exactly the answers at the front of a suffix |
| `ContextWindow.ContextWindowManager.Split` | src/core/agents/state/context/manager.py:97-108 | the first system message, and all others in order |
| `ContextWindow.ContextWindowManager.IndexResults` | src/core/agents/state/context/manager.py:169-173 | the last tool message of every non-empty id |
| `ContextWindow.ContextWindowManager.GroupAt` | src/core/agents/state/context/manager.py:186-198 | a message and the last results of its calls |
| `ContextWindow.ContextWindowManager.KeepRecent` | src/core/agents/state/context/manager.py:175-206 | the loop computes the walk |
| `ContextWindow.ContextWindowManager.DropOrphans` | src/core/agents/state/context/manager.py:208-223 | the result does not depend on the order of the cleanup |
| `ContextWindow.ContextWindowManager.TruncateMiddle` | src/core/agents/state/context/manager.py:142-231 | the method computes the truncation the lemmas are about |
| `ContextWindow.ContextWindowManager.CompactIfNeeded` | src/core/agents/state/context/manager.py:34-63 | lists within the limit are left alone; the result fits if and only if the first system message does |
| `MessageTree.MessageTree.GetMainPath` | src/core/agents/state/message_tree.py:71-123 | it reads the main path and never reaches its cycle branch |
| `MessageTree.MessageTree.AllocateSeq` | src/core/chat/repository.py:275-296 | the next number, with the head as parent if there is one |
| `MessageTree.MessageTree.AppendMessage` | src/core/chat/repository.py:198-273 | the path is one row longer, numbers stay unique and below the next one, and no cycle arises |
| `MessageTree.MessageTree.BacktrackHead` | src/core/agents/state/message_tree.py:225-247 | any target: a row of the path leaves its prefix, a number without a row an empty path; numbering goes on above both |
| `MessageTree.MessageTree.PathNumbers` | src/core/agents/state/message_tree.py:159-171 | the numbers of the path, a dangling root included |
| `MessageTree.MessageTree.CompactMainPath` | src/core/agents/state/message_tree.py:126-222 | when nothing happens and when it raises, for any `keep_last_n`; otherwise the path is the part before the kept messages plus the summary, the head is the summary, and from the old head one reads the old path with the summary inserted |
| `MessageTree.KeptIff` | src/core/agents/state/message_tree.py:178-182 | which rows a compaction keeps: the last `n`, for zero all, for a negative number all but the first |
| `MessageTree.MessageTree.WriteSummary` | src/core/agents/state/message_tree.py:176-215 | the three writes keep the tree valid although a parent gets a larger number than its child |
| `MessageTree.TrailIsTrail` | src/core/agents/state/message_tree.py:98-120 | in a ranked tree the walk meets no number twice |
| `MessageTree.TrailUnique` | src/core/agents/state/message_tree.py:98-120 | a number has one path |
| `MessageTree.CompactedTree` | src/core/agents/state/message_tree.py:176-215 | ranks exist again after a compaction: a value between the row and its old parent |
| `EventBus.TraceStream.Reopen` | src/infra/streaming/trace_event_bus.py:61-71 | numbering goes on above what has been persisted |
| `EventBus.TraceStream.Publish` | src/infra/streaming/trace_event_bus.py:80-125 | numbers increase strictly, replay is the last events, no queue ever holds more than its size; a subscriber gets the event unless its queue is at its size, and then it is dropped with what it has |
| `EventBus.TraceStream.Subscribe` | src/infra/streaming/trace_event_bus.py:127-141 | the queue starts with the replayed events after the number; it fails exactly if they do not fit |
| `EventBus.TraceStream.Take` | src/infra/streaming/trace_event_bus.py:127-141 | a consumer gets the oldest queued event, and what it has taken and what is queued stay one gap-free stretch |
| `EventBus.SubscriberMissesNothing` | src/infra/streaming/trace_event_bus.py:107-116 | what a live subscriber has taken plus what is queued is every event since its start, once and in order |
| `EventBus.ResubscribeLosesNothing` | src/infra/streaming/trace_event_bus.py:127-141 | subscribing again after an event misses nothing if and only if all later events are still in the replay |
| `MessageBus.ReceiveLoop` | src/core/agents/multi_agents/bus.py:180-212 | a success returns the first message of the stream that meets the filter; the exact queue and list afterwards, also on a timeout |
| `MessageBus.ReceiveConserves` | src/core/agents/multi_agents/bus.py:180-212 | nothing is lost or doubled by a receive |
| `MessageBus.OrderKeptIff` | src/core/agents/multi_agents/bus.py:196-212 | a success keeps the sending order if and only if nothing was put aside or nothing is left behind it |
| `MessageBus.Mailbox.Send` | src/core/agents/multi_agents/bus.py:101-157 | each agent a message is for gets it once, an expired one nobody |
| `MessageBus.Mailbox.Receive` | src/core/agents/multi_agents/bus.py:159-212 | what was delivered stays queued, put aside, received or dropped, as a multiset |
| `MessageBus.Mailbox.DrainDeferred` | src/core/agents/multi_agents/bus.py:253-259 | what was put aside is queued again, or lost exactly if the agent is not registered |
| `MessageBus.Mailbox.Unregister` | src/core/agents/multi_agents/bus.py:68-77 | exactly the queued messages are dropped |
| `RateLimit.RateLimiter.BeforeRequest` | src/api/middleware/rate_limit.py:57-83 | refused if and only if as many as the limit were accepted in the window that ends now; an error exactly for a limit below one |
| `RateLimit.RateLimiter.Cleanup` | src/api/middleware/rate_limit.py:41-47 | what stays stored is exactly what counts in the window |
| `RateLimit.AtMostLimitPerWindow` | src/api/middleware/rate_limit.py:57-83 | over any history no closed window holds more accepted requests than the limit |
| `RateLimit.SpacedCount` | src/api/middleware/rate_limit.py:57-83 | times that are `max` places apart are more than a window apart, so a window holds at most `max` |
| `RateLimit.RetryAfterSuffices` | src/api/middleware/rate_limit.py:70-80 | waiting exactly the advertised seconds is enough if and only if less than a second was left |

## Left out

- HTTP, authentication, event streaming frames, language-model providers, tool loading, metrics, logging and alerts: plumbing around the modelled decisions.
- MySQL: each statement is one atomic step on a table; the unique keys of the ledger and of the trace id in the task table are taken as given.
- The arguments digest: modelled by the canonical text it hashes, so that different arguments have different digests.
- JSON encoding of checkpoints: documents are values; decoding undoes encoding. Tool inputs and durations of tool call records, the lifecycle state, the step limit and timestamps are not part of the documents.
- Redaction of dictionaries and lists, and of strings under the keys `arguments`, `input` and `payload`, which re-encodes JSON; the model has plain strings. The table of word characters is a parameter; any table will do.
- AgentLoop.Act.Run: calls of a batch without side effects run concurrently in the source; their answers do not depend on each other, so that the model runs them in a loop, and other workers may act before every statement anyway.
- AgentLoop.Act.ExecuteOne: truncation of long results, artifact offload (off by default) and redaction of results happen before the content that is stored and shown; the model starts from that content.
- Harness.AgentLoopHarness.Run: event publishing and hooks, which may raise, are left out, as are step records; a constraint stops with CONSTRAINT_VIOLATION.
- Writing successful results to short-term memory when observing, and the reflection provider, which only adds feedback.
- Snapshot.SaveLoadSave: tool inputs and durations, the lifecycle state and the step limit are not in the documents, which only copy them.
- Snapshot.DeserializeState: a missing key, which raises or takes a default.
- TaskRow.ClaimResumesRowIff: a ruling that the ledger refuses leads to another pause on the same call; such a run is not fresh, and there the two sides of the condition can differ.
- Malformed checkpoints: a pending record without its message or its call raises in the source; such records do not exist in the model's types or its invariant.
- `max_tool_calls`: the live path never checks it, so there is nothing to prove about it.
- Harness.AgentLoopHarness.Think: tool call ids are taken as unique within one reply, and feedback as system or user messages; the source checks neither. The planner is asked with the transcript as it is: memories, compaction and the folding of old results before that are left out.
- Planning.BuildPlanSteps: parsing the plan text into lines.
- TaskScheduling.TaskTable.ResolvePending: the first read raising, which ends the request before it has done anything.
- TaskRow.FinishedForever: the agent tools in `capabilities/tools/task.py` and `db_execute` write task rows without a guard and are not among the steps.
- The concurrency limit per task name: its check and the lock are not atomic, so no bound holds; the check may refuse at any time.
- DagExecution.MultiAgentCoordinator.ExecuteDag: plain strings as tasks, which get generated ids; the tasks of a layer run one after the other, since their outcomes are independent.
- ContextWindow.ContextWindowManager.CompactIfNeeded: summary compaction, which keeps the last ten messages whatever their groups, and the encoder, which is a parameter.
- MessageTree.MessageTree.AppendMessage: one trace with one writer; message columns other than role and content.
- EventBus.TraceStream.Publish: one stream of the bus, which is a dictionary of streams; a negative replay limit; pruning of expired traces; the persister.
- EventBus.TraceStream.Subscribe: the error for an unknown trace.
- MessageBus.Mailbox.Send: handlers, history and statistics; the bus is seen from one agent at a time.
- RateLimit.RateLimiter.BeforeRequest: the clock does not run backwards and times are exact; an address and a path are a pair, not a joined string.
