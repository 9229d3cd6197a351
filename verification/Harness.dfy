/**
 The harness around the agent loop: one run from a fresh state or from a checkpoint, with its pauses
 for approval and reconciliation and their resumption.

 What the planner answers, when a run is cancelled or stopped, what constraints and time budgets decide
 and what feedback is added is left open. A planner reply has unique tool call ids, and feedback is
 neither a tool message nor an assistant message.
 */
module Harness {
  import opened Options
  import opened ExecutionLedger
  import opened SideEffects
  import opened Discipline
  import opened LedgerClient
  import opened ToolOutput
  import opened ToolPolicy
  import opened AgentState
  import opened CallAnswers
  import opened AgentLoop
  import opened Approval
  import opened PausedRuns
  import opened Planning
  import opened LoopSteps
  import opened Redaction
  import opened Reconciliation

  datatype TurnEnd = NextTurn | LastTurn | TurnRaised(failure: Failure)

  datatype AgentLoopResult = AgentLoopResult(
    success: bool,
    finalAnswer: Option<string>,
    stopReason: Option<StopReason>,
    totalSteps: nat,
    pendingApproval: Option<ApprovalRequest>,
    pendingReconciliation: Option<PendingReconciliation>)

  datatype RunResult = RunEnded(result: AgentLoopResult) | TaskCancelled

  /** A result shows the request of a pending approval, without the frozen message. */
  function PublicApproval(a: Option<PendingApproval>): Option<ApprovalRequest> {
    if a.Some? then Some(a.value.request) else None
  }

  function PublicReconciliation(r: Option<PendingReconciliation>): Option<PendingReconciliation> {
    if r.Some? then Some(r.value.(frozen := None)) else None
  }

  /** Whether a paused run comes with a decision on what it waits for. */
  predicate HasDecision(a: Option<PendingApproval>, r: Option<PendingReconciliation>,
                        approval: Option<ApprovalDecision>, ruling: Option<Decision>) {
    if a.Some? then approval.Some? && approval.value.requestId == a.value.request.requestId
    else r.Some? ==> ruling.Some? && ruling.value.toolCallId == r.value.callId
  }

  /** An answer with something in it. */
  predicate HasAnswer(answer: Option<string>) {
    answer.Some? && !Blank(answer.value)
  }

  datatype ResumeResult = Resumed | Refused | ResumeRaised(failure: Failure)

  function FailureOf(r: ResumeResult): Option<Failure> {
    if r.ResumeRaised? then Some(r.failure) else None
  }

  /** The error contents among the results, one per line. */
  function JoinErrors(results: seq<Message>): string {
    if results == [] then ""
    else
      var rest := JoinErrors(results[1..]);
      if !IsError(results[0].content) then rest
      else if rest == "" then results[0].content
      else results[0].content + "\n" + rest
  }

  /** The contents of the errors among the results, in order, one per line. */
  lemma {:induction false} JoinErrorsAppend(results: seq<Message>, m: Message)
    ensures JoinErrors(results) == "" <==> !AnyError(results)
    ensures JoinErrors(results + [m])
         == if !IsError(m.content) then JoinErrors(results)
            else if !AnyError(results) then m.content
            else JoinErrors(results) + "\n" + m.content
    decreases |results|
  {
    hide IsError;
    ErrorsHaveText(m.content);
    if results == [] {
      assert [m][1..] == [];
      assert [] + [m] == [m];
    } else {
      var rest := results[1..];
      JoinErrorsAppend(rest, m);
      assert results == [results[0]] + rest;
      assert (results + [m])[1..] == rest + [m];
      FirstOrLater(results);
      ErrorsHaveText(results[0].content);
    }
  }

  lemma ErrorsHaveText(content: string)
    ensures IsError(content) ==> content != ""
  {
  }

  lemma FirstOrLater(results: seq<Message>)
    requires results != []
    ensures AnyError(results) <==> IsError(results[0].content) || AnyError(results[1..])
  {
    hide IsError;
    if i :| 0 < i < |results| && IsError(results[i].content) {
      assert results[1..][i - 1] == results[i];
    }
  }

  function FailureResult(o: StepResult): string {
    if o.StepOutput? && JoinErrors(o.results) != "" then JoinErrors(o.results)
    else "Plan step terminated before completion"
  }

  /** Rows stay and keep their outcomes, and the log only grows. */
  ghost predicate Later(s: State, s': State) {
    Grows(s.table, s'.table) && s.log <= s'.log
  }

  ghost predicate LoggedSince(e: Event, log: seq<Event>, log': seq<Event>) {
    exists i :: |log| <= i < |log'| && log'[i] == e
  }

  lemma LoggedSinceLater(e: Event, a: seq<Event>, b: seq<Event>, c: seq<Event>)
    requires LoggedSince(e, a, b) && b <= c
    ensures LoggedSince(e, a, c)
  {
    var i :| |a| <= i < |b| && b[i] == e;
    assert c[i] == e;
  }

  class AgentLoopHarness {
    const act: Act
    const observer: Observe
    const policy: Option<ApprovalPolicy>
    const maxSteps: int
    const strategy: Strategy
    const lexicon: Lexicon
    /** Whether the planner never answers with nothing. */
    const plannerReplies: bool

    constructor (act: Act, observer: Observe, policy: Option<ApprovalPolicy>, maxSteps: int, strategy: Strategy,
                 lexicon: Lexicon, plannerReplies: bool)
      ensures this.act == act && this.observer == observer && this.policy == policy && this.maxSteps == maxSteps
      ensures this.strategy == strategy && this.lexicon == lexicon && this.plannerReplies == plannerReplies
    {
      this.act, this.observer, this.policy, this.maxSteps := act, observer, policy, maxSteps;
      this.strategy, this.lexicon, this.plannerReplies := strategy, lexicon, plannerReplies;
    }

    /** The worker is of the team and holds no claim, and the harness is built as the team's law says. */
    ghost predicate Guarded(me: int)
      reads act.world
    {
      act.Ready(me) && policy == act.world.law.policy
    }

    /** What the worker and the others have done since the world was in state `s`. */
    ghost predicate Since(me: int, trace: string, allowed: seq<ToolCall>, grant: Option<Grant>, s: State)
      reads act.world
    {
      Moved(act.world.law, me, trace, allowed, grant, s, act.world.s)
    }

    /** The decision that comes with a resume is one that a person has made. */
    ghost predicate Granted(st: AgentLoopState, d: Option<ApprovalDecision>)
      reads st, act.world
    {
      var grant, log := GrantOf(st.pendingApproval, d), act.world.s.log;
      grant.Some? ==> DecidedBefore(log, |log|, st.traceId, grant.value.decision)
    }

    ghost predicate LiveWith(st: AgentLoopState, stop: Option<StopReason>)
      reads act.world, st
    {
      LiveParts(act.world.law, act.ViewOf(st.traceId), act.world.s.log, stop, st.messages, st.pendingApproval,
                st.pendingReconciliation)
    }

    ghost predicate Live(st: AgentLoopState)
      reads act.world, st
    {
      LiveWith(st, st.stopReason) && PlanOk(strategy, st.plan, st.stopReason)
    }

    ghost predicate ClearedNow(trace: string, calls: seq<ToolCall>)
      reads act.world
    {
      BatchCleared(act.world.law, act.world.s.log, trace, calls)
    }

    /** Think, reduced to its answer: a message, or nothing with or without a stop reason. */
    method Think(st: AgentLoopState) returns (m: Option<Message>, ghost answer: PlannerAnswer)
      requires st.stopReason.None? && act.world.Valid()
      modifies act.world`told, st`stopReason
      ensures act.world.Valid() && act.world.told == old(act.world.told)
                                                     + [PlannerAnswered(st.traceId, st.goal, st.messages, answer)]
      ensures m == ReplyOf(answer) && st.stopReason == PlannerStop(answer)
      ensures m.Some? ==> st.stopReason.None? && m.value.Assistant? && UniqueIds(m.value.calls)
      ensures m.None? && st.stopReason.None? ==> !plannerReplies
    {
      hide SideEffects.Run, Lawful;
      var said := act.world.AskPlanner(st.traceId, st.goal, st.messages, plannerReplies);
      answer := said;
      match said {
        case Replies(message) => m := Some(message);
        case RepliesNothing => m := None;
        case PlannerRaises => st.stopReason := Some(LLM_ERROR_ABORT); m := None;
        case CancelledBefore => st.stopReason := Some(USER_CANCELLED); m := None;
      }
    }

    /** Runs part of a cleared batch. */
    method RunBatch(me: int, st: AgentLoopState, calls: seq<ToolCall>, ghost batch: seq<ToolCall>,
                    ghost allowed: seq<ToolCall>)
      returns (r: BatchResult)
      requires Guarded(me) && st.stopReason.None? && st.pendingReconciliation.None?
      requires Faithful(act.ViewOf(st.traceId), st.messages)
      requires ClearedNow(st.traceId, batch) && forall c :: c in calls ==> c in batch
      requires forall c :: c in calls && NeedsApproval(act.world.law, c) ==> c in allowed
      modifies act.world, st`toolCalls, st`stopReason, st`pendingReconciliation
      ensures Guarded(me) && old(act.world.history) <= act.world.history && old(act.world.told) <= act.world.told
      ensures Since(me, st.traceId, allowed, None, old(act.world.s))
      ensures Faithful(act.ViewOf(st.traceId), st.messages) && ClearedNow(st.traceId, batch)
      ensures GoodBatch(act.ViewOf(st.traceId), calls, r, st.stopReason, st.pendingReconciliation)
      ensures BatchExplained(act.DeskOf(me, st.traceId), calls, r, st.pendingReconciliation.Some?,
                             old(act.world.Now()), act.world.Now())
    {
      hide SideEffects.Run, Lawful, BatchExplained;
      ghost var view, log := act.ViewOf(st.traceId), act.world.s.log;
      r := act.Run(me, st, calls);
      FaithfulGrows(view, act.world.s.table, st.messages);
      BatchMoved(act.world.law, me, st.traceId, calls, allowed, old(act.world.s), act.world.s);
      BatchClearedLater(act.world.law, log, act.world.s.log, st.traceId, batch);
    }

    /** The results of a step have been counted, and have stopped the run or not. */
    ghost predicate Observed(st: AgentLoopState, results: seq<Message>, errors: nat)
      reads st
    {
      && st.consecutiveToolErrors == ErrorsAfter(results, errors)
      && st.stopReason == ToolStop(observer.abortOnToolError, observer.maxConsecutiveErrors, results,
                                   st.consecutiveToolErrors)
    }

    /** The same of the results that have been recorded behind a transcript and a message. */
    ghost predicate ObservedSince(st: AgentLoopState, ms: seq<Message>, errors: nat)
      reads st
    {
      |ms| < |st.messages| && Observed(st, st.messages[|ms| + 1..], errors)
    }

    /** Observes a message with all its answers. Only a message without calls ends the run with an answer. */
    method Record(st: AgentLoopState, message: Message, results: seq<Message>)
      requires message.Assistant? && st.stopReason.None? && st.pendingApproval.None? && st.pendingReconciliation.None?
      requires Faithful(act.ViewOf(st.traceId), st.messages) && ShownBy(act.ViewOf(st.traceId), message.calls, results)
      modifies st`messages, st`stopReason, st`finalAnswer, st`consecutiveToolErrors
      ensures LiveWith(st, st.stopReason)
      ensures st.messages == old(st.messages) + ([message] + results)
      ensures st.stopReason == Some(MODEL_FINAL) <==> message.calls == [] && !Blank(message.content)
      ensures st.finalAnswer == if st.stopReason == Some(MODEL_FINAL) then Some(message.content)
                                else old(st.finalAnswer)
      ensures if message.calls == []
              then st.stopReason == Some(if Blank(message.content) then LLM_ERROR_ABORT else MODEL_FINAL)
                   && st.consecutiveToolErrors == old(st.consecutiveToolErrors)
              else Observed(st, results, old(st.consecutiveToolErrors))
                   && ObservedSince(st, old(st.messages), old(st.consecutiveToolErrors))
    {
      hide ErrorsAfter, ToolStop, AnyError, AllErrors, Shown, IsError;
      ghost var view := act.ViewOf(st.traceId);
      observer.Run(st, message, results);
      CountedAs(results, old(st.consecutiveToolErrors));
      assert st.messages == old(st.messages) + ([message] + results);
      assert st.messages[|old(st.messages)| + 1..] == results;
      LiveRecorded(act.world.law, view, act.world.s.log, st.stopReason, old(st.messages), message, results);
    }

    /** Records a finished batch, or freezes it at its uncertain call. */
    method AfterBatch(st: AgentLoopState, message: Message, results: seq<Message>, ghost d: Desk, ghost a: Moment)
      requires message.Assistant? && UniqueIds(message.calls) && message.calls != []
      requires st.pendingApproval.None?
      requires Faithful(act.ViewOf(st.traceId), st.messages) && ClearedNow(st.traceId, message.calls)
      requires GoodBatch(act.ViewOf(st.traceId), message.calls, Results(results), st.stopReason,
                         st.pendingReconciliation)
      requires BatchExplained(d, message.calls, Results(results), st.pendingReconciliation.Some?, a, act.world.Now())
      modifies st`messages, st`stopReason, st`finalAnswer, st`consecutiveToolErrors, st`pendingReconciliation
      ensures LiveWith(st, st.stopReason)
      ensures st.messages == old(st.messages) + if old(st.pendingReconciliation).Some? then [] else [message] + results
      ensures st.pendingReconciliation.Some? <==> old(st.pendingReconciliation).Some?
      ensures st.stopReason != Some(MODEL_FINAL) && st.finalAnswer == old(st.finalAnswer)
      ensures BatchDone(d, message, [], None, old(st.messages), st.messages, st.pendingReconciliation, a,
                        act.world.Now())
      ensures if st.pendingReconciliation.Some?
              then st.consecutiveToolErrors == old(st.consecutiveToolErrors)
                   && st.stopReason == Some(EXECUTION_IN_DOUBT)
              else Observed(st, results, old(st.consecutiveToolErrors))
                   && ObservedSince(st, old(st.messages), old(st.consecutiveToolErrors))
    {
      hide AgentLoopHarness.Observed, AgentLoopHarness.ObservedSince, SideEffects.Run, Lawful, Faithful,
        BatchCleared, ShownBy, FirstIndex, AnswersExplained, UncertainAt, BatchDone, Shown;
      ghost var view := act.ViewOf(st.traceId);
      assert message.calls[0..] == message.calls && [] + results == results;
      if st.pendingReconciliation.Some? {
        var p := st.pendingReconciliation.value;
        CutBeforeUncertain(view, message.calls, results, p);
        var target := FirstIndex(results, p.callId);
        st.pendingReconciliation := Some(p.(frozen := Some(Frozen(message, results[..target]))));
        FrozenDone(d, message, [], results, st.messages, st.pendingReconciliation.value, a, act.world.Now());
      } else {
        ShownByPrefix(view, message.calls, results);
        RecordedDone(d, message, [], results, st.messages, a, act.world.Now());
        Record(st, message, results);
      }
    }

    /** The request for a batch is logged, and nothing else happens. */
    method AskFor(me: int, st: AgentLoopState, id: string, calls: seq<ToolCall>)
      requires Guarded(me) && LiveWith(st, None) && FreshRequest(act.world.s.log, |act.world.s.log|, id)
      modifies act.world
      ensures Guarded(me) && LiveWith(st, None) && old(act.world.history) <= act.world.history
              && old(act.world.told) <= act.world.told
      ensures act.world.s == old(act.world.s).(log := old(act.world.s.log) + [Asked(me, st.traceId, id, calls)])
      ensures Requested(act.world.law, act.world.s.log, |act.world.s.log|, st.traceId, id, calls)
      ensures Since(me, st.traceId, [], None, old(act.world.s))
    {
      hide SideEffects.Run, Lawful;
      ghost var view, log := act.ViewOf(st.traceId), act.world.s.log;
      act.world.Ask(me, st.traceId, id, calls);
      LiveLater(act.world.law, view, act.world.s.table, log, act.world.s.log, None, st.messages, None, None);
      assert RequestedAt(act.world.law, act.world.s.log, |act.world.s.log|, |log|, st.traceId, id, calls);
    }

    /** Stops for approval if a call of the batch is gated, else acts and observes. A step that stops for
        approval has started no handler: all it has done is to ask for its batch. */
    method ActOn(me: int, st: AgentLoopState, message: Message) returns (o: StepResult)
      requires message.Assistant? && UniqueIds(message.calls) && message.calls != []
      requires Guarded(me) && st.stopReason.None? && LiveWith(st, None)
      modifies act.world, st`messages, st`stopReason, st`finalAnswer, st`consecutiveToolErrors, st`toolCalls,
               st`pendingApproval, st`pendingReconciliation
      ensures Guarded(me) && old(act.world.history) <= act.world.history && old(act.world.told) <= act.world.told
      ensures Since(me, st.traceId, [], None, old(act.world.s))
      ensures old(st.messages) <= st.messages
      ensures LiveWith(st, StopAfter(o, st.stopReason)) && st.stopReason != Some(MODEL_FINAL)
      ensures o.StepRaised? ==> st.stopReason.None? && st.messages == old(st.messages)
      ensures o.StepOutput? ==> o.message == Some(message)
      ensures o.StepOutput? ==> Pausing(o.override) && (o.override.Some? ==> Pausing(st.stopReason))
      ensures StepDone(act.DeskOf(me, st.traceId), Replies(message), o, old(st.messages), st.messages,
                       st.pendingApproval, st.pendingReconciliation, old(act.world.Now()), act.world.Now())
      ensures st.consecutiveToolErrors == StepErrors(Replies(message), o, old(st.consecutiveToolErrors))
      ensures st.stopReason == StepStop(observer.abortOnToolError, observer.maxConsecutiveErrors, Replies(message), o,
                                        st.consecutiveToolErrors)
      ensures st.finalAnswer == old(st.finalAnswer)
      ensures o.StepOutput? && o.override == Some(APPROVAL_REQUIRED) <==>
              policy.Some? && HasGated(policy.value, act.registry, message.calls)
      ensures o.StepOutput? && o.override == Some(APPROVAL_REQUIRED) ==>
                && st.messages == old(st.messages) && st.pendingApproval.Some?
                && act.world.s == old(act.world.s).(log := old(act.world.s.log)
                                  + [Asked(me, st.traceId, st.pendingApproval.value.request.requestId, message.calls)])
    {
      hide SideEffects.Run, Lawful, Faithful, PlanAt, AllDone, ShownBy, Grows, BatchExplained, BatchDone, IsError,
        Describes, AnsweredBefore, Explained, AnyError, AllErrors, ErrorsAfter, ToolStop, RequestedAt;
      ghost var desk, start := act.DeskOf(me, st.traceId), act.world.Now();
      assert message.calls[0..] == message.calls;
      if policy.Some? {
        var freshId := act.world.NewRequestId();
        var request := CreateRequest(policy.value, act.registry, message.calls, st.traceId, st.step, freshId);
        if request.Some? {
          AskFor(me, st, freshId, message.calls);
          st.pendingApproval := Some(PendingApproval(request.value, message));
          return StepOutput(Some(message), [], Some(APPROVAL_REQUIRED));
        }
      }
      var batch := RunBatch(me, st, message.calls, message.calls, []);
      if batch.BatchRaised? {
        RaisedDone(desk, message, [], batch.failure, st.messages, st.pendingReconciliation, start, act.world.Now());
        return StepRaised(batch.failure);
      }
      AfterBatch(st, message, batch.messages, desk, start);
      o := StepOutput(Some(message), batch.messages,
                      if st.pendingReconciliation.Some? then Some(EXECUTION_IN_DOUBT) else None);
    }

    /** The planner was asked for this goal with this transcript, and the step has done with the answer what it must. */
    ghost predicate StepHeard(me: int, st: AgentLoopState, goal: string, answer: PlannerAnswer, o: StepResult,
                              ms: seq<Message>, a: Moment)
      reads st, act.world
    {
      && Heard(PlannerAnswered(st.traceId, goal, ms, answer), a, act.world.Now())
      && StepDone(act.DeskOf(me, st.traceId), answer, o, ms, st.messages, st.pendingApproval,
                  st.pendingReconciliation, a, act.world.Now())
    }

    /** The stop reason of a step, from what it has done. */
    ghost function StopOf(st: AgentLoopState, answer: PlannerAnswer, o: StepResult): Option<StopReason>
      reads st`consecutiveToolErrors
    {
      StepStop(observer.abortOnToolError, observer.maxConsecutiveErrors, answer, o, st.consecutiveToolErrors)
    }

    /** One ReAct step: think, then finish the run or act. */
    method RunReActStep(me: int, st: AgentLoopState) returns (o: StepResult, ghost answer: PlannerAnswer)
      requires Guarded(me) && st.stopReason.None? && LiveWith(st, None)
      modifies act.world, st`messages, st`stopReason, st`finalAnswer, st`consecutiveToolErrors, st`toolCalls,
               st`pendingApproval, st`pendingReconciliation
      ensures Guarded(me) && old(act.world.history) <= act.world.history && old(act.world.told) <= act.world.told
      ensures Since(me, st.traceId, [], None, old(act.world.s))
      ensures old(st.messages) <= st.messages
      ensures LiveWith(st, StopAfter(o, st.stopReason))
      ensures o.StepRaised? ==> st.stopReason.None?
      ensures o.StepOutput? ==> Pausing(o.override) && (o.override.Some? ==> Pausing(st.stopReason))
      ensures o.StepOutput? && o.message.None? ==>
                (st.stopReason.None? && !plannerReplies) || st.stopReason == Some(LLM_ERROR_ABORT)
                || st.stopReason == Some(USER_CANCELLED)
      ensures st.stopReason == Some(MODEL_FINAL) ==> HasAnswer(st.finalAnswer)
      ensures StepHeard(me, st, old(st.goal), answer, o, old(st.messages), old(act.world.Now()))
      ensures st.consecutiveToolErrors == StepErrors(answer, o, old(st.consecutiveToolErrors))
      ensures st.stopReason == StopOf(st, answer, o)
      ensures if st.stopReason == Some(MODEL_FINAL)
              then answer.Replies? && st.finalAnswer == Some(answer.message.content)
              else st.finalAnswer == old(st.finalAnswer)
    {
      hide SideEffects.Run, Lawful, Heard, BatchDone, Blank, AnyError;
      ghost var a, first := act.world.Now(), st.messages;
      var reply: Option<Message>;
      reply, answer := Think(st);
      ghost var b := act.world.Now();
      ghost var news := PlannerAnswered(st.traceId, st.goal, first, answer);
      HeardNew(news, a, b, [news]);
      if reply.None? {
        return StepOutput(None, [], None), answer;
      }
      if reply.value.calls == [] {
        Record(st, reply.value, []);
        return StepOutput(reply, [], None), answer;
      }
      o := ActOn(me, st, reply.value);
      HeardLonger(news, a, b, a, act.world.Now());
      StepWider(act.DeskOf(me, st.traceId), answer, o, old(st.messages), st.messages, st.pendingApproval,
                st.pendingReconciliation, b, act.world.Now(), a, act.world.Now());
    }

    /** The stop reason and the plan after a step on this plan. */
    ghost function StopWith(st: AgentLoopState, answer: PlannerAnswer, o: StepResult, plan: seq<PlanStep>)
      : Option<StopReason>
      reads st`consecutiveToolErrors
    {
      var stop := StopOf(st, answer, o);
      if strategy.ReAct? || plan == [] then stop else PlanStop(plan, CurrentStep(plan), stop)
    }

    ghost function PlanWith(st: AgentLoopState, answer: PlannerAnswer, o: StepResult, plan: seq<PlanStep>)
      : seq<PlanStep>
      reads st`consecutiveToolErrors
    {
      var k, said := CurrentStep(plan), if answer.Replies? then answer.message.content else "";
      if strategy.ReAct? || k >= |plan| then plan
      else PlanAfter(plan, k, StopOf(st, answer, o), said, FailureResult(o))
    }

    /** The stop reason, the plan and the answer are those of the step. */
    ghost predicate StepSettled(st: AgentLoopState, answer: PlannerAnswer, o: StepResult, plan: seq<PlanStep>)
      reads st
    {
      && st.stopReason == StopWith(st, answer, o, plan) && st.plan == PlanWith(st, answer, o, plan)
      && (st.stopReason == Some(MODEL_FINAL) ==> answer.Replies? && st.finalAnswer == Some(answer.message.content))
    }

    lemma NoPlanSettled(st: AgentLoopState, answer: PlannerAnswer, o: StepResult)
      requires (strategy.ReAct? || st.plan == []) && st.stopReason == StopOf(st, answer, o)
      requires st.stopReason == Some(MODEL_FINAL) ==> answer.Replies? && st.finalAnswer == Some(answer.message.content)
      ensures StepSettled(st, answer, o, st.plan)
    {
      hide StepStop;
    }

    /** What the planner is asked for: the goal of the run, or that of the current plan step. */
    function GoalOf(goal: string, plan: seq<PlanStep>): string {
      var k := CurrentStep(plan);
      if strategy.ReAct? || k >= |plan| then goal else StepGoal(plan[k])
    }

    /** One step of a plan: the ReAct step of the current plan step under that step's goal. */
    method RunPlanStep(me: int, st: AgentLoopState) returns (o: StepResult, ghost answer: PlannerAnswer)
      requires strategy.PlanExecute?
      requires Guarded(me) && st.stopReason.None? && Live(st)
      modifies act.world, st`messages, st`stopReason, st`finalAnswer, st`consecutiveToolErrors, st`toolCalls,
               st`pendingApproval, st`pendingReconciliation, st`goal, st`plan
      ensures Guarded(me) && old(act.world.history) <= act.world.history && old(act.world.told) <= act.world.told
      ensures Since(me, st.traceId, [], None, old(act.world.s))
      ensures old(st.messages) <= st.messages && st.goal == old(st.goal)
      ensures LiveWith(st, StopAfter(o, st.stopReason)) && PlanOk(strategy, st.plan, StopAfter(o, st.stopReason))
      ensures o.StepRaised? ==> st.stopReason.None?
      ensures o.StepOutput? ==> Pausing(o.override)
      ensures o.StepOutput? && o.message.None? ==>
                (st.stopReason.None? && !plannerReplies) || st.stopReason == Some(LLM_ERROR_ABORT)
                || st.stopReason == Some(USER_CANCELLED)
      ensures st.stopReason == Some(MODEL_FINAL) ==> HasAnswer(st.finalAnswer)
      ensures StepHeard(me, st, GoalOf(old(st.goal), old(st.plan)), answer, o, old(st.messages), old(act.world.Now()))
      ensures st.consecutiveToolErrors == StepErrors(answer, o, old(st.consecutiveToolErrors))
      ensures StepSettled(st, answer, o, old(st.plan))
    {
      hide SideEffects.Run, Lawful, Faithful, ReconciliationOk, ApprovalOk, BatchCleared, ShownBy, StepDone, Heard,
        StepStop, StepErrors, Grows, OwnEntries, Blank, StepGoal, BatchDone, LiveParts, ToolStop, PlanAfter,
        AgentLoopHarness.StepSettled, AgentLoopHarness.StopOf;
      if st.plan == [] {
        o, answer := RunReActStep(me, st);
        NoPlanSettled(st, answer, o);
        return;
      }
      ghost var at: nat :| PlanAt(st.plan, at);
      CurrentOfShape(st.plan, at);
      var k := CurrentStep(st.plan);
      st.plan := st.plan[k := st.plan[k].(status := IN_PROGRESS)];
      var goal := st.goal;
      st.goal := StepGoal(st.plan[k]);
      SameGoal(old(st.plan)[k], IN_PROGRESS);
      o, answer := RunReActStep(me, st);
      st.goal := goal;
      Settle(st, k, o, answer, old(st.plan));
    }

    /** The current plan step is settled unless the ReAct step raised. */
    method Settle(st: AgentLoopState, k: nat, o: StepResult, ghost answer: PlannerAnswer, ghost plan: seq<PlanStep>)
      requires strategy.PlanExecute? && PlanAt(st.plan, k) && st.plan[k].status == IN_PROGRESS
      requires k < |plan| && st.plan == plan[k := plan[k].(status := IN_PROGRESS)]
      requires LiveWith(st, StopAfter(o, st.stopReason))
      requires o.StepRaised? ==> st.stopReason.None?
      requires o.StepOutput? ==> Pausing(o.override) && (o.override.Some? ==> Pausing(st.stopReason))
      requires k == CurrentStep(plan) && st.stopReason == StopOf(st, answer, o)
      requires st.stopReason == Some(MODEL_FINAL) ==> answer.Replies? && st.finalAnswer == Some(answer.message.content)
      modifies st`plan, st`stopReason, st`finalAnswer
      ensures LiveWith(st, StopAfter(o, st.stopReason)) && PlanOk(strategy, st.plan, StopAfter(o, st.stopReason))
      ensures st.stopReason == old(st.stopReason) || (st.stopReason.None? && old(st.stopReason) == Some(MODEL_FINAL))
      ensures st.stopReason == Some(MODEL_FINAL) ==> st.finalAnswer == old(st.finalAnswer)
      ensures StepSettled(st, answer, o, plan)
    {
      if o.StepOutput? {
        SettleStep(st, k, FailureResult(o));
      }
    }

    method RunStep(me: int, st: AgentLoopState) returns (o: StepResult, ghost answer: PlannerAnswer)
      requires Guarded(me) && st.stopReason.None? && Live(st)
      modifies act.world, st`messages, st`stopReason, st`finalAnswer, st`consecutiveToolErrors, st`toolCalls,
               st`pendingApproval, st`pendingReconciliation, st`goal, st`plan
      ensures Guarded(me) && old(act.world.history) <= act.world.history && old(act.world.told) <= act.world.told
      ensures Since(me, st.traceId, [], None, old(act.world.s))
      ensures old(st.messages) <= st.messages && st.goal == old(st.goal)
      ensures LiveWith(st, StopAfter(o, st.stopReason)) && PlanOk(strategy, st.plan, StopAfter(o, st.stopReason))
      ensures o.StepRaised? ==> st.stopReason.None?
      ensures o.StepOutput? ==> Pausing(o.override)
      ensures o.StepOutput? && o.message.None? ==>
                (st.stopReason.None? && !plannerReplies) || st.stopReason == Some(LLM_ERROR_ABORT)
                || st.stopReason == Some(USER_CANCELLED)
      ensures st.stopReason == Some(MODEL_FINAL) ==> HasAnswer(st.finalAnswer)
      ensures StepHeard(me, st, GoalOf(old(st.goal), old(st.plan)), answer, o, old(st.messages), old(act.world.Now()))
      ensures st.consecutiveToolErrors == StepErrors(answer, o, old(st.consecutiveToolErrors))
      ensures StepSettled(st, answer, o, old(st.plan))
    {
      hide SideEffects.Run, Lawful, StepDone, Heard, StepStop, StepErrors, AgentLoopHarness.StepSettled,
        AgentLoopHarness.StopOf;
      if strategy.PlanExecute? {
        o, answer := RunPlanStep(me, st);
      } else {
        o, answer := RunReActStep(me, st);
        NoPlanSettled(st, answer, o);
      }
    }

    /** A rejected batch: every call is answered with an error, and no handler starts. */
    method RejectBatch(st: AgentLoopState, message: Message, rejection: string)
      requires message.Assistant? && message.calls != [] && st.stopReason.None?
      requires st.pendingApproval.None? && st.pendingReconciliation.None?
               && Faithful(act.ViewOf(st.traceId), st.messages)
      modifies st`messages, st`stopReason, st`finalAnswer, st`consecutiveToolErrors
      ensures LiveWith(st, st.stopReason) && st.stopReason != Some(MODEL_FINAL)
      ensures st.messages == old(st.messages) + ([message] + ErrorAnswers(message.calls, rejection))
      ensures ObservedSince(st, old(st.messages), old(st.consecutiveToolErrors))
    {
      ErrorsShown(act.ViewOf(st.traceId), message.calls, rejection);
      Record(st, message, ErrorAnswers(message.calls, rejection));
    }

    /** An approved batch: the approval is consumed, and its calls are cleared from then on. */
    method RunApproved(me: int, st: AgentLoopState, d: ApprovalDecision, message: Message) returns (r: ResumeResult)
      requires message.Assistant? && UniqueIds(message.calls) && message.calls != [] && st.stopReason.None?
      requires st.pendingApproval.None? && st.pendingReconciliation.None?
      requires Guarded(me) && Faithful(act.ViewOf(st.traceId), st.messages)
      requires d.approve
      requires AnsweredBefore(act.world.law, act.world.s.log, |act.world.s.log|, st.traceId, d, message.calls)
      modifies act.world, st`messages, st`stopReason, st`finalAnswer, st`consecutiveToolErrors, st`toolCalls,
               st`pendingReconciliation
      ensures Guarded(me) && old(act.world.history) <= act.world.history && old(act.world.told) <= act.world.told
      ensures Since(me, st.traceId, message.calls, Some(Grant(d, message.calls)), old(act.world.s))
      ensures LiveWith(st, st.stopReason) && st.stopReason != Some(MODEL_FINAL)
      ensures LoggedSince(Approved(me, st.traceId, d, message.calls), old(act.world.s.log), act.world.s.log)
      ensures !r.Refused? && (r.ResumeRaised? ==> st.stopReason.None? && st.messages == old(st.messages))
      ensures old(st.messages) <= st.messages
      ensures RanApproved(act.DeskOf(me, st.traceId), message, d, FailureOf(r), old(st.messages), st.messages,
                          st.pendingReconciliation, old(act.world.Now()), act.world.Now())
      ensures r.Resumed? && st.pendingReconciliation.None? ==>
                ObservedSince(st, old(st.messages), old(st.consecutiveToolErrors))
    {
      hide SideEffects.Run, Lawful, Faithful, ReconciliationOk, ApprovalOk, BatchCleared, ShownBy, PlanAt, AllDone,
        LoggedOnce, OthersOnly, BatchExplained, BatchDone, RanApproved, Grows, OwnEntries, BatchExplained,
        AnsweredBefore;
      ghost var view, s0, desk, a := act.ViewOf(st.traceId), act.world.s, act.DeskOf(me, st.traceId), act.world.Now();
      assert message.calls[0..] == message.calls;
      act.world.RecordApproval(me, st.traceId, d, message.calls);
      ghost var s1, grant, then_ := act.world.s, Some(Grant(d, message.calls)), act.world.Now();
      FaithfulGrows(view, s1.table, st.messages);
      ApprovalClears(act.world.law, s1.log, me, st.traceId, d, message.calls);
      ApprovalMoved(act.world.law, me, st.traceId, d, message.calls, s0, s1);
      var batch := RunBatch(me, st, message.calls, message.calls, message.calls);
      MovedLog(act.world.law, me, st.traceId, message.calls, None, s1, act.world.s);
      MovedOn(act.world.law, me, st.traceId, [], grant, message.calls, None, message.calls, grant, s0, s1, act.world.s);
      if batch.BatchRaised? {
        RaisedDone(desk, message, [], batch.failure, st.messages, st.pendingReconciliation, then_, act.world.Now());
        r := ResumeRaised(batch.failure);
      } else {
        AfterBatch(st, message, batch.messages, desk, then_);
        r := Resumed;
      }
      ApprovedRan(desk, message, d, FailureOf(r), old(st.messages), st.messages, st.pendingReconciliation, a, then_,
                  act.world.Now());
    }

    /** Resuming a run that waits for approval. A missing decision or one for another request is refused and
        changes nothing. */
    method ResumeApproval(me: int, st: AgentLoopState, decision: Option<ApprovalDecision>) returns (r: ResumeResult)
      requires Guarded(me) && Live(st) && st.pendingApproval.Some? && Granted(st, decision)
      modifies act.world, st`messages, st`stopReason, st`finalAnswer, st`consecutiveToolErrors, st`toolCalls,
               st`pendingApproval, st`pendingReconciliation, st`approvalHistory
      ensures Guarded(me) && old(act.world.history) <= act.world.history && old(act.world.told) <= act.world.told
      ensures Since(me, st.traceId, AllowedCalls(old(st.pendingApproval), None, decision),
                    GrantOf(old(st.pendingApproval), decision), old(act.world.s))
      ensures r.Refused? <==>
              decision.None? || decision.value.requestId != old(st.pendingApproval).value.request.requestId
      ensures r.Refused? ==> unchanged(st) && unchanged(act.world)
      ensures Live(st) && old(st.messages) <= st.messages
      ensures !r.Refused? ==> st.stopReason != Some(MODEL_FINAL) && st.pendingApproval.None?
      ensures r.ResumeRaised? ==> st.stopReason.None? && st.messages == old(st.messages)
      ensures !r.Refused? && !decision.value.approve ==>
                && r.Resumed? && unchanged(act.world)
                && var m := old(st.pendingApproval).value.message;
                st.messages == old(st.messages) + ([m] + ErrorAnswers(CallsOf(m),
                                                                      RejectionText(lexicon, decision.value.reason)))
      ensures !r.Refused? && decision.value.approve ==>
                && var m := old(st.pendingApproval).value.message;
                && LoggedSince(Approved(me, st.traceId, decision.value, CallsOf(m)), old(act.world.s.log),
                               act.world.s.log)
                && RanApproved(act.DeskOf(me, st.traceId), m, decision.value, FailureOf(r), old(st.messages),
                               st.messages, st.pendingReconciliation, old(act.world.Now()), act.world.Now())
      ensures r.Resumed? && st.pendingReconciliation.None? ==>
                ObservedSince(st, old(st.messages), old(st.consecutiveToolErrors))
      ensures !r.Refused? ==> st.approvalHistory == old(st.approvalHistory) + [decision.value.requestId]
    {
      hide SideEffects.Run, Lawful, RanApproved, LoggedSince, ErrorAnswers, RejectionText;
      if decision.None? || decision.value.requestId != st.pendingApproval.value.request.requestId {
        return Refused;
      }
      r := DecideBatch(me, st, st.pendingApproval.value, decision.value, RejectionText(lexicon, decision.value.reason));
    }

    /** The decision is consumed and the frozen batch approved or rejected. */
    method DecideBatch(me: int, st: AgentLoopState, pending: PendingApproval, d: ApprovalDecision, rejection: string)
      returns (r: ResumeResult)
      requires Guarded(me) && Live(st) && st.pendingApproval == Some(pending)
      requires d.requestId == pending.request.requestId
      requires d.approve ==> DecidedBefore(act.world.s.log, |act.world.s.log|, st.traceId, d)
      modifies act.world, st`messages, st`stopReason, st`finalAnswer, st`consecutiveToolErrors, st`toolCalls,
               st`pendingApproval, st`pendingReconciliation, st`approvalHistory
      ensures Guarded(me) && old(act.world.history) <= act.world.history && old(act.world.told) <= act.world.told
      ensures Since(me, st.traceId, if d.approve then CallsOf(pending.message) else [],
                    if d.approve then Some(Grant(d, CallsOf(pending.message))) else None, old(act.world.s))
      ensures Live(st) && old(st.messages) <= st.messages
      ensures !r.Refused? && st.stopReason != Some(MODEL_FINAL) && st.pendingApproval.None?
      ensures r.ResumeRaised? ==> st.stopReason.None? && st.messages == old(st.messages)
      ensures !d.approve ==>
                && r.Resumed? && unchanged(act.world)
                && st.messages == old(st.messages)
                                  + ([pending.message] + ErrorAnswers(CallsOf(pending.message), rejection))
      ensures d.approve ==>
                && LoggedSince(Approved(me, st.traceId, d, CallsOf(pending.message)), old(act.world.s.log),
                               act.world.s.log)
                && RanApproved(act.DeskOf(me, st.traceId), pending.message, d, FailureOf(r), old(st.messages),
                               st.messages, st.pendingReconciliation, old(act.world.Now()), act.world.Now())
      ensures r.Resumed? && st.pendingReconciliation.None? ==>
                ObservedSince(st, old(st.messages), old(st.consecutiveToolErrors))
      ensures st.approvalHistory == old(st.approvalHistory) + [d.requestId]
    {
      hide SideEffects.Run, Lawful, RanApproved, LoggedSince, Faithful, AnyError, AllErrors, ErrorsAfter, ToolStop,
        BatchDone, ShownBy, RejectionText;
      st.stopReason, st.pendingApproval := None, None;
      st.approvalHistory := st.approvalHistory + [d.requestId];
      if d.approve {
        DecisionIsOnBatch(act.world.law, act.world.s.log, st.traceId, d, pending.message.calls);
        r := RunApproved(me, st, d, pending.message);
      } else {
        RejectBatch(st, pending.message, rejection);
        r := Resumed;
      }
      PlanResumed(strategy, st.plan, old(st.stopReason), st.stopReason);
    }

    /** Asks the ledger for the ruled outcome. If it agrees, the ruling may be shown to the model. */
    method SettleUncertain(me: int, st: AgentLoopState, call: ToolCall, d: Decision) returns (agreed: bool)
      requires Guarded(me) && Live(st) && d.toolCallId == call.id
      modifies act.world
      ensures Guarded(me) && old(act.world.history) <= act.world.history && old(act.world.told) <= act.world.told
      ensures Since(me, st.traceId, [], None, old(act.world.s))
      ensures Live(st)
      ensures agreed ==> Shown(act.ViewOf(st.traceId), call, ToolMessageContent(lexicon, d))
      ensures OthersOnly(me, old(act.world.s.log), act.world.s.log)
      ensures RulingMet(act.DeskOf(me, st.traceId), act.ledger != null, lexicon, d, agreed, old(act.world.Now()),
                        act.world.Now())
    {
      hide SideEffects.Run, Lawful, Heard, ToolMessageContent, Ruling;
      if act.ledger == null {
        return false;
      }
      ghost var view, s0 := act.ViewOf(st.traceId), act.world.s;
      var reply := act.ledger.Resolve(me, st.traceId, d.toolCallId, d.decision, ResultArgument(lexicon, d),
                                      ErrorArgument(lexicon, d));
      LiveLater(act.world.law, view, act.world.s.table, s0.log, act.world.s.log, st.stopReason, st.messages,
                st.pendingApproval, st.pendingReconciliation);
      if reply != Done {
        return false;
      }
      RulingShown(act.ViewOf(st.traceId), act.ledger.account, call, lexicon, d);
      agreed := true;
    }

    /** The calls after a completed one run; the batch may stop again at a later uncertain call. */
    method ContinueBatch(me: int, st: AgentLoopState, message: Message, answered: seq<Message>)
      returns (r: ResumeResult)
      requires message.Assistant? && UniqueIds(message.calls) && 0 < |answered| <= |message.calls|
      requires st.stopReason.None? && st.pendingApproval.None? && st.pendingReconciliation.None?
      requires Guarded(me) && Faithful(act.ViewOf(st.traceId), st.messages)
      requires ShownBy(act.ViewOf(st.traceId), message.calls[..|answered|], answered)
               && ClearedNow(st.traceId, message.calls)
      modifies act.world, st`messages, st`stopReason, st`finalAnswer, st`consecutiveToolErrors, st`toolCalls,
               st`pendingReconciliation
      ensures Guarded(me) && old(act.world.history) <= act.world.history && old(act.world.told) <= act.world.told
      ensures Since(me, st.traceId, message.calls, None, old(act.world.s))
      ensures LiveWith(st, st.stopReason) && st.stopReason != Some(MODEL_FINAL)
      ensures !r.Refused? && (r.ResumeRaised? ==> st.stopReason.None?)
      ensures old(st.messages) <= st.messages
      ensures r.ResumeRaised? || st.pendingReconciliation.Some? <==> st.messages == old(st.messages)
      ensures BatchDone(act.DeskOf(me, st.traceId), message, answered, FailureOf(r), old(st.messages), st.messages,
                        st.pendingReconciliation, old(act.world.Now()), act.world.Now())
      ensures r.Resumed? && st.pendingReconciliation.None? ==>
                ObservedSince(st, old(st.messages), old(st.consecutiveToolErrors))
    {
      hide SideEffects.Run, Lawful, Faithful, ReconciliationOk, ApprovalOk, BatchCleared, ShownBy, PlanAt, AllDone,
        BatchExplained, BatchDone;
      ghost var desk, start := act.DeskOf(me, st.traceId), act.world.Now();
      var remaining := message.calls[|answered|..];
      ghost var view := act.ViewOf(st.traceId);
      var batch := RunBatch(me, st, remaining, message.calls, message.calls);
      ShownGrows(view, act.world.s.table, message.calls[..|answered|], answered);
      if batch.BatchRaised? {
        RaisedDone(desk, message, answered, batch.failure, st.messages, st.pendingReconciliation, start,
                   act.world.Now());
        return ResumeRaised(batch.failure);
      }
      var all := answered + batch.messages;
      if st.pendingReconciliation.Some? {
        StillUncertain(act.world.law, act.ViewOf(st.traceId), act.world.s.log, message, answered, batch.messages,
                       st.pendingReconciliation.value);
        st.pendingReconciliation :=
          Some(st.pendingReconciliation.value.(frozen := Some(Frozen(message, all[..|all| - 1]))));
        FrozenDone(desk, message, answered, batch.messages, st.messages, st.pendingReconciliation.value, start,
                   act.world.Now());
      } else {
        RecordedDone(desk, message, answered, batch.messages, st.messages, start, act.world.Now());
        JoinAnswers(act.ViewOf(st.traceId), message.calls, answered, batch.messages);
        ShownByPrefix(act.ViewOf(st.traceId), message.calls, all);
        Record(st, message, all);
      }
      r := Resumed;
    }

    /** The calls after a failed one do not run: each is answered with an error. */
    method SkipRest(st: AgentLoopState, message: Message, answered: seq<Message>)
      requires message.Assistant? && 0 < |answered| <= |message.calls|
      requires st.stopReason.None? && st.pendingApproval.None? && st.pendingReconciliation.None?
      requires Faithful(act.ViewOf(st.traceId), st.messages)
      requires ShownBy(act.ViewOf(st.traceId), message.calls[..|answered|], answered)
      modifies st`messages, st`stopReason, st`finalAnswer, st`consecutiveToolErrors
      ensures LiveWith(st, st.stopReason) && st.stopReason != Some(MODEL_FINAL)
      ensures st.messages == old(st.messages)
                             + ([message] + (answered + ErrorAnswers(message.calls[|answered|..], NOT_EXECUTED)))
      ensures ObservedSince(st, old(st.messages), old(st.consecutiveToolErrors))
    {
      ghost var view := act.ViewOf(st.traceId);
      var remaining := message.calls[|answered|..];
      var rest := ErrorAnswers(remaining, NOT_EXECUTED);
      ErrorsShown(view, remaining, NOT_EXECUTED);
      assert remaining[..|rest|] == remaining;
      JoinAnswers(view, message.calls, answered, rest);
      ShownByPrefix(view, message.calls, answered + rest);
      Record(st, message, answered + rest);
    }

    /** The uncertain call has been ruled on: its batch goes on after it. */
    method AfterRuling(me: int, st: AgentLoopState, callId: string, content: string, completed: bool)
      returns (r: ResumeResult)
      requires Guarded(me) && Live(st) && st.pendingReconciliation.Some?
               && callId == st.pendingReconciliation.value.callId
      requires var f := st.pendingReconciliation.value.frozen.value;
               Shown(act.ViewOf(st.traceId), f.message.calls[|f.before|], content)
      modifies act.world, st`messages, st`stopReason, st`finalAnswer, st`consecutiveToolErrors, st`toolCalls,
               st`pendingReconciliation, st`reconciliationHistory
      ensures Guarded(me) && old(act.world.history) <= act.world.history && old(act.world.told) <= act.world.told
      ensures Since(me, st.traceId, FrozenCalls(old(st.pendingReconciliation)), None, old(act.world.s))
      ensures Live(st) && old(st.messages) <= st.messages
      ensures !r.Refused? && st.stopReason != Some(MODEL_FINAL)
      ensures r.ResumeRaised? ==> st.stopReason.None?
      ensures !completed ==>
                && r.Resumed? && unchanged(act.world)
                && var f := old(st.pendingReconciliation).value.frozen.value;
                var answered := f.before + [Tool(callId, content)];
                st.messages == old(st.messages)
                + ([f.message] + (answered + ErrorAnswers(f.message.calls[|answered|..], NOT_EXECUTED)))
      ensures completed ==>
                var f := old(st.pendingReconciliation).value.frozen.value;
                BatchDone(act.DeskOf(me, st.traceId), f.message, f.before + [Tool(callId, content)], FailureOf(r),
                          old(st.messages), st.messages, st.pendingReconciliation, old(act.world.Now()),
                          act.world.Now())
      ensures r.Resumed? && st.pendingReconciliation.None? ==>
                ObservedSince(st, old(st.messages), old(st.consecutiveToolErrors))
      ensures st.reconciliationHistory == old(st.reconciliationHistory) + [callId]
    {
      hide SideEffects.Run, Lawful, Faithful, ApprovalOk, PlanAt, AllDone, BatchDone, Shown, IsError, ErrorText,
        ToolMessageContent, RejectionText, ToolStop, ErrorsAfter, AnyError, AllErrors;
      var f := st.pendingReconciliation.value.frozen.value;
      ghost var view := act.ViewOf(st.traceId);
      st.stopReason, st.pendingReconciliation := None, None;
      st.reconciliationHistory := st.reconciliationHistory + [callId];
      ShownNext(view, view.table, f.message.calls, |f.before|, f.before, Tool(callId, content));
      if completed && |f.before| + 1 < |f.message.calls| {
        r := ContinueBatch(me, st, f.message, f.before + [Tool(callId, content)]);
      } else {
        SkipRest(st, f.message, f.before + [Tool(callId, content)]);
        if completed {
          ghost var answered := f.before + [Tool(callId, content)];
          assert answered + ErrorAnswers(f.message.calls[|answered|..], NOT_EXECUTED) == answered;
          NothingLeft(act.DeskOf(me, st.traceId), f.message, f.before + [Tool(callId, content)], old(st.messages),
                      act.world.Now(), act.world.Now());
        }
        r := Resumed;
      }
      PlanResumed(strategy, st.plan, old(st.stopReason), st.stopReason);
    }

    /** Resuming a run that waits for a ruling on an uncertain call. It is refused without a ruling on that
        call, and also when the ledger does not agree; a refused run stays paused as it was. */
    method ResumeReconciliation(me: int, st: AgentLoopState, decision: Option<Decision>) returns (r: ResumeResult)
      requires Guarded(me) && Live(st) && st.pendingReconciliation.Some?
      modifies act.world, st`messages, st`stopReason, st`finalAnswer, st`consecutiveToolErrors, st`toolCalls,
               st`pendingReconciliation, st`reconciliationHistory
      ensures Guarded(me) && old(act.world.history) <= act.world.history && old(act.world.told) <= act.world.told
      ensures Since(me, st.traceId, FrozenCalls(old(st.pendingReconciliation)), None, old(act.world.s))
      ensures decision.None? || decision.value.toolCallId != old(st.pendingReconciliation).value.callId ==>
                r.Refused? && unchanged(act.world)
      ensures r.Refused? ==> unchanged(st)
      ensures Live(st) && old(st.messages) <= st.messages
      ensures !r.Refused? ==> st.stopReason != Some(MODEL_FINAL)
      ensures r.ResumeRaised? ==> st.stopReason.None?
      ensures decision.Some? && decision.value.toolCallId == old(st.pendingReconciliation).value.callId ==>
                RulingMet(act.DeskOf(me, st.traceId), act.ledger != null, lexicon, decision.value, !r.Refused?,
                          old(act.world.Now()), act.world.Now())
      ensures !r.Refused? && decision.value.decision != "completed" ==>
                && decision.value.decision == "failed" && r.Resumed?
                && OthersOnly(me, old(act.world.s.log), act.world.s.log)
                && st.messages == old(st.messages) + NotRun(lexicon, old(st.pendingReconciliation).value,
                                                            decision.value)
      ensures !r.Refused? && decision.value.decision == "completed" ==>
                && var f := old(st.pendingReconciliation).value.frozen.value;
                BatchDone(act.DeskOf(me, st.traceId), f.message,
                          f.before + [Tool(decision.value.toolCallId, ToolMessageContent(lexicon, decision.value))],
                          FailureOf(r),
                          old(st.messages), st.messages, st.pendingReconciliation, old(act.world.Now()),
                          act.world.Now())
      ensures r.Resumed? && st.pendingReconciliation.None? ==>
                ObservedSince(st, old(st.messages), old(st.consecutiveToolErrors))
      ensures !r.Refused? ==> st.reconciliationHistory == old(st.reconciliationHistory) + [decision.value.toolCallId]
    {
      hide SideEffects.Run, Lawful, Faithful, ApprovalOk, ReconciliationOk, BatchCleared, PlanAt, AllDone, ShownBy,
        BatchDone, ToolMessageContent, RulingMet;
      var pending := st.pendingReconciliation.value;
      if decision.None? || decision.value.toolCallId != pending.callId {
        return Refused;
      }
      r := RuleOnCall(me, st, pending, decision.value);
    }

    /** The ledger is asked, and if it agrees the batch goes on. */
    method RuleOnCall(me: int, st: AgentLoopState, pending: PendingReconciliation, d: Decision)
      returns (r: ResumeResult)
      requires Guarded(me) && Live(st) && st.pendingReconciliation == Some(pending) && d.toolCallId == pending.callId
      modifies act.world, st`messages, st`stopReason, st`finalAnswer, st`consecutiveToolErrors, st`toolCalls,
               st`pendingReconciliation, st`reconciliationHistory
      ensures Guarded(me) && old(act.world.history) <= act.world.history && old(act.world.told) <= act.world.told
      ensures Since(me, st.traceId, FrozenCalls(Some(pending)), None, old(act.world.s))
      ensures r.Refused? ==> unchanged(st)
      ensures Live(st) && old(st.messages) <= st.messages
      ensures !r.Refused? ==> st.stopReason != Some(MODEL_FINAL)
      ensures r.ResumeRaised? ==> st.stopReason.None?
      ensures RulingMet(act.DeskOf(me, st.traceId), act.ledger != null, lexicon, d, !r.Refused?, old(act.world.Now()),
                        act.world.Now())
      ensures !r.Refused? && d.decision != "completed" ==>
                && d.decision == "failed" && r.Resumed? && OthersOnly(me, old(act.world.s.log), act.world.s.log)
                && st.messages == old(st.messages) + NotRun(lexicon, pending, d)
      ensures !r.Refused? && d.decision == "completed" ==>
                && var f := pending.frozen.value;
                BatchDone(act.DeskOf(me, st.traceId), f.message,
                          f.before + [Tool(d.toolCallId, ToolMessageContent(lexicon, d))], FailureOf(r),
                          old(st.messages), st.messages, st.pendingReconciliation, old(act.world.Now()),
                          act.world.Now())
      ensures r.Resumed? && st.pendingReconciliation.None? ==>
                ObservedSince(st, old(st.messages), old(st.consecutiveToolErrors))
      ensures !r.Refused? ==> st.reconciliationHistory == old(st.reconciliationHistory) + [d.toolCallId]
    {
      hide SideEffects.Run, Lawful, Faithful, ApprovalOk, BatchCleared, PlanAt, AllDone, ShownBy, Grows,
        OwnEntries, ToolMessageContent, Shown, BatchDone, RulingMet;
      var message, before := pending.frozen.value.message, pending.frozen.value.before;
      FoundAtCut(act.world.law, act.ViewOf(st.traceId), act.world.s.log, pending);
      var target := FindCall(message.calls, pending.callId).value;
      assert target == |before| && message.calls[target].id == d.toolCallId && message.Assistant?;
      var agreed := SettleUncertain(me, st, message.calls[target], d);
      ghost var frozen, s1, ruled := FrozenCalls(Some(pending)), act.world.s, act.world.Now();
      MovedMore(act.world.law, me, st.traceId, frozen, old(act.world.s), s1);
      if !agreed {
        return Refused;
      }
      r := AfterRuling(me, st, d.toolCallId, ToolMessageContent(lexicon, d), d.decision == "completed");
      MovedOn(act.world.law, me, st.traceId, frozen, None, frozen, None, frozen, None, old(act.world.s), s1,
              act.world.s);
      MovedLog(act.world.law, me, st.traceId, frozen, None, old(act.world.s), s1);
      MovedLog(act.world.law, me, st.traceId, frozen, None, s1, act.world.s);
      WiderHalves(old(act.world.Now()), ruled, act.world.Now());
      RuledThen(act.DeskOf(me, st.traceId), act.ledger != null, lexicon, d, FailureOf(r), message,
                before + [Tool(d.toolCallId, ToolMessageContent(lexicon, d))], old(st.messages), st.messages,
                st.pendingReconciliation, old(act.world.Now()), ruled, act.world.Now());
    }

    /** The checks before a step. A violated constraint comes first, then the time budget, the step limit and
        the user's cancellation; what the constraints, the clock and the user say is given. */
    method BeforeStep(st: AgentLoopState, violated: bool, late: bool, cancelled: bool) returns (d: Option<StopReason>)
      ensures d.None? <==> !violated && !late && st.step < maxSteps && !cancelled
      ensures d == Some(CONSTRAINT_VIOLATION) <==> violated
      ensures d == Some(BUDGET_EXHAUSTED) <==> late && !violated
      ensures d == Some(MAX_STEPS) <==> st.step >= maxSteps && !late && !violated
      ensures d == Some(USER_CANCELLED) <==> cancelled && st.step < maxSteps && !late && !violated
    {
      if violated {
        return Some(CONSTRAINT_VIOLATION);
      }
      if late {
        return Some(BUDGET_EXHAUSTED);
      }
      if st.step >= maxSteps {
        return Some(MAX_STEPS);
      }
      d := if cancelled then Some(USER_CANCELLED) else None;
    }

    /** Feedback and the checks after a step. */
    method AfterStep(st: AgentLoopState, feedback: seq<Feedback>, violated: bool, late: bool)
      requires st.stopReason.None? && Live(st)
      modifies st`messages, st`stopReason
      ensures Live(st) && st.messages == old(st.messages) + feedback
      ensures st.stopReason == if violated then Some(CONSTRAINT_VIOLATION)
                               else if late then Some(BUDGET_EXHAUSTED)
                               else None
    {
      LiveFeedback(act.world.law, act.ViewOf(st.traceId), act.world.s.log, st.messages, feedback);
      st.messages := st.messages + feedback;
      if violated {
        st.stopReason := Some(CONSTRAINT_VIOLATION);
      } else if late {
        st.stopReason := Some(BUDGET_EXHAUSTED);
      }
    }

    /** What the outside has said against going on. */
    method Objections(st: AgentLoopState, ghost a: Moment) returns (violated: bool, late: bool)
      requires act.world.Valid() && |a.told| <= |act.world.told|
      modifies act.world`told
      ensures act.world.Valid() && old(act.world.told) <= act.world.told
      ensures violated ==> Heard(Objected(st.traceId, VIOLATED), a, act.world.Now())
      ensures late ==> Heard(Objected(st.traceId, LATE), a, act.world.Now())
    {
      hide SideEffects.Run, Lawful, Heard;
      ghost var b := act.world.Now();
      violated := act.world.Hears(Objected(st.traceId, VIOLATED));
      late := act.world.Hears(Objected(st.traceId, LATE));
      ghost var first := if violated then [Objected(st.traceId, VIOLATED)] else [];
      ghost var news := first + if late then [Objected(st.traceId, LATE)] else [];
      assert act.world.told == b.told + news;
      HeardNew(Objected(st.traceId, VIOLATED), b, act.world.Now(), news);
      HeardNew(Objected(st.traceId, LATE), b, act.world.Now(), news);
      Sooner(st.traceId, a, b, act.world.Now(), violated, late);
    }

    function Bounds(): Limits {
      Limits(maxSteps, observer.abortOnToolError, observer.maxConsecutiveErrors)
    }

    /** The reason of a run to stop was given to it since then, and after a transcript that starts with `first`. */
    ghost predicate StopHeard(st: AgentLoopState, first: seq<Message>, a: Moment)
      reads st, act.world
    {
      st.stopReason.Some? ==>
        StopGiven(st.stopReason.value, Bounds(), st.traceId, first, st.finalAnswer, st.step, st.consecutiveToolErrors,
                  a, act.world.Now())
    }

    /** The checks before a step. */
    method MayStep(me: int, st: AgentLoopState) returns (go: bool)
      requires Guarded(me) && st.stopReason.None?
      modifies act.world`told, st`stopReason
      ensures Guarded(me) && old(act.world.told) <= act.world.told
      ensures if go then st.stopReason.None? && st.step < maxSteps
              else st.stopReason.Some? && !Pausing(st.stopReason) && st.stopReason != Some(MODEL_FINAL)
      ensures StopHeard(st, old(st.messages), old(act.world.Now()))
    {
      hide SideEffects.Run, Lawful, Heard;
      ghost var a := act.world.Now();
      var stopRequested := act.world.Hears(Objected(st.traceId, STOP_REQUESTED));
      if stopRequested {
        st.stopReason := Some(USER_CANCELLED);
        HeardNew(Objected(st.traceId, STOP_REQUESTED), a, act.world.Now(), [Objected(st.traceId, STOP_REQUESTED)]);
        return false;
      }
      assert act.world.Now() == a;
      var violated, late := Objections(st, a);
      ghost var b := act.world.Now();
      var user := Objected(st.traceId, CANCELLED_BY_USER);
      var cancelled := act.world.Hears(user);
      HeardNew(user, b, act.world.Now(), if cancelled then [user] else []);
      if violated {
        HeardLonger(Objected(st.traceId, VIOLATED), a, b, a, act.world.Now());
      }
      if late {
        HeardLonger(Objected(st.traceId, LATE), a, b, a, act.world.Now());
      }
      if cancelled {
        HeardLonger(user, b, act.world.Now(), a, act.world.Now());
      }
      st.stopReason := BeforeStep(st, violated, late, cancelled);
      go := st.stopReason.None?;
    }

    /** What a turn with a step has done: the step, and after it feedback and the checks unless the step has stopped the
        run. */
    ghost predicate TurnTaken(me: int, st: AgentLoopState, goal: string, t: Taken, e: TurnEnd, ms: seq<Message>,
                              plan: seq<PlanStep>, a: Moment)
      reads st, act.world
    {
      && t.length <= |st.messages| && Heard(PlannerAnswered(st.traceId, goal, ms, t.answer), a, act.world.Now())
      && StepDone(act.DeskOf(me, st.traceId), t.answer, t.output, ms, st.messages[..t.length], st.pendingApproval,
                  st.pendingReconciliation, a, act.world.Now())
      && e == (if t.output.StepRaised? then TurnRaised(t.output.failure)
               else if t.output.message.None? then LastTurn
               else NextTurn)
      && st.plan == PlanWith(st, t.answer, t.output, plan)
      && var stop := StopAfter(t.output, StopWith(st, t.answer, t.output, plan));
      if stop.Some? || t.output.StepRaised? then st.stopReason == stop && t.length == |st.messages|
      else st.stopReason.None? || st.stopReason == Some(CONSTRAINT_VIOLATION) || st.stopReason == Some(BUDGET_EXHAUSTED)
    }

    /** A step stops the run for a reason that the planner has given it. */
    lemma StepStops(st: AgentLoopState, first: seq<Message>, answer: PlannerAnswer, o: StepResult, plan: seq<PlanStep>,
                    a: Moment, b: Moment)
      requires HeardAnswer(st.traceId, first, answer, a, b) && StepSettled(st, answer, o, plan)
      requires o.StepOutput? && Pausing(o.override)
      ensures var stop := StopAfter(o, st.stopReason);
              stop.Some? ==>
                StopGiven(stop.value, Bounds(), st.traceId, first, st.finalAnswer, st.step, st.consecutiveToolErrors, a,
                          b)
    {
      hide HeardAnswer, StepStop;
      if o.override.None? && st.stopReason.Some? {
        StepStopGiven(Bounds(), st.traceId, first, answer, o, st.finalAnswer, st.step, st.consecutiveToolErrors, a, b);
      }
    }

    /** One turn of the main loop; the step counter rises by one unless the turn ends the run first. */
    method Turn(me: int, st: AgentLoopState) returns (e: TurnEnd, ghost taken: Option<Taken>)
      requires Guarded(me) && st.stopReason.None? && Live(st)
      modifies act.world, st
      ensures Guarded(me) && old(act.world.history) <= act.world.history && old(act.world.told) <= act.world.told
      ensures Since(me, st.traceId, [], None, old(act.world.s))
      ensures Live(st) && old(st.messages) <= st.messages && st.goal == old(st.goal)
      ensures (st.step == old(st.step) && st.stopReason.Some?) || st.step == old(st.step) + 1 <= maxSteps
      ensures st.stopReason == Some(MODEL_FINAL) ==> st.step == old(st.step) + 1
      ensures e == LastTurn && st.stopReason.None? ==> !plannerReplies
      ensures e.TurnRaised? ==> st.stopReason.None?
      ensures st.stopReason == Some(MODEL_FINAL) ==> HasAnswer(st.finalAnswer)
      ensures StopHeard(st, old(st.messages), old(act.world.Now()))
      ensures e.TurnRaised? ==>
                RaiseGiven(act.DeskOf(me, st.traceId), old(st.messages), e.failure, old(act.world.Now()),
                           act.world.Now())
      ensures taken.None? <==> st.step == old(st.step)
      ensures taken.None? ==>
                && e == LastTurn && st.messages == old(st.messages) && st.plan == old(st.plan)
                && st.finalAnswer == old(st.finalAnswer) && act.world.s == old(act.world.s)
      ensures taken.Some? ==> TurnTaken(me, st, GoalOf(old(st.goal), old(st.plan)), taken.value, e, old(st.messages),
                                        old(st.plan), old(act.world.Now()))
    {
      hide SideEffects.Run, Lawful, Faithful, ReconciliationOk, ApprovalOk, BatchCleared, ShownBy, PlanAt, AllDone,
        Heard, HeardAnswer, StepDone, StopGiven, RaiseGiven, StepStop, StepErrors, OwnEntries, Grows,
        AgentLoopHarness.StepSettled,
        AgentLoopHarness.TurnTaken;
      ghost var a, plan, goal := act.world.Now(), st.plan, GoalOf(st.goal, st.plan);
      NotMoved(act.world.law, me, st.traceId, act.world.s);
      var go := MayStep(me, st);
      if !go {
        return LastTurn, None;
      }
      ghost var b := act.world.Now();
      st.step := st.step + 1;
      var o: StepResult;
      ghost var answer: PlannerAnswer;
      o, answer := RunStep(me, st);
      MovedLog(act.world.law, me, st.traceId, [], None, old(act.world.s), act.world.s);
      HeardLonger(PlannerAnswered(st.traceId, goal, old(st.messages), answer), b, act.world.Now(), a, act.world.Now());
      WiderHalves(a, b, act.world.Now());
      StepWider(act.DeskOf(me, st.traceId), answer, o, old(st.messages), st.messages, st.pendingApproval,
                st.pendingReconciliation, b, act.world.Now(), a, act.world.Now());
      taken := Some(Taken(answer, o, |st.messages|));
      e := EndTurn(me, st, goal, o, answer, old(st.messages), plan, a);
    }

    /** What a turn does after its step. */
    method EndTurn(me: int, st: AgentLoopState, ghost goal: string, o: StepResult, ghost answer: PlannerAnswer,
                   ghost ms: seq<Message>,
                   ghost plan: seq<PlanStep>, ghost a: Moment)
      returns (e: TurnEnd)
      requires Guarded(me) && StepHeard(me, st, goal, answer, o, ms, a) && StepSettled(st, answer, o, plan)
      requires LiveWith(st, StopAfter(o, st.stopReason)) && PlanOk(strategy, st.plan, StopAfter(o, st.stopReason))
      requires o.StepRaised? ==> st.stopReason.None?
      requires o.StepOutput? ==> Pausing(o.override)
      requires o.StepOutput? && o.message.None? ==>
                 (st.stopReason.None? && !plannerReplies) || st.stopReason == Some(LLM_ERROR_ABORT)
                 || st.stopReason == Some(USER_CANCELLED)
      requires a.told <= act.world.told && a.log <= act.world.s.log && Grows(a.table, act.world.s.table)
      modifies act.world`told, st`messages, st`stopReason
      ensures Guarded(me) && old(act.world.told) <= act.world.told
      ensures Live(st) && old(st.messages) <= st.messages
      ensures e == LastTurn && st.stopReason.None? ==> !plannerReplies
      ensures e.TurnRaised? ==>
                st.stopReason.None? && RaiseGiven(act.DeskOf(me, st.traceId), ms, e.failure, a, act.world.Now())
      ensures StopHeard(st, ms, a)
      ensures st.stopReason == Some(MODEL_FINAL) ==> old(st.stopReason) == Some(MODEL_FINAL)
      ensures TurnTaken(me, st, goal, Taken(answer, o, |old(st.messages)|), e, ms, plan, a)
    {
      hide SideEffects.Run, Lawful, Faithful, ReconciliationOk, ApprovalOk, BatchCleared, ShownBy, PlanAt, AllDone,
        Heard, HeardAnswer, StepDone, StopGiven, RaiseGiven, StepStop, StepErrors, Grows, OwnEntries, Blank,
        BatchDone, ToolStop, PlanAfter, PlanStop, StepGoal;
      ghost var c, messages := act.world.Now(), st.messages;
      assert messages[..|messages|] == messages;
      AnswerGiven(st.traceId, ms, goal, ms, answer, a, c);
      if o.StepRaised? {
        StepRaiseGiven(act.DeskOf(me, st.traceId), ms, answer, o, ms, st.messages, st.pendingApproval,
                       st.pendingReconciliation, a, c);
        return TurnRaised(o.failure);
      }
      StepStops(st, ms, answer, o, plan, a, c);
      st.stopReason := StopAfter(o, st.stopReason);
      if o.message.Some? && st.stopReason.None? {
        var feedback: seq<Feedback> := *;
        var violated, late := Objections(st, a);
        WiderHalves(a, c, act.world.Now());
        HeardLonger(PlannerAnswered(st.traceId, goal, ms, answer), a, c, a, act.world.Now());
        StepWider(act.DeskOf(me, st.traceId), answer, o, ms, messages, st.pendingApproval, st.pendingReconciliation,
                  a, c,
                  a, act.world.Now());
        AfterStep(st, feedback, violated, late);
        ObjectionGiven(Bounds(), st.traceId, ms, st.finalAnswer, st.step, st.consecutiveToolErrors, violated, late, a,
                       act.world.Now());
        assert st.messages[..|messages|] == messages;
      }
      e := if o.message.None? then LastTurn else NextTurn;
    }

    /** The strategy's start hook: a plan run asks for a plan, and goes on without one if there is none. */
    method OnRunStart(st: AgentLoopState) returns (ghost goals: seq<string>)
      requires act.world.Valid() && st.plan == [] && st.stopReason.None?
      modifies act.world`told, st`plan
      ensures act.world.Valid() && PlanOk(strategy, st.plan, None)
      ensures act.world.told == old(act.world.told) + if strategy.ReAct? then [] else [PlanProposed(st.traceId, goals)]
      ensures strategy.ReAct? ==> st.plan == []
      ensures strategy.PlanExecute? ==>
                |st.plan| == |goals| && forall i :: 0 <= i < |goals| ==>
                                                      st.plan[i].goal == goals[i] && st.plan[i].status == PENDING
    {
      hide SideEffects.Run, Lawful;
      goals := [];
      if strategy.PlanExecute? {
        var ids: nat -> string := *;
        var lines := act.world.AskForPlan(st.traceId);
        goals := lines;
        st.plan := BuildPlanSteps(lines, ids);
      }
    }

    /** The calls that a run is resumed with. */
    ghost function ToResume(st: AgentLoopState, approval: Option<ApprovalDecision>): seq<ToolCall>
      reads st
    {
      AllowedCalls(st.pendingApproval, st.pendingReconciliation, approval)
    }

    /** A resumed batch stops the run only when it is uncertain or the tolerance for errors is used up. */
    lemma ResumeStops(st: AgentLoopState, ms: seq<Message>, errors: nat, a: Moment)
      requires LiveWith(st, st.stopReason)
      requires st.pendingReconciliation.None? ==> ObservedSince(st, ms, errors)
      ensures StopHeard(st, ms, a)
    {
      hide Faithful, ReconciliationOk, ApprovalOk, ErrorsAfter, Heard;
    }

    /** What a run does before its first turn. */
    method Begin(me: int, st: AgentLoopState, resumed: bool, approval: Option<ApprovalDecision>,
                 ruling: Option<Decision>)
      returns (r: ResumeResult)
      requires Guarded(me) && Live(st) && Granted(st, approval)
      requires !resumed ==> st.stopReason.None? && st.plan == []
      modifies act.world, st
      ensures Guarded(me) && old(act.world.history) <= act.world.history && old(act.world.told) <= act.world.told
      ensures Since(me, st.traceId, AllowedCalls(old(st.pendingApproval), old(st.pendingReconciliation), approval),
                    GrantOf(old(st.pendingApproval), approval), old(act.world.s))
      ensures Live(st) && old(st.messages) <= st.messages && st.goal == old(st.goal) && st.step == old(st.step)
      ensures r.Refused? ==> unchanged(st) && st.stopReason.Some?
      ensures !HasDecision(old(st.pendingApproval), old(st.pendingReconciliation), approval, ruling) ==>
                r.Refused? && unchanged(act.world)
      ensures old(st.pendingApproval).Some? ==>
                (r.Refused? <==> !HasDecision(old(st.pendingApproval), old(st.pendingReconciliation), approval, ruling))
      ensures r.ResumeRaised? ==> st.stopReason.None?
      ensures st.stopReason != Some(MODEL_FINAL) || old(st.stopReason) == Some(MODEL_FINAL)
      ensures old(st.pendingApproval).Some? && !r.Refused? && approval.value.approve ==>
                && var m := old(st.pendingApproval).value.message;
                && LoggedSince(Approved(me, st.traceId, approval.value, CallsOf(m)), old(act.world.s.log),
                               act.world.s.log)
                && RanApproved(act.DeskOf(me, st.traceId), m, approval.value, FailureOf(r), old(st.messages),
                               st.messages, st.pendingReconciliation, old(act.world.Now()), act.world.Now())
      ensures old(st.pendingApproval).Some? && !r.Refused? && !approval.value.approve ==>
                && unchanged(act.world)
                && var m := old(st.pendingApproval).value.message;
                st.messages == old(st.messages) + ([m] + ErrorAnswers(CallsOf(m),
                                                                      RejectionText(lexicon, approval.value.reason)))
      ensures old(st.pendingReconciliation).Some? && !r.Refused? && ruling.value.decision != "completed" ==>
                && OthersOnly(me, old(act.world.s.log), act.world.s.log)
                && st.messages == old(st.messages) + NotRun(lexicon, old(st.pendingReconciliation).value, ruling.value)
      ensures old(st.pendingReconciliation).Some? && !r.Refused? && ruling.value.decision == "completed" ==>
                && var f := old(st.pendingReconciliation).value.frozen.value;
                BatchDone(act.DeskOf(me, st.traceId), f.message,
                          f.before + [Tool(ruling.value.toolCallId, ToolMessageContent(lexicon, ruling.value))],
                          FailureOf(r), old(st.messages), st.messages, st.pendingReconciliation,
                          old(act.world.Now()), act.world.Now())
      ensures old(st.pendingReconciliation).Some?
              && HasDecision(old(st.pendingApproval), old(st.pendingReconciliation), approval, ruling) ==>
                RulingMet(act.DeskOf(me, st.traceId), act.ledger != null, lexicon, ruling.value, !r.Refused?,
                          old(act.world.Now()), act.world.Now())
      ensures DecisionTaken(me, st.traceId, lexicon, old(st.pendingApproval), old(st.pendingReconciliation), approval,
                            ruling, r.Refused?, old(st.messages), st.messages, old(act.world.s.log), act.world.s.log)
      ensures r.Resumed? && st.stopReason.Some? ==> st.stopReason == old(st.stopReason)
                                                    || StopHeard(st, old(st.messages), old(act.world.Now()))
      ensures r.ResumeRaised? ==>
                RaiseExplained(act.DeskOf(me, st.traceId), old(ToResume(st, approval)), r.failure, old(act.world.Now()),
                               act.world.Now())
    {
      hide SideEffects.Run, Lawful, Faithful, ReconciliationOk, ApprovalOk, BatchCleared, ShownBy, PlanAt, AllDone,
        RanApproved, LoggedSince, NotRun, ToolMessageContent, RulingMet, BatchDone, ErrorAnswers, OthersOnly,
        RejectionText, StopGiven, RaiseExplained, AgentLoopHarness.ObservedSince, AnyError, AllErrors, IsError;
      r := Resumed;
      if !resumed {
        ghost var goals := OnRunStart(st);
      } else if st.pendingApproval.Some? {
        r := ResumeApproval(me, st, approval);
        if r.Resumed? {
          ResumeStops(st, old(st.messages), old(st.consecutiveToolErrors), old(act.world.Now()));
        }
        if r.ResumeRaised? {
          ApprovedRaised(act.DeskOf(me, st.traceId), old(st.pendingApproval).value.message, approval.value, r.failure,
                         old(st.messages), st.messages, st.pendingReconciliation, old(act.world.Now()),
                         act.world.Now());
        }
      } else if st.pendingReconciliation.Some? {
        FrozenFits(act.world.law, act.ViewOf(st.traceId), act.world.s.log, st.pendingReconciliation.value);
        r := ResumeReconciliation(me, st, ruling);
        if r.Resumed? {
          ResumeStops(st, old(st.messages), old(st.consecutiveToolErrors), old(act.world.Now()));
        }
        if r.ResumeRaised? {
          ghost var f := old(st.pendingReconciliation).value.frozen.value;
          DoneRaised(act.DeskOf(me, st.traceId), f.message,
                     f.before + [Tool(ruling.value.toolCallId, ToolMessageContent(lexicon, ruling.value))], r.failure,
                     old(st.messages), st.messages, st.pendingReconciliation, old(act.world.Now()), act.world.Now());
        }
      }
    }

    /** The main loop. */
    method Turns(me: int, st: AgentLoopState) returns (raised: Option<Failure>)
      requires Guarded(me) && Live(st) && st.stopReason.None?
      modifies act.world, st
      ensures Guarded(me) && old(act.world.history) <= act.world.history && old(act.world.told) <= act.world.told
      ensures Since(me, st.traceId, [], None, old(act.world.s))
      ensures Live(st) && old(st.messages) <= st.messages && st.goal == old(st.goal)
      ensures old(st.step) <= st.step && (st.step == old(st.step) || st.step <= maxSteps)
      ensures raised.Some? ==> st.stopReason.None?
      ensures raised.None? && st.stopReason.None? ==> !plannerReplies
      ensures st.stopReason == Some(MODEL_FINAL) ==> st.step > old(st.step) && HasAnswer(st.finalAnswer)
      ensures StopHeard(st, old(st.messages), old(act.world.Now()))
      ensures raised.Some? ==>
                RaiseGiven(act.DeskOf(me, st.traceId), old(st.messages), raised.value, old(act.world.Now()),
                           act.world.Now())
    {
      hide SideEffects.Run, Lawful, StopGiven, RaiseGiven, AgentLoopHarness.TurnTaken;
      ghost var start, first := act.world.Now(), st.messages;
      var turn := NextTurn;
      UndisturbedMoved(act.world.law, me, st.traceId, [], None, old(act.world.s), act.world.s);
      while st.stopReason.None? && turn == NextTurn
        invariant Guarded(me) && old(act.world.history) <= act.world.history && old(act.world.told) <= act.world.told
        invariant Since(me, st.traceId, [], None, old(act.world.s))
        invariant Live(st) && old(st.messages) <= st.messages && st.goal == old(st.goal)
        invariant old(st.step) <= st.step && (st.step == old(st.step) || st.step <= maxSteps)
        invariant turn.TurnRaised? ==> st.stopReason.None?
        invariant StopHeard(st, first, start)
        invariant turn.TurnRaised? ==> RaiseGiven(act.DeskOf(me, st.traceId), first, turn.failure, start,
                                                  act.world.Now())
        invariant turn == LastTurn && st.stopReason.None? ==> !plannerReplies
        invariant st.stopReason == Some(MODEL_FINAL) ==> st.step > old(st.step) && HasAnswer(st.finalAnswer)
        decreases maxSteps - st.step, if st.stopReason.None? then 1 else 0
      {
        ghost var before, then_, messages := act.world.s, act.world.Now(), st.messages;
        ghost var taken;
        turn, taken := Turn(me, st);
        MovedLog(act.world.law, me, st.traceId, [], None, before, act.world.s);
        ghost var failure := if turn.TurnRaised? then Some(turn.failure) else None;
        TurnsSince(act.DeskOf(me, st.traceId), st, failure, messages, then_,
                   act.world.Now(), first, start);
        MovedOn(act.world.law, me, st.traceId, [], None, [], None, [], None, old(act.world.s), before, act.world.s);
      }
      raised := if turn.TurnRaised? then Some(turn.failure) else None;
    }

    /** A call of the batch that the run was resumed with, or of one that the planner replied with, has raised. */
    ghost predicate RaisedSince(me: int, trace: string, first: seq<Message>, batch: seq<ToolCall>, f: Failure,
                                a: Moment)
      reads act.world
    {
      RaisedFor(act.DeskOf(me, trace), first, batch, f, a, act.world.Now())
    }

    /** A run up to its result: what it does first, and then its turns. */
    method BeginAndTurn(me: int, st: AgentLoopState, resumed: bool, approval: Option<ApprovalDecision>,
                        ruling: Option<Decision>)
      returns (raised: Option<Failure>)
      requires Guarded(me) && Live(st) && Granted(st, approval)
      requires !resumed ==> st.stopReason.None? && st.plan == []
      modifies act.world, st
      ensures Guarded(me) && old(act.world.history) <= act.world.history && old(act.world.told) <= act.world.told
      ensures Since(me, st.traceId, AllowedCalls(old(st.pendingApproval), old(st.pendingReconciliation), approval),
                    GrantOf(old(st.pendingApproval), approval), old(act.world.s))
      ensures Live(st) && old(st.messages) <= st.messages && st.goal == old(st.goal)
      ensures old(st.step) <= st.step && (st.step == old(st.step) || st.step <= maxSteps)
      ensures raised.Some? ==> st.stopReason.None?
      ensures raised.None? && plannerReplies ==> st.stopReason.Some?
      ensures !HasDecision(old(st.pendingApproval), old(st.pendingReconciliation), approval, ruling) ==>
                raised.None? && unchanged(st) && unchanged(act.world)
      ensures st.stopReason == Some(MODEL_FINAL) && old(st.stopReason) != Some(MODEL_FINAL) ==>
                st.step > old(st.step) && HasAnswer(st.finalAnswer)
      ensures DecisionTaken(me, st.traceId, lexicon, old(st.pendingApproval), old(st.pendingReconciliation), approval,
                            ruling, st.messages == old(st.messages), old(st.messages), st.messages,
                            old(act.world.s.log), act.world.s.log)
      ensures st.stopReason == old(st.stopReason) || StopHeard(st, old(st.messages), old(act.world.Now()))
      ensures raised.Some? ==>
                RaisedSince(me, st.traceId, old(st.messages), old(ToResume(st, approval)), raised.value,
                            old(act.world.Now()))
    {
      hide SideEffects.Run, Lawful, Faithful, ReconciliationOk, ApprovalOk, BatchCleared, ShownBy, PlanAt,
        Grows, OwnEntries, NotRun, ErrorAnswers, RejectionText, LoggedSince, RanApproved, BatchDone,
        DecisionTaken, RulingMet, ToolMessageContent, Blank, StopGiven, RaiseGiven, RaiseExplained,
        AgentLoopHarness.ObservedSince;
      ghost var allowed := AllowedCalls(st.pendingApproval, st.pendingReconciliation, approval);
      ghost var grant, start := GrantOf(st.pendingApproval, approval), act.world.Now();
      var begun := Begin(me, st, resumed, approval, ruling);
      raised := if begun.ResumeRaised? then Some(begun.failure) else None;
      if st.stopReason.None? && raised.None? {
        ghost var before, then_, messages := act.world.s, act.world.Now(), st.messages;
        raised := Turns(me, st);
        MovedLog(act.world.law, me, st.traceId, allowed, grant, old(act.world.s), before);
        MovedLog(act.world.law, me, st.traceId, [], None, before, act.world.s);
        DecisionStays(me, st.traceId, lexicon, old(st.pendingApproval), old(st.pendingReconciliation), approval, ruling,
                      begun.Refused?, old(st.messages), messages, st.messages, old(act.world.s.log), before.log,
                      act.world.s.log);
        MovedOn(act.world.law, me, st.traceId, allowed, grant, [], None, allowed, grant, old(act.world.s), before,
                act.world.s);
        TurnsSince(act.DeskOf(me, st.traceId), st, raised, messages, then_, act.world.Now(), old(st.messages), start);
      }
      RefusedOrNot(me, st.traceId, lexicon, old(st.pendingApproval), old(st.pendingReconciliation), approval, ruling,
                   begun.Refused?, old(st.messages), st.messages, old(act.world.s.log), act.world.s.log);
    }

    /** What was given to a part of a run was given to the run. */
    lemma TurnsSince(d: Desk, st: AgentLoopState, raised: Option<Failure>, first: seq<Message>, b: Moment, now: Moment,
                     first': seq<Message>, a: Moment)
      requires now == act.world.Now() && a.told <= b.told <= now.told && a.log <= b.log <= now.log
      requires Grows(b.table, now.table) && first' <= first && StopHeard(st, first, b)
      requires raised.Some? ==> RaiseGiven(d, first, raised.value, b, now)
      ensures StopHeard(st, first', a) && (raised.Some? ==> RaiseGiven(d, first', raised.value, a, now))
    {
      hide StopGiven, RaiseGiven, Grows;
      WiderHalves(a, b, now);
      if st.stopReason.Some? {
        StopGivenLonger(st.stopReason.value, Bounds(), st.traceId, first, st.finalAnswer, st.step,
                        st.consecutiveToolErrors, b, now, first', a, now);
      }
      if raised.Some? {
        RaiseGivenLonger(d, first, raised.value, b, now, first', a);
      }
    }

    /** A whole run. Whatever the planner, the tools, the database, other workers and people do, it
        ends; it ends with a stop reason if the planner always replies; it never takes a step beyond the
        limit; its transcript stays faithful and only grows; it stops for a pause exactly when the pending
        record is set, also when a resume is refused, which changes nothing. It consumes no approval but the one
        it is given, and starts no call that needs approval but those of the batch that was approved. */
    method Run(me: int, st: AgentLoopState, resumed: bool, approval: Option<ApprovalDecision>, ruling: Option<Decision>)
      returns (r: RunResult)
      requires Guarded(me) && Live(st) && Granted(st, approval)
      requires !resumed ==> st.stopReason.None? && st.plan == []
      modifies act.world, st
      ensures Guarded(me) && old(act.world.history) <= act.world.history && old(act.world.told) <= act.world.told
      ensures Since(me, st.traceId, AllowedCalls(old(st.pendingApproval), old(st.pendingReconciliation), approval),
                    GrantOf(old(st.pendingApproval), approval), old(act.world.s))
      ensures AtMostOnce(act.world.law, act.world.retry, act.world.s) && GateHolds(act.world.law, act.world.s.log)
      ensures Live(st) && old(st.messages) <= st.messages && st.goal == old(st.goal)
      ensures old(st.step) <= st.step && (st.step == old(st.step) || st.step <= maxSteps)
      ensures r.RunEnded? && plannerReplies ==> st.stopReason.Some?
      ensures !HasDecision(old(st.pendingApproval), old(st.pendingReconciliation), approval, ruling) ==>
                r.RunEnded? && unchanged(st) && unchanged(act.world)
      ensures r.RunEnded? ==> Reports(st, r.result)
      ensures r.RunEnded? && r.result.success && old(st.stopReason) != Some(MODEL_FINAL) ==>
                st.step > old(st.step) && HasAnswer(st.finalAnswer) && (strategy.PlanExecute? ==> AllDone(st.plan))
      ensures DecisionTaken(me, st.traceId, lexicon, old(st.pendingApproval), old(st.pendingReconciliation), approval,
                            ruling, st.messages == old(st.messages), old(st.messages), st.messages,
                            old(act.world.s.log), act.world.s.log)
      ensures r.RunEnded? && st.stopReason.Some? && st.stopReason != Some(ERROR) ==>
                st.stopReason == old(st.stopReason) || StopHeard(st, old(st.messages), old(act.world.Now()))
      ensures r.TaskCancelled? ==>
                RaisedSince(me, st.traceId, old(st.messages), old(ToResume(st, approval)), Cancelled,
                            old(act.world.Now()))
      ensures r.RunEnded? && st.stopReason == Some(ERROR) && old(st.stopReason) != Some(ERROR) ==>
                exists name :: RaisedSince(me, st.traceId, old(st.messages), old(ToResume(st, approval)),
                                           ToolNotFound(name), old(act.world.Now()))
    {
      hide SideEffects.Run, Lawful, Faithful, ReconciliationOk, ApprovalOk, BatchCleared, ShownBy, PlanAt,
        Grows, OwnEntries, AtMostOnce, GateHolds, DecisionTaken, Blank, Heard, HeardReply, RaisedFor;
      ghost var allowed := AllowedCalls(st.pendingApproval, st.pendingReconciliation, approval);
      ghost var start := act.world.Now();
      var raised := BeginAndTurn(me, st, resumed, approval, ruling);
      act.world.TeamIsSafe();
      if raised == Some(Cancelled) {
        return TaskCancelled;
      }
      if raised.Some? {
        st.stopReason := Some(ERROR);
        assert RaisedSince(me, st.traceId, old(st.messages), allowed, ToolNotFound(raised.value.name), start);
      }
      r := RunEnded(AgentLoopResult(st.stopReason == Some(MODEL_FINAL), st.finalAnswer, st.stopReason, st.step,
                                    PublicApproval(st.pendingApproval),
                                    PublicReconciliation(st.pendingReconciliation)));
    }

    ghost predicate Reports(st: AgentLoopState, result: AgentLoopResult)
      reads st
    {
      && (result.success <==> st.stopReason == Some(MODEL_FINAL))
      && result.stopReason == st.stopReason && result.finalAnswer == st.finalAnswer && result.totalSteps == st.step
      && (result.pendingApproval.Some? <==> st.stopReason == Some(APPROVAL_REQUIRED))
      && (result.pendingReconciliation.Some? <==> st.stopReason == Some(EXECUTION_IN_DOUBT))
    }
  }

  function RejectionText(t: Lexicon, reason: string): string {
    "Tool call rejected by human reviewer: " + Redact(t, TextOr(Some(reason), "rejected by reviewer"))
  }

  const NOT_EXECUTED := "not executed because an earlier side effect was reconciled as failed"

  /** What is recorded after a ruling that the call has failed: the answers so far, the ruling, and for every later call
      that it was not executed. */
  function NotRun(t: Lexicon, p: PendingReconciliation, d: Decision): seq<Message>
    requires p.frozen.Some? && |p.frozen.value.before| < |CallsOf(p.frozen.value.message)|
  {
    var f := p.frozen.value;
    var answered := f.before + [Tool(d.toolCallId, ToolMessageContent(t, d))];
    [f.message] + (answered + ErrorAnswers(CallsOf(f.message)[|answered|..], NOT_EXECUTED))
  }

  /** The run goes on after a ruling only if the row of the call has the outcome the ruling asks for. It is refused only
      without a ledger, for a ruling that asks for nothing, if a statement raised, or if the row has not that
      outcome. */
  ghost predicate RulingMet(desk: Desk, hasLedger: bool, t: Lexicon, d: Decision, agreed: bool, a: Moment, b: Moment) {
    if agreed then hasLedger && HasAsked(t, b.table, desk.account, desk.trace, d)
    else
      || !hasLedger || AskedOutcome(t, d).None?
      || Heard(StatementRaised(Key(desk.trace, d.toolCallId)), a, b)
      || !HasAsked(t, b.table, desk.account, desk.trace, d)
  }

  /** What a decision that comes with a run leaves: an approval is consumed; a rejection is recorded as an error
      answer to every call; a ruling that the call has failed is recorded with the later calls unexecuted, or
      refused. */
  ghost predicate DecisionTaken(me: int, trace: string, t: Lexicon, a: Option<PendingApproval>,
                                r: Option<PendingReconciliation>, approval: Option<ApprovalDecision>,
                                ruling: Option<Decision>, refused: bool, ms: seq<Message>, ms': seq<Message>,
                                log: seq<Event>, log': seq<Event>)
  {
    HasDecision(a, r, approval, ruling) ==>
      if a.Some? then
        var m := a.value.message;
        if approval.value.approve then LoggedSince(Approved(me, trace, approval.value, CallsOf(m)), log, log')
        else ms + ([m] + ErrorAnswers(CallsOf(m), RejectionText(t, approval.value.reason))) <= ms'
      else if r.Some? && !refused && ruling.value.decision != "completed" then
        && r.value.frozen.Some? && |r.value.frozen.value.before| < |CallsOf(r.value.frozen.value.message)|
        && ms + NotRun(t, r.value, ruling.value) <= ms'
      else true
  }

  lemma DecisionStays(me: int, trace: string, t: Lexicon, a: Option<PendingApproval>, r: Option<PendingReconciliation>,
                      approval: Option<ApprovalDecision>, ruling: Option<Decision>, refused: bool, ms: seq<Message>,
                      ms': seq<Message>, more: seq<Message>, log: seq<Event>, log': seq<Event>, later: seq<Event>)
    requires DecisionTaken(me, trace, t, a, r, approval, ruling, refused, ms, ms', log, log')
    requires ms' <= more && log' <= later
    ensures DecisionTaken(me, trace, t, a, r, approval, ruling, refused, ms, more, log, later)
  {
    hide NotRun, ErrorAnswers, RejectionText, LoggedSince;
    if a.Some? && HasDecision(a, r, approval, ruling) && approval.value.approve {
      LoggedSinceLater(Approved(me, trace, approval.value, CallsOf(a.value.message)), log, log', later);
    }
  }

  /** A refused run keeps its transcript, so that the transcript shows that the run was not refused. */
  lemma RefusedOrNot(me: int, trace: string, t: Lexicon, a: Option<PendingApproval>, r: Option<PendingReconciliation>,
                     approval: Option<ApprovalDecision>, ruling: Option<Decision>, refused: bool, ms: seq<Message>,
                     ms': seq<Message>, log: seq<Event>, log': seq<Event>)
    requires DecisionTaken(me, trace, t, a, r, approval, ruling, refused, ms, ms', log, log')
    requires refused ==> ms' == ms
    ensures DecisionTaken(me, trace, t, a, r, approval, ruling, ms' == ms, ms, ms', log, log')
  {
    hide NotRun, ErrorAnswers, RejectionText, LoggedSince;
  }

  lemma AskedIsVerdict(t: Lexicon, d: Decision)
    requires AskedOutcome(t, d).Some?
    ensures d.decision == "completed" || d.decision == "failed"
  {
    hide ToolMessageContent;
  }

  lemma HasAskedLater(t: Lexicon, table: Table, later: Table, account: int, trace: string, d: Decision)
    requires HasAsked(t, table, account, trace, d) && Grows(table, later)
    ensures HasAsked(t, later, account, trace, d)
  {
    hide AskedOutcome;
    AskedIsGood(t, d);
  }

  lemma AskedIsGood(t: Lexicon, d: Decision)
    ensures AskedOutcome(t, d).Some? ==> GoodOutcome(AskedOutcome(t, d).value)
  {
  }

  /** A ruling that the ledger agreed to, and the batch after it. */
  lemma RuledThen(desk: Desk, hasLedger: bool, t: Lexicon, d: Decision, raised: Option<Failure>, m: Message,
                  given: seq<Message>, ms: seq<Message>, ms': seq<Message>, pending: Option<PendingReconciliation>,
                  a: Moment, ruled: Moment, now: Moment)
    requires RulingMet(desk, hasLedger, t, d, true, a, ruled)
    requires Wider(ruled, now, a, now) && Grows(ruled.table, now.table)
    requires d.decision == "completed" ==> BatchDone(desk, m, given, raised, ms, ms', pending, ruled, now)
    ensures RulingMet(desk, hasLedger, t, d, true, a, now)
    ensures d.decision == "completed" || d.decision == "failed"
    ensures d.decision == "completed" ==> BatchDone(desk, m, given, raised, ms, ms', pending, a, now)
  {
    hide BatchDone, AskedOutcome, SameOutcome, Select;
    AskedIsVerdict(t, d);
    HasAskedLater(t, ruled.table, now.table, desk.account, desk.trace, d);
    if d.decision == "completed" {
      DoneWider(desk, m, given, raised, ms, ms', pending, ruled, now, a, now);
    }
  }

  /** A ruling that the ledger agreed to is shown as stored, or as an error. */
  lemma RulingShown(v: View, account: int, call: ToolCall, t: Lexicon, d: Decision)
    requires d.toolCallId == call.id && AskedOutcome(t, d).Some?
    requires var row := Select(v.table, Key(v.trace, d.toolCallId), account);
             row.Some? && SameOutcome(row.value, AskedOutcome(t, d).value)
    ensures Shown(v, call, ToolMessageContent(t, d))
  {
    if d.decision != "completed" {
      ErrorShown(v, call, "Tool execution reconciled as failed by human reviewer: "
                 + Redact(t, TextOr(d.reason, "downstream verification found no completed side effect")));
    }
  }
}
