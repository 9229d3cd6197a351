/**
 What a step of the loop makes of the planner's answer, and why a run may stop.
 */
module LoopSteps {
  import opened Options
  import opened ExecutionLedger
  import opened SideEffects
  import opened Discipline
  import opened LedgerClient
  import opened ToolPolicy
  import opened AgentState
  import opened CallAnswers
  import opened AgentLoop
  import opened Approval
  import opened PausedRuns
  import opened Planning

  datatype StepResult =
    | StepOutput(message: Option<Message>, results: seq<Message>, override: Option<StopReason>)
    | StepRaised(failure: Failure)

  /** A step of the loop: what the planner answered, what came of it, and how long the transcript was then. */
  datatype Taken = Taken(answer: PlannerAnswer, output: StepResult, length: nat)

  function RaiseOf(o: StepResult): Option<Failure> {
    if o.StepRaised? then Some(o.failure) else None
  }

  /** The stop reason after the harness has applied what a step asks for. */
  function StopAfter(o: StepResult, stop: Option<StopReason>): Option<StopReason> {
    if o.StepOutput? && o.override.Some? then o.override else stop
  }

  /** The message of the planner, and what stops the run if it gives none. */
  function ReplyOf(answer: PlannerAnswer): Option<Message> {
    if answer.Replies? then Some(answer.message) else None
  }

  function PlannerStop(answer: PlannerAnswer): Option<StopReason> {
    match answer
    case PlannerRaises => Some(LLM_ERROR_ABORT)
    case CancelledBefore => Some(USER_CANCELLED)
    case _ => None
  }

  predicate NeedsRequest(law: Law, calls: seq<ToolCall>) {
    law.policy.Some? && HasGated(law.policy.value, law.registry, calls)
  }

  /** What a step does with the planner's answer: without a message nothing; a message without calls is recorded; for a
      batch with a gated call the step stops and keeps the message; any other batch is run. */
  ghost predicate StepDone(d: Desk, answer: PlannerAnswer, o: StepResult, ms: seq<Message>, ms': seq<Message>,
                           asked: Option<PendingApproval>, uncertain: Option<PendingReconciliation>, a: Moment, b:
                           Moment)
  {
    match answer
    case Replies(m) =>
      if m.calls == [] then o == StepOutput(Some(m), [], None) && ms' == ms + [m]
      else if NeedsRequest(d.law, m.calls) then
        && o == StepOutput(Some(m), [], Some(APPROVAL_REQUIRED)) && ms' == ms
        && asked.Some? && asked.value.message == m
      else
        && BatchDone(d, m, [], RaiseOf(o), ms, ms', uncertain, a, b)
        && (o.StepOutput? ==>
              && o.message == Some(m)
              && if uncertain.Some? then o.override == Some(EXECUTION_IN_DOUBT)
                 else o.override.None? && ms' == ms + ([m] + o.results))
    case _ => o == StepOutput(None, [], None) && ms' == ms
  }

  /** The number of failed steps in a row after a step. */
  function StepErrors(answer: PlannerAnswer, o: StepResult, errors: nat): nat {
    if answer.Replies? && answer.message.calls != [] && o.StepOutput? && o.override.None?
    then ErrorsAfter(o.results, errors)
    else errors
  }

  /** The stop reason that a step itself sets. */
  function StepStop(abort: bool, limit: nat, answer: PlannerAnswer, o: StepResult, errors: nat): Option<StopReason> {
    match answer
    case Replies(m) =>
      if m.calls == [] then Some(if Blank(m.content) then LLM_ERROR_ABORT else MODEL_FINAL)
      else if o.StepRaised? || o.override == Some(APPROVAL_REQUIRED) then None
      else if o.override.Some? then Some(EXECUTION_IN_DOUBT)
      else ToolStop(abort, limit, o.results, errors)
    case _ => PlannerStop(answer)
  }

  /** What becomes of a plan whose step `k` was worked on: an answer finishes the step, an abort fails it, and otherwise
      it stays in progress. */
  function PlanAfter(plan: seq<PlanStep>, k: nat, stop: Option<StopReason>, answer: string, failure: string)
    : seq<PlanStep>
    requires k < |plan|
  {
    plan[k := if stop == Some(MODEL_FINAL) then plan[k].(status := DONE, result := Some(answer))
    else if Aborted(stop) then plan[k].(status := FAILED, result := Some(failure))
    else plan[k].(status := IN_PROGRESS)]
  }

  /** An answer to any plan step but the last does not stop the run. */
  function PlanStop(plan: seq<PlanStep>, k: nat, stop: Option<StopReason>): Option<StopReason> {
    if stop == Some(MODEL_FINAL) && k + 1 < |plan| then None else stop
  }

  /** What was done in a stretch of time was done in a longer one. */
  lemma StepWider(d: Desk, answer: PlannerAnswer, o: StepResult, ms: seq<Message>, ms': seq<Message>,
                  asked: Option<PendingApproval>, uncertain: Option<PendingReconciliation>, a: Moment, b: Moment,
                  a': Moment, b': Moment)
    requires StepDone(d, answer, o, ms, ms', asked, uncertain, a, b) && Wider(a, b, a', b')
    ensures StepDone(d, answer, o, ms, ms', asked, uncertain, a', b')
  {
    hide BatchDone, Wider;
    if answer.Replies? && answer.message.calls != [] && !NeedsRequest(d.law, answer.message.calls) {
      DoneWider(d, answer.message, [], RaiseOf(o), ms, ms', uncertain, a, b, a', b');
    }
  }

  // ---- Why a run stops ----

  /** What a run is bounded by: its steps, whether one tool error stops it, and how many failed steps in a row do. */
  datatype Limits = Limits(steps: int, abort: bool, errors: nat)

  /** The planner has given this answer to a transcript that starts with `first`. */
  ghost predicate AnswerTo(trace: string, first: seq<Message>, goal: string, transcript: seq<Message>,
                           answer: PlannerAnswer, a: Moment, b: Moment)
  {
    first <= transcript && Heard(PlannerAnswered(trace, goal, transcript, answer), a, b)
  }

  ghost predicate HeardAnswer(trace: string, first: seq<Message>, answer: PlannerAnswer, a: Moment, b: Moment) {
    exists goal, transcript :: AnswerTo(trace, first, goal, transcript, answer, a, b)
  }

  /** A reply without calls, blank or not. */
  ghost predicate HeardReply(trace: string, first: seq<Message>, m: AssistantReply, blank: bool, a: Moment, b: Moment) {
    HeardAnswer(trace, first, Replies(m), a, b) && m.calls == [] && (blank <==> Blank(m.content))
  }

  /** The outside has given the run its reason to stop, or the steps or the tolerance for errors are used up. */
  ghost predicate StopGiven(stop: StopReason, limits: Limits, trace: string, first: seq<Message>,
                            answer: Option<string>, step: nat, errors: nat, a: Moment, b: Moment)
  {
    match stop
    case USER_CANCELLED =>
      || Heard(Objected(trace, STOP_REQUESTED), a, b) || Heard(Objected(trace, CANCELLED_BY_USER), a, b)
      || HeardAnswer(trace, first, CancelledBefore, a, b)
    case CONSTRAINT_VIOLATION => Heard(Objected(trace, VIOLATED), a, b)
    case BUDGET_EXHAUSTED => Heard(Objected(trace, LATE), a, b)
    case MAX_STEPS => step >= limits.steps
    case LLM_ERROR_ABORT =>
      HeardAnswer(trace, first, PlannerRaises, a, b) || exists m :: HeardReply(trace, first, m, true, a, b)
    case MODEL_FINAL => exists m :: HeardReply(trace, first, m, false, a, b) && answer == Some(m.content)
    case TOOL_ERROR_ABORT => limits.abort || errors >= limits.errors
    case APPROVAL_REQUIRED => true
    case EXECUTION_IN_DOUBT => true
    case _ => false
  }

  /** A call of a batch that the planner has replied with has raised. */
  ghost predicate RaisedInReply(d: Desk, first: seq<Message>, m: AssistantReply, f: Failure, a: Moment, b: Moment) {
    HeardAnswer(d.trace, first, Replies(m), a, b) && RaiseExplained(d, m.calls, f, a, b)
  }

  ghost predicate RaiseGiven(d: Desk, first: seq<Message>, f: Failure, a: Moment, b: Moment) {
    exists m :: RaisedInReply(d, first, m, f, a, b)
  }

  /** A run was ended by an exception of a call, of the batch it was resumed with or of one the planner replied with. */
  ghost predicate RaisedFor(d: Desk, first: seq<Message>, batch: seq<ToolCall>, f: Failure, a: Moment, b: Moment) {
    RaiseExplained(d, batch, f, a, b) || RaiseGiven(d, first, f, a, b)
  }

  lemma AnswerGiven(trace: string, first: seq<Message>, goal: string, transcript: seq<Message>, answer: PlannerAnswer,
                    a: Moment, b: Moment)
    requires AnswerTo(trace, first, goal, transcript, answer, a, b)
    ensures HeardAnswer(trace, first, answer, a, b)
  {
  }

  lemma AnswerLonger(trace: string, first: seq<Message>, answer: PlannerAnswer, a: Moment, b: Moment,
                     first': seq<Message>, a': Moment, b': Moment)
    requires HeardAnswer(trace, first, answer, a, b)
    requires |a'.told| <= |a.told| && b.told <= b'.told && first' <= first
    ensures HeardAnswer(trace, first', answer, a', b')
  {
    hide Heard;
    var goal, transcript :| AnswerTo(trace, first, goal, transcript, answer, a, b);
    HeardLonger(PlannerAnswered(trace, goal, transcript, answer), a, b, a', b');
    assert AnswerTo(trace, first', goal, transcript, answer, a', b');
  }

  /** What was heard since a later moment was heard since an earlier one. */
  lemma Sooner(trace: string, a: Moment, b: Moment, c: Moment, violated: bool, late: bool)
    requires |a.told| <= |b.told|
    requires violated ==> Heard(Objected(trace, VIOLATED), b, c)
    requires late ==> Heard(Objected(trace, LATE), b, c)
    ensures violated ==> Heard(Objected(trace, VIOLATED), a, c)
    ensures late ==> Heard(Objected(trace, LATE), a, c)
  {
    hide Heard;
    if violated {
      HeardLonger(Objected(trace, VIOLATED), b, c, a, c);
    }
    if late {
      HeardLonger(Objected(trace, LATE), b, c, a, c);
    }
  }

  lemma ObjectionGiven(limits: Limits, trace: string, first: seq<Message>, answer: Option<string>, step: nat,
                       errors: nat, violated: bool, late: bool, a: Moment, b: Moment)
    requires violated ==> Heard(Objected(trace, VIOLATED), a, b)
    requires late ==> Heard(Objected(trace, LATE), a, b)
    ensures violated ==> StopGiven(CONSTRAINT_VIOLATION, limits, trace, first, answer, step, errors, a, b)
    ensures late ==> StopGiven(BUDGET_EXHAUSTED, limits, trace, first, answer, step, errors, a, b)
  {
  }

  lemma StopGivenLonger(stop: StopReason, limits: Limits, trace: string, first: seq<Message>, answer: Option<string>,
                        step: nat, errors: nat, a: Moment, b: Moment, first': seq<Message>, a': Moment, b': Moment)
    requires |a'.told| <= |a.told| && b.told <= b'.told && first' <= first
    requires StopGiven(stop, limits, trace, first, answer, step, errors, a, b)
    ensures StopGiven(stop, limits, trace, first', answer, step, errors, a', b')
  {
    hide Heard, Blank, HeardAnswer;
    forall n | Heard(n, a, b) ensures Heard(n, a', b') {
      HeardLonger(n, a, b, a', b');
    }
    forall answer | HeardAnswer(trace, first, answer, a, b) ensures HeardAnswer(trace, first', answer, a', b') {
      AnswerLonger(trace, first, answer, a, b, first', a', b');
    }
    if stop == MODEL_FINAL {
      var m :| HeardReply(trace, first, m, false, a, b) && answer == Some(m.content);
      assert HeardReply(trace, first', m, false, a', b');
    } else if stop == LLM_ERROR_ABORT && !HeardAnswer(trace, first, PlannerRaises, a, b) {
      var m :| HeardReply(trace, first, m, true, a, b);
      assert HeardReply(trace, first', m, true, a', b');
    }
  }

  lemma RaiseGivenLonger(d: Desk, first: seq<Message>, f: Failure, a: Moment, b: Moment, first': seq<Message>,
                         a': Moment)
    requires Wider(a, b, a', b) && first' <= first && RaiseGiven(d, first, f, a, b)
    ensures RaiseGiven(d, first', f, a', b)
  {
    hide HeardAnswer, RaiseExplained;
    var m :| RaisedInReply(d, first, m, f, a, b);
    AnswerLonger(d.trace, first, Replies(m), a, b, first', a', b);
    RaiseWider(d, m.calls, f, a, b, a', b);
    assert RaisedInReply(d, first', m, f, a', b);
  }

  /** What a step itself stops for was said by the planner, or the tolerance for errors is used up. */
  lemma StepStopGiven(limits: Limits, trace: string, first: seq<Message>, answer: PlannerAnswer, o: StepResult,
                      final: Option<string>, step: nat, errors: nat, a: Moment, b: Moment)
    requires HeardAnswer(trace, first, answer, a, b)
    requires StepStop(limits.abort, limits.errors, answer, o, errors).Some?
    requires StepStop(limits.abort, limits.errors, answer, o, errors) == Some(MODEL_FINAL) && answer.Replies? ==>
               final == Some(answer.message.content)
    ensures StopGiven(StepStop(limits.abort, limits.errors, answer, o, errors).value, limits, trace, first, final, step,
                      errors, a, b)
  {
    hide HeardAnswer, Blank, AnyError;
    if answer.Replies? && answer.message.calls == [] {
      assert HeardReply(trace, first, answer.message, Blank(answer.message.content), a, b);
    }
  }

  /** An exception of a step comes from a call of the batch that the planner has replied with. */
  lemma StepRaiseGiven(d: Desk, first: seq<Message>, answer: PlannerAnswer, o: StepResult, ms: seq<Message>,
                       ms': seq<Message>, asked: Option<PendingApproval>, uncertain: Option<PendingReconciliation>,
                       a: Moment, b: Moment)
    requires HeardAnswer(d.trace, first, answer, a, b) && o.StepRaised?
    requires StepDone(d, answer, o, ms, ms', asked, uncertain, a, b)
    ensures RaiseGiven(d, first, o.failure, a, b)
  {
    hide HeardAnswer, RaiseExplained;
    var m := answer.message;
    assert m.calls[0..] == m.calls;
    assert RaisedInReply(d, first, m, o.failure, a, b);
  }
}
