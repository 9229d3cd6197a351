/**
 The checkpoint document of a paused run: serialising a state, and building a state from a document.
 Messages and pending records are stored as they are; enumerations are stored by their values and tool
 output is cut to a limit.
 */
module Snapshot {
  import opened Options
  import opened AgentState
  import opened StepRecords

  datatype PlanDoc = PlanDoc(id: string, goal: string, status: string, result: Option<string>)

  datatype Document = Document(
    goal: string,
    traceId: string,
    step: nat,
    messages: seq<Message>,
    pendingApproval: Option<PendingApproval>,
    pendingReconciliation: Option<PendingReconciliation>,
    toolCalls: seq<ToolCallRecord>,
    steps: seq<StepDoc>,
    metadata: Metadata,
    tokenUsage: TokenUsage,
    finalAnswer: Option<string>,
    stopReason: Option<string>,
    consecutiveToolErrors: nat,
    plan: seq<PlanDoc>,
    approvalHistory: seq<string>,
    reconciliationHistory: seq<string>)

  const SUFFIX := "... [truncated]"

  function StopValue(r: StopReason): string {
    match r
    case MODEL_FINAL => "model_final"
    case MAX_STEPS => "max_steps"
    case BUDGET_EXHAUSTED => "budget_exhausted"
    case LLM_ERROR_ABORT => "llm_error_abort"
    case TOOL_ERROR_ABORT => "tool_error_abort"
    case ERROR => "error"
    case USER_CANCELLED => "user_cancelled"
    case USER_PAUSED => "user_paused"
    case APPROVAL_REQUIRED => "approval_required"
    case EXECUTION_IN_DOUBT => "execution_in_doubt"
    case CONSTRAINT_VIOLATION => "constraint_violation"
  }

  const STOP_REASONS := [
    MODEL_FINAL, MAX_STEPS, BUDGET_EXHAUSTED, LLM_ERROR_ABORT, TOOL_ERROR_ABORT, ERROR,
    USER_CANCELLED, USER_PAUSED, APPROVAL_REQUIRED, EXECUTION_IN_DOUBT, CONSTRAINT_VIOLATION]

  function StatusValue(s: PlanStatus): string {
    match s
    case PENDING => "pending"
    case IN_PROGRESS => "in_progress"
    case DONE => "done"
    case FAILED => "failed"
    case SKIPPED => "skipped"
  }

  const PLAN_STATUSES := [PENDING, IN_PROGRESS, DONE, FAILED, SKIPPED]

  function StopOf(s: string): Option<StopReason> {
    Lookup(STOP_REASONS, StopValue, s)
  }

  function StatusOf(s: string): Option<PlanStatus> {
    Lookup(PLAN_STATUSES, StatusValue, s)
  }

  lemma StopValuesDiffer(r: StopReason, r': StopReason)
    requires StopValue(r) == StopValue(r')
    ensures r == r'
  {
    var s := StopValue(r);
    assert s[0] == StopValue(r')[0] && s[|s| - 1] == StopValue(r')[|s| - 1] && |s| == |StopValue(r')|;
  }

  lemma StopRoundTrip(r: StopReason)
    ensures StopOf(StopValue(r)) == Some(r) && StopValue(r) != ""
  {
    var found := StopOf(StopValue(r));
    assert r in STOP_REASONS by {
      assert STOP_REASONS[0] == MODEL_FINAL && STOP_REASONS[1] == MAX_STEPS && STOP_REASONS[2] == BUDGET_EXHAUSTED;
      assert STOP_REASONS[3] == LLM_ERROR_ABORT && STOP_REASONS[4] == TOOL_ERROR_ABORT && STOP_REASONS[5] == ERROR;
      assert STOP_REASONS[6] == USER_CANCELLED && STOP_REASONS[7] == USER_PAUSED
             && STOP_REASONS[8] == APPROVAL_REQUIRED;
      assert STOP_REASONS[9] == EXECUTION_IN_DOUBT && STOP_REASONS[10] == CONSTRAINT_VIOLATION;
    }
    if found.Some? {
      StopValuesDiffer(found.value, r);
    }
  }

  lemma StatusRoundTrip(s: PlanStatus)
    ensures StatusOf(StatusValue(s)) == Some(s)
  {
    var found := StatusOf(StatusValue(s));
    assert s in PLAN_STATUSES by {
      assert PLAN_STATUSES[0] == PENDING && PLAN_STATUSES[1] == IN_PROGRESS && PLAN_STATUSES[2] == DONE;
      assert PLAN_STATUSES[3] == FAILED && PLAN_STATUSES[4] == SKIPPED;
    }
    if found.Some? {
      assert StatusValue(found.value)[0] == StatusValue(s)[0] && |StatusValue(found.value)| == |StatusValue(s)|;
    }
  }

  // ---- Serialising ----

  function Truncate(text: Option<string>, limit: nat): Option<string> {
    if text.None? || |text.value| <= limit then text else Some(text.value[..limit] + SUFFIX)
  }

  /** A text within the limit stays. Any other keeps its start up to the limit, gets the same end, and is still over the
      limit, so that cutting it again changes nothing. */
  lemma TruncateTwice(text: Option<string>, limit: nat)
    ensures Truncate(Truncate(text, limit), limit) == Truncate(text, limit)
    ensures text.None? || |text.value| <= limit ==> Truncate(text, limit) == text
    ensures text.Some? && |text.value| > limit ==>
              var r := Truncate(text, limit);
              r.Some? && |r.value| > limit && r.value[..limit] == text.value[..limit] && r.value[limit..] == SUFFIX
  {
    if text.Some? && |text.value| > limit {
      var cut := text.value[..limit] + SUFFIX;
      assert cut[..limit] == text.value[..limit] && cut[limit..] == SUFFIX;
    }
  }

  function CutCalls(calls: seq<ToolCallRecord>, limit: nat): (r: seq<ToolCallRecord>)
    ensures |r| == |calls|
    ensures forall i :: 0 <= i < |r| ==> r[i] == calls[i].(output := Truncate(calls[i].output, limit))
  {
    seq(|calls|, i requires 0 <= i < |calls| => calls[i].(output := Truncate(calls[i].output, limit)))
  }

  function PlanDocs(plan: seq<PlanStep>): (r: seq<PlanDoc>)
    ensures |r| == |plan|
    ensures forall i :: 0 <= i < |r| ==>
                          r[i] == PlanDoc(plan[i].id, plan[i].goal, StatusValue(plan[i].status), plan[i].result)
  {
    seq(|plan|, i requires 0 <= i < |plan| =>
      PlanDoc(plan[i].id, plan[i].goal, StatusValue(plan[i].status), plan[i].result))
  }

  function StepDocs(steps: seq<StepRecord>): (r: seq<StepDoc>)
    ensures |r| == |steps| && forall i :: 0 <= i < |r| ==> r[i] == WriteStep(steps[i])
  {
    seq(|steps|, i requires 0 <= i < |steps| => WriteStep(steps[i]))
  }

  function StopText(stop: Option<StopReason>): Option<string> {
    if stop.None? then None else Some(StopValue(stop.value))
  }

  function SerializeState(st: AgentLoopState, limit: nat): Document
    reads st
  {
    Document(st.goal, st.traceId, st.step, st.messages, st.pendingApproval, st.pendingReconciliation,
             CutCalls(st.toolCalls, limit), StepDocs(st.steps), st.metadata, st.tokenUsage, st.finalAnswer,
             StopText(st.stopReason), st.consecutiveToolErrors,
             PlanDocs(st.plan), st.approvalHistory, st.reconciliationHistory)
  }

  // ---- Deserialising ----

  /** A missing or empty stop reason is no stop reason. */
  function ReadStop(s: Option<string>): Option<Option<StopReason>> {
    if s.None? || s.value == "" then Some(None)
    else if StopOf(s.value).None? then None
    else Some(StopOf(s.value))
  }

  predicate PlanReadable(docs: seq<PlanDoc>) {
    forall i :: 0 <= i < |docs| ==> StatusOf(docs[i].status).Some?
  }

  function PlanOf(docs: seq<PlanDoc>): (plan: seq<PlanStep>)
    requires PlanReadable(docs)
    ensures |plan| == |docs|
    ensures forall i :: 0 <= i < |docs| ==>
                          plan[i] == PlanStep(docs[i].id, docs[i].goal, StatusOf(docs[i].status).value, docs[i].result)
  {
    seq(|docs|, i requires 0 <= i < |docs| => PlanStep(docs[i].id, docs[i].goal, StatusOf(docs[i].status).value,
                                                       docs[i].result))
  }

  predicate StepsReadable(docs: seq<StepDoc>) {
    forall i :: 0 <= i < |docs| ==> StepReadable(docs[i])
  }

  function StepsOf(docs: seq<StepDoc>): (steps: seq<StepRecord>)
    requires StepsReadable(docs)
    ensures |steps| == |docs| && forall i :: 0 <= i < |docs| ==> steps[i] == ReadStep(docs[i])
  {
    seq(|docs|, i requires 0 <= i < |docs| => ReadStep(docs[i]))
  }

  predicate Readable(d: Document) {
    ReadStop(d.stopReason).Some? && PlanReadable(d.plan) && StepsReadable(d.steps)
  }

  /** The state holds what the document says. */
  predicate Restores(st: AgentLoopState, d: Document)
    reads st
    requires Readable(d)
  {
    && st.goal == d.goal && st.traceId == d.traceId && st.step == d.step && st.messages == d.messages
    && st.pendingApproval == d.pendingApproval && st.pendingReconciliation == d.pendingReconciliation
    && st.toolCalls == d.toolCalls && st.finalAnswer == d.finalAnswer && st.stopReason == ReadStop(d.stopReason).value
    && st.consecutiveToolErrors == d.consecutiveToolErrors
    && st.plan == PlanOf(d.plan) && st.steps == StepsOf(d.steps)
    && st.metadata == d.metadata && st.tokenUsage == d.tokenUsage
    && st.approvalHistory == d.approvalHistory && st.reconciliationHistory == d.reconciliationHistory
  }

  method ReadPlan(docs: seq<PlanDoc>) returns (plan: Option<seq<PlanStep>>)
    ensures plan.Some? <==> PlanReadable(docs)
    ensures plan.Some? ==> plan.value == PlanOf(docs)
  {
    var steps: seq<PlanStep> := [];
    for i := 0 to |docs|
      invariant PlanReadable(docs[..i]) && steps == PlanOf(docs[..i])
    {
      var status := StatusOf(docs[i].status);
      if status.None? {
        return None;
      }
      assert docs[..i + 1] == docs[..i] + [docs[i]];
      steps := steps + [PlanStep(docs[i].id, docs[i].goal, status.value, docs[i].result)];
    }
    assert docs[..|docs|] == docs;
    plan := Some(steps);
  }

  method ReadSteps(docs: seq<StepDoc>) returns (steps: Option<seq<StepRecord>>)
    ensures steps.Some? <==> StepsReadable(docs)
    ensures steps.Some? ==> steps.value == StepsOf(docs)
  {
    var read: seq<StepRecord> := [];
    for i := 0 to |docs|
      invariant StepsReadable(docs[..i]) && read == StepsOf(docs[..i])
    {
      if !StepReadable(docs[i]) {
        return None;
      }
      assert docs[..i + 1] == docs[..i] + [docs[i]];
      read := read + [ReadStep(docs[i])];
    }
    assert docs[..|docs|] == docs;
    steps := Some(read);
  }

  method FillProgress(st: AgentLoopState, d: Document)
    modifies st`step, st`finalAnswer, st`consecutiveToolErrors, st`pendingApproval, st`pendingReconciliation,
             st`approvalHistory, st`reconciliationHistory, st`metadata, st`tokenUsage
    ensures st.step == d.step && st.finalAnswer == d.finalAnswer
    ensures st.consecutiveToolErrors == d.consecutiveToolErrors
    ensures st.pendingApproval == d.pendingApproval && st.pendingReconciliation == d.pendingReconciliation
    ensures st.approvalHistory == d.approvalHistory && st.reconciliationHistory == d.reconciliationHistory
    ensures st.metadata == d.metadata && st.tokenUsage == d.tokenUsage
  {
    st.step, st.finalAnswer, st.consecutiveToolErrors := d.step, d.finalAnswer, d.consecutiveToolErrors;
    st.pendingApproval, st.pendingReconciliation := d.pendingApproval, d.pendingReconciliation;
    st.approvalHistory, st.reconciliationHistory := d.approvalHistory, d.reconciliationHistory;
    st.metadata, st.tokenUsage := d.metadata, d.tokenUsage;
  }

  /** A state with the parts of a document. */
  method Rebuild(d: Document, stop: Option<StopReason>, steps: seq<StepRecord>, plan: seq<PlanStep>,
                 calls: seq<ToolCallRecord>)
    returns (st: AgentLoopState)
    ensures fresh(st)
    ensures st.goal == d.goal && st.traceId == d.traceId && st.step == d.step && st.messages == d.messages
    ensures st.pendingApproval == d.pendingApproval && st.pendingReconciliation == d.pendingReconciliation
    ensures st.toolCalls == calls && st.finalAnswer == d.finalAnswer && st.stopReason == stop
    ensures st.consecutiveToolErrors == d.consecutiveToolErrors && st.plan == plan && st.steps == steps
    ensures st.metadata == d.metadata && st.tokenUsage == d.tokenUsage
    ensures st.approvalHistory == d.approvalHistory && st.reconciliationHistory == d.reconciliationHistory
  {
    st := new AgentLoopState(d.goal, d.messages, d.traceId);
    FillProgress(st, d);
    st.stopReason, st.steps, st.plan, st.toolCalls := stop, steps, plan, calls;
  }

  /** An unknown enumeration value is refused; every other document gives a state. */
  method DeserializeState(d: Document) returns (st: AgentLoopState?)
    ensures st != null <==> Readable(d)
    ensures st != null ==> fresh(st) && Restores(st, d)
  {
    var stop := ReadStop(d.stopReason);
    if stop.None? {
      return null;
    }
    var steps := ReadSteps(d.steps);
    if steps.None? {
      return null;
    }
    var plan := ReadPlan(d.plan);
    if plan.None? {
      return null;
    }
    var calls: seq<ToolCallRecord> := [];
    for i := 0 to |d.toolCalls|
      invariant calls == d.toolCalls[..i]
    {
      calls := calls + [d.toolCalls[i]];
    }
    st := Rebuild(d, stop.value, steps.value, plan.value, calls);
  }

  ghost predicate NoExtras(steps: seq<StepRecord>) {
    forall i :: 0 <= i < |steps| ==> NothingExtra(steps[i])
  }

  /** Written step records can be read. They come back as they were if and only if none has anything that the
      document has no place for; written again they give the same documents. */
  lemma StepsRoundTrip(steps: seq<StepRecord>)
    ensures StepsReadable(StepDocs(steps))
    ensures StepsOf(StepDocs(steps)) == steps <==> NoExtras(steps)
    ensures StepDocs(StepsOf(StepDocs(steps))) == StepDocs(steps)
  {
    forall i | 0 <= i < |steps|
      ensures StepReadable(StepDocs(steps)[i])
      ensures ReadStep(StepDocs(steps)[i]) == steps[i] <==> NothingExtra(steps[i])
      ensures WriteStep(ReadStep(StepDocs(steps)[i])) == StepDocs(steps)[i]
    {
      StepRoundTrip(steps[i]);
    }
    var back := StepsOf(StepDocs(steps));
    assert back == steps ==> forall i :: 0 <= i < |steps| ==> back[i] == steps[i];
  }

  /** Every serialised state can be read again, with all its parts: only tool output may have been cut. */
  lemma SerializedReadable(st: AgentLoopState, limit: nat)
    ensures var d := SerializeState(st, limit);
            && Readable(d) && ReadStop(d.stopReason).value == st.stopReason
            && st.plan == PlanOf(d.plan)
  {
    if st.stopReason.Some? {
      StopRoundTrip(st.stopReason.value);
    }
    StepsRoundTrip(st.steps);
    forall i | 0 <= i < |st.plan| ensures StatusOf(StatusValue(st.plan[i].status)) == Some(st.plan[i].status) {
      StatusRoundTrip(st.plan[i].status);
    }
  }

  /** A state saved, loaded and saved again gives the same document. */
  method SaveLoadSave(st: AgentLoopState, limit: nat) returns (loaded: AgentLoopState, again: Document)
    ensures fresh(loaded) && again == SerializeState(st, limit)
    ensures loaded.goal == st.goal && loaded.step == st.step && loaded.messages == st.messages
            && loaded.traceId == st.traceId
    ensures loaded.pendingApproval == st.pendingApproval && loaded.pendingReconciliation == st.pendingReconciliation
    ensures loaded.plan == st.plan && loaded.stopReason == st.stopReason && loaded.finalAnswer == st.finalAnswer
    ensures loaded.toolCalls == CutCalls(st.toolCalls, limit)
    ensures loaded.metadata == st.metadata && loaded.tokenUsage == st.tokenUsage
    ensures loaded.approvalHistory == st.approvalHistory && loaded.reconciliationHistory == st.reconciliationHistory
    ensures loaded.consecutiveToolErrors == st.consecutiveToolErrors
    ensures loaded.steps == st.steps <==> NoExtras(st.steps)
  {
    var d := SerializeState(st, limit);
    SerializedReadable(st, limit);
    loaded := DeserializeState(d);
    assert loaded.plan == st.plan;
    StepsRoundTrip(st.steps);
    again := SerializeState(loaded, limit);
    forall i | 0 <= i < |st.toolCalls|
      ensures Truncate(Truncate(st.toolCalls[i].output, limit), limit) == Truncate(st.toolCalls[i].output, limit)
    {
      TruncateTwice(st.toolCalls[i].output, limit);
    }
    assert again.toolCalls == d.toolCalls;
  }
}
