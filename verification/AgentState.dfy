/**
 The state of one agent run, its transcript, and what a transcript owes to the ledger.
 */
module AgentState {
  import opened Options
  import opened ExecutionLedger
  import opened SideEffects
  import opened ToolOutput
  import opened ToolPolicy
  import StepRecords

  datatype StopReason =
    | MODEL_FINAL | MAX_STEPS | BUDGET_EXHAUSTED | LLM_ERROR_ABORT | TOOL_ERROR_ABORT | ERROR
    | USER_CANCELLED | USER_PAUSED | APPROVAL_REQUIRED | EXECUTION_IN_DOUBT | CONSTRAINT_VIOLATION

  datatype Message =
    | System(content: string)
    | User(content: string)
    | Assistant(content: string, calls: seq<ToolCall>)
    | Tool(id: string, content: string)

  datatype ToolCallRecord = ToolCallRecord(toolName: string, output: Option<string>, error: Option<string>)

  datatype RequestedCall = RequestedCall(callId: string, toolName: string, risk: RiskLevel, requiresApproval: bool)

  datatype ApprovalRequest = ApprovalRequest(requestId: string, traceId: string, step: nat,
                                             toolCalls: seq<RequestedCall>)

  datatype PendingApproval = PendingApproval(request: ApprovalRequest, message: Message)

  /** The batch that stopped midway: its message and the results before the uncertain call. */
  datatype Frozen = Frozen(message: Message, before: seq<Message>)

  datatype PendingReconciliation = PendingReconciliation(
    callId: string,
    toolName: string,
    reason: string,
    frozen: Option<Frozen>)

  datatype PlanStatus = PENDING | IN_PROGRESS | DONE | FAILED | SKIPPED

  datatype PlanStep = PlanStep(id: string, goal: string, status: PlanStatus, result: Option<string>)

  datatype TokenUsage = TokenUsage(prompt: nat, completion: nat, total: nat)

  predicate UniqueIds(calls: seq<ToolCall>) {
    forall i, j :: 0 <= i < j < |calls| ==> calls[i].id != calls[j].id
  }

  /** A model reply: its tool call ids are unique within the message. */
  type AssistantReply = m: Message | m.Assistant? && UniqueIds(m.calls) witness Assistant("", [])

  /** What a feedback provider may add between steps. */
  type Feedback = m: Message | m.System? || m.User? witness User("")

  // ---- Transcripts ----

  /** One tool message per call, same ids, same order. */
  predicate AnsweredBy(calls: seq<ToolCall>, results: seq<Message>) {
    && |results| == |calls|
    && forall i :: 0 <= i < |calls| ==> results[i].Tool? && results[i].id == calls[i].id
  }

  /** Every assistant message with tool calls is directly followed by exactly the answers to them. */
  predicate Paired(ms: seq<Message>) {
    ms == [] ||
    match ms[0]
    case Tool(_, _) => false
    case Assistant(_, calls) =>
      |calls| < |ms| && AnsweredBy(calls, ms[1..|calls| + 1]) && Paired(ms[|calls| + 1..])
    case _ => Paired(ms[1..])
  }

  /** How the messages of a trace are judged: against a ledger table, for a registry, with or without a
      ledger. */
  datatype View = View(table: Table, registry: Registry, hasLedger: bool, trace: string)

  predicate Ledgered(v: View, call: ToolCall) {
    v.hasLedger && SideEffecting(v.registry, call.name)
  }

  /** What the model is shown of a ledgered call is an error, the cancellation notice, or exactly the
      content stored with its completion. */
  predicate Shown(v: View, call: ToolCall, content: string) {
    Ledgered(v, call) && !IsError(content) && content != CANCELLED ==>
      var key := CallKey(v.trace, call);
      key in v.table && v.table[key].status == Completed && v.table[key].result == Some(content)
  }

  predicate ShownBy(v: View, calls: seq<ToolCall>, results: seq<Message>) {
    AnsweredBy(calls, results) && forall i :: 0 <= i < |calls| ==> Shown(v, calls[i], results[i].content)
  }

  /** A paired transcript in which every answer is `Shown`. */
  predicate Faithful(v: View, ms: seq<Message>) {
    ms == [] ||
    match ms[0]
    case Tool(_, _) => false
    case Assistant(_, calls) =>
      |calls| < |ms| && ShownBy(v, calls, ms[1..|calls| + 1]) && Faithful(v, ms[|calls| + 1..])
    case _ => Faithful(v, ms[1..])
  }

  /** The number of messages in the group that starts a paired transcript. */
  function GroupSize(ms: seq<Message>): nat
    requires ms != []
  {
    if ms[0].Assistant? then |ms[0].calls| + 1 else 1
  }

  lemma {:induction false} FaithfulPaired(v: View, ms: seq<Message>)
    requires Faithful(v, ms)
    ensures Paired(ms)
    decreases |ms|
  {
    if ms != [] {
      FaithfulPaired(v, ms[GroupSize(ms)..]);
    }
  }

  lemma {:induction false} FaithfulConcat(v: View, a: seq<Message>, b: seq<Message>)
    requires Faithful(v, a) && Faithful(v, b)
    ensures Faithful(v, a + b)
    decreases |a|
  {
    hide Shown, ShownBy;
    if a == [] {
      assert a + b == b;
    } else {
      var n := GroupSize(a);
      FaithfulConcat(v, a[n..], b);
      assert (a + b)[n..] == a[n..] + b;
      assert (a + b)[1..n] == a[1..n];
    }
  }

  lemma FaithfulGroup(v: View, m: Message, results: seq<Message>)
    requires m.Assistant? && ShownBy(v, m.calls, results)
    ensures Faithful(v, [m] + results)
  {
    var ms := [m] + results;
    assert ms[1..|m.calls| + 1] == results;
    assert ms[|m.calls| + 1..] == [];
  }

  lemma {:induction false} FaithfulFeedback(v: View, ms: seq<Feedback>)
    ensures Faithful(v, ms)
    decreases |ms|
  {
    if ms != [] {
      var rest: seq<Feedback> := ms[1..];
      FaithfulFeedback(v, rest);
    }
  }

  lemma ShownGrows(v: View, t: Table, calls: seq<ToolCall>, results: seq<Message>)
    requires Grows(v.table, t) && ShownBy(v, calls, results)
    ensures ShownBy(v.(table := t), calls, results)
  {
    forall i | 0 <= i < |calls| ensures Shown(v.(table := t), calls[i], results[i].content) {
      assert Shown(v, calls[i], results[i].content);
    }
  }

  /** Stored outcomes never change, so a faithful transcript stays faithful. */
  lemma {:induction false} FaithfulGrows(v: View, t: Table, ms: seq<Message>)
    requires Grows(v.table, t) && Faithful(v, ms)
    ensures Faithful(v.(table := t), ms)
    decreases |ms|
  {
    if ms != [] {
      if ms[0].Assistant? {
        ShownGrows(v, t, ms[0].calls, ms[1..GroupSize(ms)]);
      }
      FaithfulGrows(v, t, ms[GroupSize(ms)..]);
    }
  }

  // ---- The mutable run state ----

  class AgentLoopState {
    const traceId: string
    var goal: string
    var messages: seq<Message>
    var step: nat
    var stopReason: Option<StopReason>
    var finalAnswer: Option<string>
    var consecutiveToolErrors: nat
    var toolCalls: seq<ToolCallRecord>
    var steps: seq<StepRecords.StepRecord>
    /** Without the two histories, which the source keeps here too. */
    var metadata: StepRecords.Metadata
    var tokenUsage: TokenUsage
    var pendingApproval: Option<PendingApproval>
    var pendingReconciliation: Option<PendingReconciliation>
    var plan: seq<PlanStep>
    var approvalHistory: seq<string>
    var reconciliationHistory: seq<string>

    constructor (goal: string, messages: seq<Message>, traceId: string)
      ensures this.goal == goal && this.messages == messages && this.traceId == traceId
      ensures step == 0 && stopReason.None? && finalAnswer.None? && consecutiveToolErrors == 0
      ensures toolCalls == [] && pendingApproval.None? && pendingReconciliation.None? && plan == []
    {
      this.goal, this.messages, this.traceId := goal, messages, traceId;
      step, stopReason, finalAnswer, consecutiveToolErrors := 0, None, None, 0;
      toolCalls, pendingApproval, pendingReconciliation, plan := [], None, None, [];
      approvalHistory, reconciliationHistory := [], [];
      steps, metadata, tokenUsage := [], map[], TokenUsage(0, 0, 0);
    }
  }
}
