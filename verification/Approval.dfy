/** The request that lists a batch for the person who decides on it. */
module Approval {
  import opened Options
  import opened SideEffects
  import opened AgentState
  import opened ToolPolicy

  /** The request shows every call of the batch, in order, and which of them are gated. */
  predicate Describes(p: ApprovalPolicy, registry: Registry, calls: seq<ToolCall>, listed: seq<RequestedCall>) {
    && |listed| == |calls|
    && forall i :: 0 <= i < |calls| ==>
                     listed[i] == RequestedCall(calls[i].id, calls[i].name, RiskOf(registry, calls[i].name),
                                                Gated(p, registry, calls[i]))
  }

  predicate HasGated(p: ApprovalPolicy, registry: Registry, calls: seq<ToolCall>) {
    exists i :: 0 <= i < |calls| && Gated(p, registry, calls[i])
  }

  method CreateRequest(p: ApprovalPolicy, registry: Registry, calls: seq<ToolCall>, traceId: string, step: nat,
                       freshId: string)
    returns (r: Option<ApprovalRequest>)
    ensures r.Some? <==> HasGated(p, registry, calls)
    ensures r.Some? ==> Describes(p, registry, calls, r.value.toolCalls)
    ensures r.Some? ==> r.value.requestId == freshId && r.value.traceId == traceId && r.value.step == step
  {
    var listed: seq<RequestedCall>, hasGated := [], false;
    for i := 0 to |calls|
      invariant Describes(p, registry, calls[..i], listed)
      invariant hasGated <==> HasGated(p, registry, calls[..i])
    {
      var risk := RiskOf(registry, calls[i].name);
      var required := RequiresApproval(p, calls[i].name, risk);
      hasGated := hasGated || required;
      listed := listed + [RequestedCall(calls[i].id, calls[i].name, risk, required)];
      assert calls[..i + 1][i] == calls[i];
      assert forall k :: 0 <= k < i ==> calls[..i + 1][k] == calls[..i][k];
    }
    assert calls[..|calls|] == calls;
    r := if hasGated then Some(ApprovalRequest(freshId, traceId, step, listed)) else None;
  }
}
