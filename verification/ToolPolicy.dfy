/** The risk of a tool, and which tool calls need a human decision. */
module ToolPolicy {
  import opened SideEffects

  datatype RiskLevel = READ | WRITE | DESTRUCTIVE

  /** The executable skills by name. */
  type Registry = map<string, RiskLevel>

  predicate SideEffecting(registry: Registry, name: string) {
    name in registry && registry[name] != READ
  }

  datatype ApprovalPolicy = ApprovalPolicy(
    requiredRiskLevels: set<RiskLevel>,
    requiredTools: set<string>,
    exemptTools: set<string>)

  predicate RequiresApproval(p: ApprovalPolicy, name: string, risk: RiskLevel) {
    name !in p.exemptTools && (name in p.requiredTools || risk in p.requiredRiskLevels)
  }

  /** An unknown tool counts as destructive. */
  function RiskOf(registry: Registry, name: string): RiskLevel {
    if name in registry then registry[name] else DESTRUCTIVE
  }

  /** The policy of a run that is configured without one of its own. */
  function DefaultPolicy(): ApprovalPolicy {
    ApprovalPolicy({WRITE, DESTRUCTIVE}, {}, {})
  }

  /** By default exactly the side effects and the calls of unknown tools need approval. */
  lemma DefaultGatesSideEffects(registry: Registry, call: ToolCall)
    ensures Gated(DefaultPolicy(), registry, call) <==> SideEffecting(registry, call.name) || call.name !in registry
  {
    var risk := RiskOf(registry, call.name);
    assert risk == READ || risk in {WRITE, DESTRUCTIVE};
  }

  /** Names come before risks, and an exemption before a requirement; a call of an unknown tool is gated like a
      destructive one and is no side effect of the ledger. */
  lemma WhoIsGated(p: ApprovalPolicy, registry: Registry, call: ToolCall)
    ensures call.name in p.exemptTools ==> !Gated(p, registry, call)
    ensures call.name in p.requiredTools - p.exemptTools ==> Gated(p, registry, call)
    ensures call.name !in p.requiredTools + p.exemptTools && call.name in registry ==>
              (Gated(p, registry, call) <==> registry[call.name] in p.requiredRiskLevels)
    ensures call.name !in p.requiredTools + p.exemptTools && call.name !in registry ==>
              (Gated(p, registry, call) <==> DESTRUCTIVE in p.requiredRiskLevels) && !SideEffecting(registry, call.name)
    ensures call.name in registry ==>
              (SideEffecting(registry, call.name) <==> registry[call.name] == WRITE
                                                       || registry[call.name] == DESTRUCTIVE)
  {
  }

  predicate Gated(p: ApprovalPolicy, registry: Registry, call: ToolCall) {
    RequiresApproval(p, call.name, RiskOf(registry, call.name))
  }
}
