/**
 The human ruling on one uncertain tool call: validation, its message, its stored form, and the fact
 that the two places that hand it to the ledger, the endpoint and the resumed run, ask for the same
 outcome.
 */
module Reconciliation {
  import opened Options
  import opened ExecutionLedger
  import opened LedgerClient
  import opened Redaction
  import opened ToolOutput

  /** A value of a JSON object as far as validation looks at it; an absent key reads as `Null`. */
  datatype Json = Null | Str(text: string) | OtherJson

  datatype RawDecision = RawDecision(toolCallId: Json, decision: Json, resultContent: Json, reason: Json, actorId: Json)

  datatype Decision = Decision(
    toolCallId: string,
    decision: string,
    resultContent: Option<string>,
    reason: Option<string>,
    actorId: Option<string>)

  /** Why a decision is refused. */
  datatype Problem =
    | CallIdMissing
    | UnknownVerdict
    | ResultMissing
    | ResultNotText
    | ReasonNotText
    | ActorNotText

  function ProblemText(p: Problem): string {
    "reconciliation_decision." +
    match p
    case CallIdMissing => "tool_call_id is required"
    case UnknownVerdict => "decision must be completed or failed"
    case ResultMissing => "result_content must be a string for completed"
    case ResultNotText => "result_content must be a string"
    case ReasonNotText => "reason must be a string"
    case ActorNotText => "actor_id must be a string"
  }

  datatype Parsed = Parsed(value: Decision) | Invalid(problem: Problem)

  // ---- str.strip ----

  function StripLeft(t: Lexicon, s: string): (r: string)
    ensures |r| <= |s|
    ensures r != [] ==> !t.space(r[0])
    ensures s == [] || !t.space(s[0]) ==> r == s
    ensures s != [] && !t.space(s[|s| - 1]) ==> r != [] && r[|r| - 1] == s[|s| - 1]
  {
    if s != [] && t.space(s[0]) then StripLeft(t, s[1..]) else s
  }

  function StripRight(t: Lexicon, s: string): (r: string)
    ensures |r| <= |s|
    ensures r != [] ==> !t.space(r[|r| - 1])
    ensures s == [] || !t.space(s[|s| - 1]) ==> r == s
    ensures r != [] ==> r[0] == s[0]
  {
    if s != [] && t.space(s[|s| - 1]) then StripRight(t, s[..|s| - 1]) else s
  }

  function Strip(t: Lexicon, s: string): string {
    StripRight(t, StripLeft(t, s))
  }

  lemma StripTwice(t: Lexicon, s: string)
    ensures Strip(t, Strip(t, s)) == Strip(t, s)
  {
    var r := Strip(t, s);
    if r != [] {
      assert r[0] == StripLeft(t, s)[0];
    }
  }

  // ---- ReconciliationDecision ----

  function OptionalText(j: Json): Option<string> {
    if j.Str? then Some(j.text) else None
  }

  function FromMapping(t: Lexicon, raw: RawDecision): Parsed {
    if !raw.toolCallId.Str? || Strip(t, raw.toolCallId.text) == "" then
      Invalid(CallIdMissing)
    else if raw.decision != Str("completed") && raw.decision != Str("failed") then
      Invalid(UnknownVerdict)
    else if raw.decision == Str("completed") && !raw.resultContent.Str? then
      Invalid(ResultMissing)
    else if raw.resultContent.OtherJson? then
      Invalid(ResultNotText)
    else if raw.reason.OtherJson? then
      Invalid(ReasonNotText)
    else if raw.actorId.OtherJson? then
      Invalid(ActorNotText)
    else
      Parsed(Decision(Strip(t, raw.toolCallId.text), raw.decision.text, OptionalText(raw.resultContent),
                      OptionalText(raw.reason), OptionalText(raw.actorId)))
  }

  function JsonText(o: Option<string>): Json {
    match o
    case None => Null
    case Some(s) => Str(s)
  }

  function RedactOptional(t: Lexicon, o: Option<string>): Option<string> {
    match o
    case None => None
    case Some(s) => Some(Redact(t, s))
  }

  /** `to_dict`, as it is read back from the stored checkpoint. */
  function ToDict(t: Lexicon, d: Decision): RawDecision {
    RawDecision(Str(d.toolCallId), Str(d.decision), JsonText(d.resultContent),
                JsonText(RedactOptional(t, d.reason)), JsonText(d.actorId))
  }

  /** `to_audit_dict()["reason"]`. */
  function AuditReason(t: Lexicon, d: Decision): Option<string> {
    RedactOptional(t, d.reason)
  }

  function TextOr(o: Option<string>, default: string): string {
    if o.None? || o.value == "" then default else o.value
  }

  function ToolMessageContent(t: Lexicon, d: Decision): string {
    if d.decision == "completed" then WrapUntrusted(Redact(t, TextOr(d.resultContent, "")))
    else
      ErrorText("Tool execution reconciled as failed by human reviewer: "
                + Redact(t, TextOr(d.reason, "downstream verification found no completed side effect")))
  }

  /** A ruling is shown as an error exactly if it does not say "completed", and then as the redacted result. */
  lemma RulingSays(t: Lexicon, d: Decision)
    ensures IsError(ToolMessageContent(t, d)) <==> d.decision != "completed"
    ensures d.decision == "completed" && d.resultContent.Some? ==>
              ToolMessageContent(t, d) == WrapUntrusted(Redact(t, d.resultContent.value))
  {
    hide IsError, WrapUntrusted, Redact, ErrorText;
    WrappedIsNoError(Redact(t, TextOr(d.resultContent, "")));
    WrappedIsNoError("Tool execution reconciled as failed by human reviewer: "
                     + Redact(t, TextOr(d.reason, "downstream verification found no completed side effect")));
  }

  /** What both callers pass to `DBToolExecutionLedger.resolve`. */
  function ResultArgument(t: Lexicon, d: Decision): Option<string> {
    if d.decision == "completed" then Some(ToolMessageContent(t, d)) else None
  }

  function ErrorArgument(t: Lexicon, d: Decision): Option<string> {
    Some(TextOr(AuditReason(t, d), DEFAULT_FAILURE))
  }

  function AskedOutcome(t: Lexicon, d: Decision): Option<Outcome> {
    Ruling(d.decision, ResultArgument(t, d), ErrorArgument(t, d))
  }

  /** The endpoint redacts the result of a validated decision before it uses and stores it. */
  function EndpointDecision(t: Lexicon, d: Decision): Decision {
    d.(resultContent := RedactOptional(t, d.resultContent))
  }

  /** Redaction never empties a text. */
  lemma RedactKeepsText(t: Lexicon, s: string)
    requires SourceLexicon(t)
    ensures Redact(t, s) == "" <==> s == ""
  {
    SourceIsSane(t);
    InlineSecretLawful(t);
  }

  /** What validation lets through. */
  predicate Validated(t: Lexicon, d: Decision) {
    && d.toolCallId != "" && Strip(t, d.toolCallId) == d.toolCallId
    && (d.decision == "completed" || d.decision == "failed")
    && (d.decision == "completed" ==> d.resultContent.Some?)
  }

  lemma ParsedIsValid(t: Lexicon, raw: RawDecision)
    requires FromMapping(t, raw).Parsed?
    ensures Validated(t, FromMapping(t, raw).value)
  {
    StripTwice(t, raw.toolCallId.text);
  }

  /** A valid decision written out as it is reads back as itself. */
  lemma ReadsBack(t: Lexicon, d: Decision)
    requires Validated(t, d)
    ensures FromMapping(t,
                        RawDecision(Str(d.toolCallId), Str(d.decision), JsonText(d.resultContent), JsonText(d.reason),
                                    JsonText(d.actorId)))
         == Parsed(d)
  {
    hide StripLeft, StripRight;
  }

  /** A stored decision reads back as the decision with its reason redacted. */
  lemma StoredDecision(t: Lexicon, raw: RawDecision)
    requires SourceLexicon(t) && FromMapping(t, raw).Parsed?
    ensures var d := EndpointDecision(t, FromMapping(t, raw).value);
            FromMapping(t, ToDict(t, d)) == Parsed(d.(reason := RedactOptional(t, d.reason)))
  {
    var d := EndpointDecision(t, FromMapping(t, raw).value);
    ParsedIsValid(t, raw);
    ReadsBack(t, d.(reason := RedactOptional(t, d.reason)));
  }

  /** The endpoint and the resumed run ask the ledger for the same outcome, and for one. */
  lemma DoubleResolveAgrees(t: Lexicon, raw: RawDecision)
    requires SourceLexicon(t) && FromMapping(t, raw).Parsed?
    ensures var d := EndpointDecision(t, FromMapping(t, raw).value);
            && AskedOutcome(t, d).Some?
            && FromMapping(t, ToDict(t, d)).Parsed?
            && AskedOutcome(t, FromMapping(t, ToDict(t, d)).value) == AskedOutcome(t, d)
  {
    hide ToolMessageContent, FromMapping, Redact, SourceLexicon, Strip;
    var d := EndpointDecision(t, FromMapping(t, raw).value);
    ParsedIsValid(t, raw);
    StoredDecision(t, raw);
    if d.decision == "completed" {
      SameResult(t, d);
    }
    if d.reason.Some? {
      RedactIdempotent(t, d.reason.value);
      RedactKeepsText(t, d.reason.value);
    }
  }

  /** The result that is shown does not depend on the reason. */
  lemma SameResult(t: Lexicon, d: Decision)
    requires d.decision == "completed"
    ensures ToolMessageContent(t, d.(reason := RedactOptional(t, d.reason))) == ToolMessageContent(t, d)
  {
    hide Redact, WrapUntrusted;
  }

  /** The row of the ruled call has the outcome asked for. */
  predicate HasAsked(t: Lexicon, table: Table, account: int, trace: string, d: Decision) {
    var o, row := AskedOutcome(t, d), Select(table, Key(trace, d.toolCallId), account);
    o.Some? && row.Some? && SameOutcome(row.value, o.value)
  }

  /** The ruling of one person as it runs: the endpoint resolves the ledger, others act, the resumed run
      reads the stored decision back and resolves again. After a first `Done` the second one never ends
      with "already resolved with a different outcome", and the row keeps the outcome. */
  method RuleTwice(t: Lexicon, ledger: DBToolExecutionLedger, me: int, trace: string, raw: RawDecision)
    returns (first: LedgerReply, second: LedgerReply)
    requires SourceLexicon(t) && FromMapping(t, raw).Parsed?
    requires ledger.database.Valid()
    modifies ledger.database
    ensures ledger.database.Valid()
    ensures first != BadDecision && second != BadDecision
    ensures first == Done ==> second == Done || second == Unavailable
    ensures first == Done ==>
              HasAsked(t, ledger.database.s.table, ledger.account, trace,
                       EndpointDecision(t, FromMapping(t, raw).value))
  {
    var d := EndpointDecision(t, FromMapping(t, raw).value);
    DoubleResolveAgrees(t, raw);
    first := ledger.Resolve(me, trace, d.toolCallId, d.decision, ResultArgument(t, d), ErrorArgument(t, d));
    if first != Done {
      second := Unavailable;
      return;
    }
    StoredDecision(t, raw);
    var stored := FromMapping(t, ToDict(t, d)).value;
    second := ledger.Resolve(me, trace, stored.toolCallId, stored.decision,
                             ResultArgument(t, stored), ErrorArgument(t, stored));
  }
}
