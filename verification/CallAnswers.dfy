/**
 What a tool call of a batch is answered with, and why. Every answer has a cause in what the worker has heard from
 the outside, in the handlers it has started and in the row of the call.
 */
module CallAnswers {
  import opened Options
  import opened ExecutionLedger
  import opened SideEffects
  import opened Discipline
  import opened LedgerClient
  import opened ToolOutput
  import opened AgentState

  /** Exceptions that leave Act. `Cancelled` is asyncio's and ends the process' task. */
  datatype Failure = ToolNotFound(name: string) | Cancelled

  datatype CallResult = Answered(message: Message) | CallRaised(failure: Failure)

  datatype BatchResult = Results(messages: seq<Message>) | BatchRaised(failure: Failure)

  datatype Notice = NOT_FINALIZED | PREVIOUS_FAILURE | BLOCKED | RESULT_NOT_STORED | ERROR_NOT_STORED | RAISED_LATE

  function NoticeText(n: Notice): string {
    match n
    case NOT_FINALIZED => "ToolExecutionLedgerError: failed to finalize tool execution ledger"
    case PREVIOUS_FAILURE => "previous execution failed"
    case BLOCKED => "previous process may have completed the side effect; automatic retry is blocked"
    case RESULT_NOT_STORED => "tool returned but its completion could not be persisted"
    case ERROR_NOT_STORED => "tool raised an error but its ledger outcome could not be persisted"
    case RAISED_LATE => "tool raised unexpectedly after execution began"
  }

  function InDoubtText(reason: string): string {
    "execution_in_doubt: " + reason
  }

  /** A claim that is not granted. */
  type Denial = c: LedgerClaim | !c.Claimed? witness InDoubt

  /** What the model is shown when the ledger keeps the handler from starting. */
  function LedgerText(claim: Denial): string {
    match claim
    case AlreadyCompleted(content) => content
    case AlreadyFailed(error) => ErrorText(if error == "" then NoticeText(PREVIOUS_FAILURE) else error)
    case InDoubt => ErrorText(InDoubtText(NoticeText(BLOCKED)))
    case ClaimError(message) => ErrorText(message)
  }

  /** Whose call it is. */
  datatype Desk = Desk(law: Law, me: int, trace: string, account: int)

  /** Why a call ends as it does: the user has stopped the run, validation refuses it, nobody knows the tool, the ledger
      does not grant its claim, or the handler has run and its outcome was stored or not. */
  datatype Cause =
    | ByStop
    | ByRefusal(text: string)
    | ByRegistry
    | ByLedger(claim: Denial)
    | ByHandler(reply: HandlerReply, stored: Option<LedgerReply>)

  /** The handler of the call has started since. */
  ghost predicate OwnStarted(me: int, trace: string, call: ToolCall, ledgered: bool, log: seq<Event>,
                             log': seq<Event>) {
    exists i :: |log| <= i < |log'| && log'[i] == Started(me, trace, call, ledgered)
  }

  lemma StartedSince(me: int, trace: string, call: ToolCall, ledgered: bool, a: seq<Event>, b: seq<Event>,
                     c: seq<Event>)
    requires |a| <= |b| && OwnStarted(me, trace, call, ledgered, b, c)
    ensures OwnStarted(me, trace, call, ledgered, a, c)
  {
  }

  lemma StartedLater(me: int, trace: string, call: ToolCall, ledgered: bool, a: seq<Event>, b: seq<Event>,
                     c: seq<Event>)
    requires b <= c && OwnStarted(me, trace, call, ledgered, a, b)
    ensures OwnStarted(me, trace, call, ledgered, a, c)
  {
    var i :| |a| <= i < |b| && b[i] == Started(me, trace, call, ledgered);
    assert c[i] == Started(me, trace, call, ledgered);
  }

  /** How the handler ended: an attempt of it did, or the last one failed in a way that is retried. */
  predicate HandlerSaid(trace: string, call: ToolCall, reply: HandlerReply, a: Moment, b: Moment) {
    || Heard(AttemptEnded(trace, call, Finished(reply)), a, b)
    || (reply.RaisedOther? && Heard(AttemptEnded(trace, call, Retryable(reply.message)), a, b))
  }

  /** The row has the outcome, or why it has not. */
  predicate KeptAs(d: Desk, call: ToolCall, o: Outcome, stored: LedgerReply, a: Moment, b: Moment) {
    var key := CallKey(d.trace, call);
    match stored
    case Done => HasOutcome(b.table, key, d.account, o)
    case Unavailable => Heard(StatementRaised(key), a, b)
    case LostOwnership => SettledRow(b.table, key)
    case _ => false
  }

  /** A returned result is stored as a completion, a tool error as a failure with its text, and nothing else is. */
  predicate OutcomeKept(d: Desk, call: ToolCall, reply: HandlerReply, stored: Option<LedgerReply>, a: Moment,
                        b: Moment) {
    if !UsesLedger(d.law, call) then stored.None?
    else
      match reply
      case Returned(content) =>
        stored.Some? && KeptAs(d, call, Outcome(Completed, Some(WrapUntrusted(content)), None), stored.value, a, b)
      case RaisedToolError(message) =>
        stored.Some? && KeptAs(d, call, Outcome(Failed, None, Some(message)), stored.value, a, b)
      case _ => stored.None?
  }

  /** The handler has started, ended with this reply, and its outcome was stored like this. */
  ghost predicate HandlerRan(d: Desk, call: ToolCall, reply: HandlerReply, stored: Option<LedgerReply>, a: Moment,
                             b: Moment) {
    && OwnStarted(d.me, d.trace, call, UsesLedger(d.law, call), a.log, b.log)
    && HandlerSaid(d.trace, call, reply, a, b) && OutcomeKept(d, call, reply, stored, a, b)
  }

  /** The cause is a fact of the outside between two moments. */
  ghost predicate Caused(d: Desk, call: ToolCall, cause: Cause, a: Moment, b: Moment) {
    match cause
    case ByStop => Heard(StopSeen(d.trace, call), a, b)
    case ByRefusal(text) => call.name in d.law.registry && Heard(CallRefused(d.trace, call, text), a, b)
    case ByRegistry => call.name !in d.law.registry
    case ByLedger(claim) => UsesLedger(d.law, call) && ClaimRefused(d.trace, call, d.account, claim, a, b)
    case ByHandler(reply, stored) =>
      && call.name in d.law.registry
      && (UsesLedger(d.law, call) ==> Heard(ClaimGranted(CallKey(d.trace, call)), a, b))
      && HandlerRan(d, call, reply, stored, a, b)
  }

  /** Nothing has kept the handler of a known tool from starting: neither the user nor validation, nor, for a side
      effect, the ledger. */
  ghost predicate Unhindered(d: Desk, call: ToolCall, a: Moment, b: Moment) {
    if UsesLedger(d.law, call) then Heard(ClaimGranted(CallKey(d.trace, call)), a, b)
    else
      && call.name in d.law.registry && !Heard(StopSeen(d.trace, call), a, b)
      && forall text :: !Heard(CallRefused(d.trace, call, text), a, b)
  }

  /** What the call ends with. */
  function ResultOf(call: ToolCall, cause: Cause): CallResult {
    match cause
    case ByStop => Answered(Tool(call.id, CANCELLED))
    case ByRefusal(text) => Answered(Tool(call.id, ErrorText(text)))
    case ByRegistry => CallRaised(ToolNotFound(call.name))
    case ByLedger(claim) => Answered(Tool(call.id, LedgerText(claim)))
    case ByHandler(reply, stored) =>
      match reply
      case Returned(content) =>
        Answered(Tool(call.id, if stored.None? || stored == Some(Done) then WrapUntrusted(content)
                      else ErrorText(NoticeText(NOT_FINALIZED))))
      case RaisedToolError(message) => Answered(Tool(call.id, ErrorText(message)))
      case RaisedOther(message) => Answered(Tool(call.id, ErrorText(message)))
      case RaisedNotFound(name) => Answered(Tool(call.id, ErrorText(name)))
      case RaisedCancelled => CallRaised(Cancelled)
  }

  /** Whether a person has to find out what the call has done. */
  predicate Uncertain(law: Law, call: ToolCall, cause: Cause) {
    match cause
    case ByLedger(claim) => claim.InDoubt?
    case ByHandler(reply, stored) =>
      UsesLedger(law, call) && (reply.RaisedOther? || (stored.Some? && stored.value != Done))
    case _ => false
  }

  ghost predicate Explains(d: Desk, call: ToolCall, cause: Cause, r: CallResult, uncertain: bool, a: Moment,
                           b: Moment) {
    && Caused(d, call, cause, a, b)
    && r == ResultOf(call, cause) && (uncertain <==> Uncertain(d.law, call, cause))
  }

  /** The call has ended like this for a reason. */
  ghost predicate Explained(d: Desk, call: ToolCall, r: CallResult, uncertain: bool, a: Moment, b: Moment) {
    exists cause :: Explains(d, call, cause, r, uncertain, a, b)
  }

  // ---- Batches ----

  ghost predicate AnswerExplained(d: Desk, call: ToolCall, m: Message, a: Moment, b: Moment) {
    Explained(d, call, Answered(m), false, a, b)
  }

  ghost predicate UncertainAt(d: Desk, calls: seq<ToolCall>, results: seq<Message>, i: int, a: Moment, b: Moment) {
    hide Explained;
    0 <= i < |calls| && i < |results| && Explained(d, calls[i], Answered(results[i]), true, a, b)
  }

  /** The answers from `lo` up to `hi` are certain and have their reasons. */
  ghost predicate AnswersExplained(d: Desk, calls: seq<ToolCall>, results: seq<Message>, lo: nat, hi: int, a: Moment,
                                   b: Moment) {
    hide AnswerExplained;
    && 0 <= hi <= |results| && hi <= |calls|
    && forall i :: lo <= i < hi ==> AnswerExplained(d, calls[i], results[i], a, b)
  }

  ghost predicate CallRaisedFor(d: Desk, calls: seq<ToolCall>, i: nat, f: Failure, a: Moment, b: Moment) {
    hide Explained;
    i < |calls| && Explained(d, calls[i], CallRaised(f), false, a, b)
  }

  ghost predicate RaiseExplained(d: Desk, calls: seq<ToolCall>, f: Failure, a: Moment, b: Moment) {
    exists i: nat :: CallRaisedFor(d, calls, i, f, a, b)
  }

  /** A batch ends with a certain answer to every call, with an uncertain call after certain ones, or with the exception
      of one of its calls. */
  ghost predicate BatchExplained(d: Desk, calls: seq<ToolCall>, r: BatchResult, paused: bool, a: Moment, b: Moment) {
    hide AnswersExplained, UncertainAt, RaiseExplained;
    match r
    case BatchRaised(failure) => RaiseExplained(d, calls, failure, a, b)
    case Results(ms) =>
      if paused then
        AnswersExplained(d, calls, ms, 0, |ms| - 1, a, b) && UncertainAt(d, calls, ms, |ms| - 1, a, b)
      else |ms| == |calls| && AnswersExplained(d, calls, ms, 0, |ms|, a, b)
  }

  lemma ExplainedBy(d: Desk, call: ToolCall, cause: Cause, a: Moment, b: Moment)
    requires Caused(d, call, cause, a, b)
    ensures Explained(d, call, ResultOf(call, cause), Uncertain(d.law, call, cause), a, b)
  {
    hide Caused, ResultOf, Uncertain;
    assert Explains(d, call, cause, ResultOf(call, cause), Uncertain(d.law, call, cause), a, b);
  }

  /** A call that the user or validation holds back is hindered. */
  lemma HeldBack(d: Desk, call: ToolCall, a: Moment, b: Moment, news: seq<News>)
    requires b.told == a.told + news
    requires news == [StopSeen(d.trace, call)] || exists text :: news == [CallRefused(d.trace, call, text)]
    ensures !Unhindered(d, call, a, b)
  {
    hide Heard;
    HeardNew(ClaimGranted(CallKey(d.trace, call)), a, b, news);
    HeardNew(StopSeen(d.trace, call), a, b, news);
    if text :| news == [CallRefused(d.trace, call, text)] {
      HeardNew(CallRefused(d.trace, call, text), a, b, news);
    }
  }

  lemma NoneExplained(d: Desk, calls: seq<ToolCall>, a: Moment)
    ensures AnswersExplained(d, calls, [], 0, 0, a, a)
  {
  }

  lemma RaisedHere(d: Desk, calls: seq<ToolCall>, i: nat, f: Failure, uncertain: bool, a: Moment, b: Moment)
    requires i < |calls| && Explained(d, calls[i], CallRaised(f), uncertain, a, b)
    ensures RaiseExplained(d, calls, f, a, b) && !uncertain
  {
    hide Caused;
    var cause :| Explains(d, calls[i], cause, CallRaised(f), uncertain, a, b);
    RaiseIsCertain(d, calls[i], cause, a, b);
    assert CallRaisedFor(d, calls, i, f, a, b);
  }

  lemma RaiseIsCertain(d: Desk, call: ToolCall, cause: Cause, a: Moment, b: Moment)
    requires ResultOf(call, cause).CallRaised? && Caused(d, call, cause, a, b)
    ensures !Uncertain(d.law, call, cause)
  {
    hide Heard, HandlerSaid, ClaimRefused, OwnStarted;
  }

  /** One more answer. */
  lemma NextAnswer(d: Desk, calls: seq<ToolCall>, results: seq<Message>, m: Message, uncertain: bool, a: Moment,
                   b: Moment)
    requires |results| < |calls| && AnswersExplained(d, calls, results, 0, |results|, a, b)
    requires Explained(d, calls[|results|], Answered(m), uncertain, a, b)
    ensures if uncertain then BatchExplained(d, calls, Results(results + [m]), true, a, b)
            else AnswersExplained(d, calls, results + [m], 0, |results| + 1, a, b)
  {
    hide Explained;
    forall i | 0 <= i < |results| ensures AnswerExplained(d, calls[i], (results + [m])[i], a, b) {
      assert AnswerExplained(d, calls[i], results[i], a, b);
    }
  }

  // ---- Longer stretches of time ----

  /** The second stretch of time holds the first one. */
  ghost predicate Wider(a: Moment, b: Moment, a': Moment, b': Moment) {
    && |a'.told| <= |a.told| && |a'.log| <= |a.log|
    && b.told <= b'.told && b.log <= b'.log && Grows(b.table, b'.table)
  }

  lemma WiderHalves(a: Moment, b: Moment, c: Moment)
    requires a.told <= b.told <= c.told && a.log <= b.log <= c.log && Grows(b.table, c.table)
    ensures Wider(b, c, a, c) && Wider(a, b, a, c)
  {
  }

  lemma HandlerSaidWider(trace: string, call: ToolCall, reply: HandlerReply, a: Moment, b: Moment, a': Moment,
                         b': Moment)
    requires Wider(a, b, a', b') && HandlerSaid(trace, call, reply, a, b)
    ensures HandlerSaid(trace, call, reply, a', b')
  {
    hide Heard;
    if Heard(AttemptEnded(trace, call, Finished(reply)), a, b) {
      HeardLonger(AttemptEnded(trace, call, Finished(reply)), a, b, a', b');
    } else {
      HeardLonger(AttemptEnded(trace, call, Retryable(reply.message)), a, b, a', b');
    }
  }

  lemma HandlerRanWider(d: Desk, call: ToolCall, reply: HandlerReply, stored: Option<LedgerReply>, a: Moment, b: Moment,
                        a': Moment, b': Moment)
    requires Wider(a, b, a', b') && HandlerRan(d, call, reply, stored, a, b)
    ensures HandlerRan(d, call, reply, stored, a', b')
  {
    hide HandlerSaid, OutcomeKept, Grows;
    HandlerSaidWider(d.trace, call, reply, a, b, a', b');
    OutcomeKeptWider(d, call, reply, stored, a, b, a', b');
  }

  /** A granted claim and the run of its handler after it. */
  lemma GrantedRan(d: Desk, call: ToolCall, reply: HandlerReply, stored: Option<LedgerReply>, start: Moment,
                   claimed: Moment, now: Moment)
    requires call.name in d.law.registry && UsesLedger(d.law, call)
    requires Heard(ClaimGranted(CallKey(d.trace, call)), start, claimed)
    requires HandlerRan(d, call, reply, stored, claimed, now)
    requires Wider(claimed, now, start, now) && Wider(start, claimed, start, now)
    ensures Caused(d, call, ByHandler(reply, stored), start, now)
    ensures Heard(ClaimGranted(CallKey(d.trace, call)), start, now)
  {
    hide Heard, HandlerRan;
    HeardLonger(ClaimGranted(CallKey(d.trace, call)), start, claimed, start, now);
    HandlerRanWider(d, call, reply, stored, claimed, now, start, now);
  }

  lemma ClaimRefusedWider(trace: string, call: ToolCall, account: int, r: LedgerClaim, a: Moment, b: Moment, a': Moment,
                          b': Moment)
    requires Wider(a, b, a', b') && ClaimRefused(trace, call, account, r, a, b)
    ensures ClaimRefused(trace, call, account, r, a', b')
  {
    hide Heard, ClaimText;
    var key := CallKey(trace, call);
    if Heard(StatementRaised(key), a, b) {
      HeardLonger(StatementRaised(key), a, b, a', b');
    }
    if Heard(RowFound(key), a, b) {
      HeardLonger(RowFound(key), a, b, a', b');
    }
  }

  lemma KeptWider(d: Desk, call: ToolCall, o: Outcome, stored: LedgerReply, a: Moment, b: Moment, a': Moment,
                  b': Moment)
    requires Wider(a, b, a', b') && KeptAs(d, call, o, stored, a, b) && o.status != Running
    ensures KeptAs(d, call, o, stored, a', b')
  {
    hide Heard;
    if stored == Unavailable {
      HeardLonger(StatementRaised(CallKey(d.trace, call)), a, b, a', b');
    }
  }

  lemma OutcomeKeptWider(d: Desk, call: ToolCall, reply: HandlerReply, stored: Option<LedgerReply>, a: Moment,
                         b: Moment,
                         a': Moment, b': Moment)
    requires Wider(a, b, a', b') && OutcomeKept(d, call, reply, stored, a, b)
    ensures OutcomeKept(d, call, reply, stored, a', b')
  {
    hide KeptAs, Wider, WrapUntrusted;
    if UsesLedger(d.law, call) {
      match reply
      case Returned(content) =>
        KeptWider(d, call, Outcome(Completed, Some(WrapUntrusted(content)), None), stored.value, a, b, a', b');
      case RaisedToolError(message) =>
        KeptWider(d, call, Outcome(Failed, None, Some(message)), stored.value, a, b, a', b');
      case _ =>
    }
  }

  lemma CausedWider(d: Desk, call: ToolCall, cause: Cause, a: Moment, b: Moment, a': Moment, b': Moment)
    requires Wider(a, b, a', b') && Caused(d, call, cause, a, b)
    ensures Caused(d, call, cause, a', b')
  {
    hide Heard, ClaimRefused, HandlerRan, Grows;
    match cause
    case ByStop => HeardLonger(StopSeen(d.trace, call), a, b, a', b');
    case ByRefusal(text) => HeardLonger(CallRefused(d.trace, call, text), a, b, a', b');
    case ByRegistry =>
    case ByLedger(claim) => ClaimRefusedWider(d.trace, call, d.account, claim, a, b, a', b');
    case ByHandler(reply, stored) =>
      if UsesLedger(d.law, call) {
        HeardLonger(ClaimGranted(CallKey(d.trace, call)), a, b, a', b');
      }
      HandlerRanWider(d, call, reply, stored, a, b, a', b');
  }

  lemma ExplainedWider(d: Desk, call: ToolCall, r: CallResult, uncertain: bool, a: Moment, b: Moment, a': Moment,
                       b': Moment)
    requires Wider(a, b, a', b') && Explained(d, call, r, uncertain, a, b)
    ensures Explained(d, call, r, uncertain, a', b')
  {
    hide Caused, Wider, ResultOf, Uncertain;
    var cause :| Explains(d, call, cause, r, uncertain, a, b);
    CausedWider(d, call, cause, a, b, a', b');
    assert Explains(d, call, cause, r, uncertain, a', b');
  }

  lemma AnswersWider(d: Desk, calls: seq<ToolCall>, results: seq<Message>, lo: nat, hi: int, a: Moment, b: Moment,
                     a': Moment, b': Moment)
    requires Wider(a, b, a', b') && AnswersExplained(d, calls, results, lo, hi, a, b)
    ensures AnswersExplained(d, calls, results, lo, hi, a', b')
  {
    hide Explained, Wider;
    forall i | lo <= i < hi ensures AnswerExplained(d, calls[i], results[i], a', b') {
      assert AnswerExplained(d, calls[i], results[i], a, b);
      ExplainedWider(d, calls[i], Answered(results[i]), false, a, b, a', b');
    }
  }

  lemma RaiseWider(d: Desk, calls: seq<ToolCall>, f: Failure, a: Moment, b: Moment, a': Moment, b': Moment)
    requires Wider(a, b, a', b') && RaiseExplained(d, calls, f, a, b)
    ensures RaiseExplained(d, calls, f, a', b')
  {
    hide Explained, Wider;
    var i: nat :| CallRaisedFor(d, calls, i, f, a, b);
    ExplainedWider(d, calls[i], CallRaised(f), false, a, b, a', b');
    assert CallRaisedFor(d, calls, i, f, a', b');
  }

  /** One more call of a batch: what was so before it, and how it has ended. */
  lemma OneMore(d: Desk, calls: seq<ToolCall>, i: nat, results: seq<Message>, raised: Option<Failure>, one: CallResult,
                uncertain: bool, start: Moment, then_: Moment, now: Moment)
    requires i < |calls| && Wider(then_, now, start, now) && Wider(start, then_, start, now)
    requires if raised.Some? then RaiseExplained(d, calls, raised.value, start, then_)
             else |results| == i && AnswersExplained(d, calls, results, 0, i, start, then_)
    requires Explained(d, calls[i], one, uncertain, then_, now)
    ensures match one
            case CallRaised(failure) => RaiseExplained(d, calls, failure, start, now) && !uncertain
            case Answered(m) =>
              if raised.Some? then RaiseExplained(d, calls, raised.value, start, now)
              else if uncertain then BatchExplained(d, calls, Results(results + [m]), true, start, now)
              else AnswersExplained(d, calls, results + [m], 0, i + 1, start, now)
  {
    hide Explained, Wider, RaiseExplained, AnswersExplained;
    ExplainedWider(d, calls[i], one, uncertain, then_, now, start, now);
    if raised.Some? {
      RaiseWider(d, calls, raised.value, start, then_, start, now);
    } else {
      AnswersWider(d, calls, results, 0, i, start, then_, start, now);
    }
    match one
    case CallRaised(failure) => RaisedHere(d, calls, i, failure, uncertain, start, now);
    case Answered(m) =>
      if raised.None? {
        NextAnswer(d, calls, results, m, uncertain, start, now);
      }
  }

  // ---- What an answer says ----

  /** An answer that is no error and no cancellation notice is the wrapped output of the call's handler, which has
      started since, or was stored with an earlier completion of the same call. */
  lemma SuccessIsOutput(d: Desk, call: ToolCall, m: Message, uncertain: bool, a: Moment, b: Moment)
    requires Explained(d, call, Answered(m), uncertain, a, b)
    requires m.Tool? && !IsError(m.content) && m.content != CANCELLED
    ensures !uncertain && m.id == call.id
    ensures || (OwnStarted(d.me, d.trace, call, UsesLedger(d.law, call), a.log, b.log)
                && exists content :: m.content == WrapUntrusted(content)
                                     && HandlerSaid(d.trace, call, Returned(content), a, b))
            || (UsesLedger(d.law, call)
                && Answers(b.table, CallKey(d.trace, call), d.account, call, AlreadyCompleted(m.content)))
  {
    hide WrapUntrusted, ErrorText, IsError, Heard, HandlerSaid, ResultOf, Answers, OwnStarted;
    var cause :| Explains(d, call, cause, Answered(m), uncertain, a, b);
    AnswersHaveTheId(call, cause);
    SuccessCause(call, cause, m.content);
  }

  lemma AnswersHaveTheId(call: ToolCall, cause: Cause)
    ensures ResultOf(call, cause).Answered? ==>
              ResultOf(call, cause).message.Tool? && ResultOf(call, cause).message.id == call.id
  {
    hide ErrorText, WrapUntrusted, LedgerText, NoticeText;
  }

  /** Only a stored completion and a handler that returned, with its result stored or without a ledger, show a
      success. */
  lemma SuccessCause(call: ToolCall, cause: Cause, content: string)
    requires ResultOf(call, cause) == Answered(Tool(call.id, content)) && !IsError(content) && content != CANCELLED
    ensures match cause
            case ByLedger(claim) => claim == AlreadyCompleted(content)
            case ByHandler(reply, stored) =>
              match reply {
                case Returned(output) => content == WrapUntrusted(output) && (stored.None? || stored == Some(Done))
                case _ => false
              }
            case _ => false
  {
    hide WrapUntrusted, ErrorText, IsError, NoticeText, InDoubtText;
    forall text: string ensures IsError(ErrorText(text)) {
      WrappedIsNoError(text);
    }
  }

  /** Once the outcome of a call is stored, every later claim of the same call is answered from it: with the same text,
      if and only if that is not an empty error, which is replayed with a text of its own. A failure is replayed as
      an error in any case. */
  lemma ReplayAgrees(d: Desk, call: ToolCall, reply: HandlerReply, a: Moment, b: Moment, later: Table,
                     claim: Denial)
    requires UsesLedger(d.law, call) && OutcomeKept(d, call, reply, Some(Done), a, b) && Grows(b.table, later)
    requires !claim.ClaimError? && Answers(later, CallKey(d.trace, call), d.account, call, claim)
    ensures reply.Returned? || reply.RaisedToolError?
    ensures (ResultOf(call, ByLedger(claim)) == ResultOf(call, ByHandler(reply, Some(Done))))
       <==> reply != RaisedToolError("")
    ensures reply.RaisedToolError? <==> claim.AlreadyFailed?
    ensures reply.RaisedToolError? ==> IsError(LedgerText(claim))
  {
    hide WrapUntrusted, IsError, ErrorText, LedgerText, OutcomeKept, Grows, Answers;
    ReplayedClaim(d, call, reply, a, b, later, claim);
    match reply
    case Returned(content) => CompletedText(WrapUntrusted(content));
    case RaisedToolError(message) => FailedText(message);
    case _ =>
  }

  lemma CompletedText(content: string)
    ensures LedgerText(AlreadyCompleted(content)) == content
  {
  }

  lemma FailedText(error: string)
    ensures LedgerText(AlreadyFailed(error)) == ErrorText(error) <==> error != ""
    ensures IsError(LedgerText(AlreadyFailed(error)))
  {
    hide IsError, ErrorText, NoticeText;
    WrappedIsNoError(if error == "" then NoticeText(PREVIOUS_FAILURE) else error);
    EmptyErrorChanges();
  }

  /** The claim has what was stored. */
  lemma ReplayedClaim(d: Desk, call: ToolCall, reply: HandlerReply, a: Moment, b: Moment, later: Table,
                      claim: Denial)
    requires UsesLedger(d.law, call) && OutcomeKept(d, call, reply, Some(Done), a, b) && Grows(b.table, later)
    requires !claim.ClaimError? && Answers(later, CallKey(d.trace, call), d.account, call, claim)
    ensures match reply
            case Returned(content) => claim == AlreadyCompleted(WrapUntrusted(content))
            case RaisedToolError(message) => claim == AlreadyFailed(message)
            case _ => false
  {
    hide WrapUntrusted;
  }

  lemma EmptyErrorChanges()
    ensures ErrorText("") != ErrorText(NoticeText(PREVIOUS_FAILURE))
  {
    assert |ErrorText("")| != |ErrorText(NoticeText(PREVIOUS_FAILURE))|;
  }
}
