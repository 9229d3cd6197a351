/**
 What the harness keeps between steps: the shape of a paused run, and what its own entries on the log are.
 */
module PausedRuns {
  import opened Options
  import opened ExecutionLedger
  import opened SideEffects
  import opened Discipline
  import opened LedgerClient
  import opened ToolOutput
  import opened AgentState
  import opened CallAnswers
  import opened AgentLoop
  import opened Approval

  // ---- Paused states ----

  /** A pending approval freezes a message with a gated call, and lists all its calls; it has been asked for, under
      its id, with exactly these calls. */
  predicate ApprovalOk(law: Law, trace: string, log: seq<Event>, a: PendingApproval) {
    && a.message.Assistant? && UniqueIds(a.message.calls) && law.policy.Some?
    && HasGated(law.policy.value, law.registry, a.message.calls)
    && Describes(law.policy.value, law.registry, a.message.calls, a.request.toolCalls)
    && Requested(law, log, |log|, trace, a.request.requestId, a.message.calls)
  }

  /** A pending reconciliation freezes a message, the answers to its first calls and the uncertain call after
      them, which has a ledger row; the gated calls of the message are cleared. */
  predicate ReconciliationOk(law: Law, v: View, log: seq<Event>, r: PendingReconciliation) {
    && r.frozen.Some?
    && var m, before := r.frozen.value.message, r.frozen.value.before;
    && m.Assistant? && UniqueIds(m.calls) && |before| < |m.calls|
    && ShownBy(v, m.calls[..|before|], before)
    && r.callId == m.calls[|before|].id
    && Ledgered(v, m.calls[|before|]) && CallKey(v.trace, m.calls[|before|]) in v.table
    && BatchCleared(law, log, v.trace, m.calls)
  }

  /** What holds of every state between steps and of every checkpoint: a faithful transcript, and the stop
      reasons of the two pauses exactly when their pending record is set and good. */
  predicate LiveParts(law: Law, v: View, log: seq<Event>, stop: Option<StopReason>, ms: seq<Message>,
                      a: Option<PendingApproval>, r: Option<PendingReconciliation>) {
    && Faithful(v, ms)
    && (stop == Some(APPROVAL_REQUIRED) <==> a.Some?)
    && (stop == Some(EXECUTION_IN_DOUBT) <==> r.Some?)
    && (a.Some? ==> ApprovalOk(law, v.trace, log, a.value))
    && (r.Some? ==> ReconciliationOk(law, v, log, r.value))
  }

  lemma LiveLater(law: Law, v: View, t: Table, log: seq<Event>, log': seq<Event>, stop: Option<StopReason>,
                  ms: seq<Message>, a: Option<PendingApproval>, r: Option<PendingReconciliation>)
    requires Grows(v.table, t) && log <= log' && LiveParts(law, v, log, stop, ms, a, r)
    ensures LiveParts(law, v.(table := t), log', stop, ms, a, r)
  {
    FaithfulGrows(v, t, ms);
    if a.Some? {
      RequestedLater(law, log, log', |log|, |log'|, v.trace, a.value.request.requestId, a.value.message.calls);
    }
    if r.Some? {
      var m, before := r.value.frozen.value.message, r.value.frozen.value.before;
      ShownGrows(v, t, m.calls[..|before|], before);
      BatchClearedLater(law, log, log', v.trace, m.calls);
    }
  }

  /** A recorded message with its answers, in a run that does not pause. */
  lemma LiveRecorded(law: Law, v: View, log: seq<Event>, stop: Option<StopReason>, ms: seq<Message>,
                     message: Message, results: seq<Message>)
    requires Faithful(v, ms) && message.Assistant? && ShownBy(v, message.calls, results)
    requires stop != Some(APPROVAL_REQUIRED) && stop != Some(EXECUTION_IN_DOUBT)
    ensures LiveParts(law, v, log, stop, ms + ([message] + results), None, None)
  {
    FaithfulGroup(v, message, results);
    FaithfulConcat(v, ms, [message] + results);
  }

  /** Feedback between two steps. */
  lemma LiveFeedback(law: Law, v: View, log: seq<Event>, ms: seq<Message>, feedback: seq<Feedback>)
    requires LiveParts(law, v, log, None, ms, None, None)
    ensures LiveParts(law, v, log, None, ms + feedback, None, None)
  {
    FaithfulFeedback(v, feedback);
    FaithfulConcat(v, ms, feedback);
  }

  // ---- Own entries ----

  function CallsOf(m: Message): seq<ToolCall> {
    if m.Assistant? then m.calls else []
  }

  /** The approval that a run is given: an approve decision that names the pending request. */
  function GrantOf(a: Option<PendingApproval>, d: Option<ApprovalDecision>): Option<Grant> {
    if a.Some? && d.Some? && d.value.approve && d.value.requestId == a.value.request.requestId
    then Some(Grant(d.value, CallsOf(a.value.message)))
    else None
  }

  /** The frozen batch of a run that waits for a ruling. */
  function FrozenCalls(r: Option<PendingReconciliation>): seq<ToolCall> {
    if r.Some? && r.value.frozen.Some? then CallsOf(r.value.frozen.value.message) else []
  }

  /** The calls that a run may start although they need approval: those of the batch it is given an approval
      for, or else those of the batch that was approved and stopped at an uncertain call. */
  function AllowedCalls(a: Option<PendingApproval>, r: Option<PendingReconciliation>,
                        d: Option<ApprovalDecision>): seq<ToolCall> {
    if GrantOf(a, d).Some? then GrantOf(a, d).value.calls
    else if a.None? then FrozenCalls(r)
    else []
  }

  /** What a part of a run does to the world: rows stay and keep their outcomes, the log only grows, and the
      own entries are handler starts of the trace, of calls that need approval only if they are allowed, and
      at most the approval that was given. */
  ghost predicate Moved(law: Law, me: int, trace: string, allowed: seq<ToolCall>, grant: Option<Grant>, s: State,
                        s': State) {
    Grows(s.table, s'.table) && OwnEntries(law, me, trace, allowed, grant, s.log, s'.log)
  }

  lemma MovedOn(law: Law, me: int, trace: string, a1: seq<ToolCall>, g1: Option<Grant>, a2: seq<ToolCall>,
                g2: Option<Grant>, allowed: seq<ToolCall>, grant: Option<Grant>, a: State, b: State, c: State)
    requires Moved(law, me, trace, a1, g1, a, b) && Moved(law, me, trace, a2, g2, b, c)
    requires Weaker(a1, g1, allowed, grant) && Weaker(a2, g2, allowed, grant)
    ensures Moved(law, me, trace, allowed, grant, a, c)
  {
    GrowsTransitive(a.table, b.table, c.table);
    OwnEntriesTransitive(law, me, trace, a1, g1, a2, g2, allowed, grant, a.log, b.log, c.log);
  }

  lemma NotMoved(law: Law, me: int, trace: string, s: State)
    ensures Moved(law, me, trace, [], None, s, s)
  {
  }

  lemma MovedLog(law: Law, me: int, trace: string, allowed: seq<ToolCall>, grant: Option<Grant>, s: State, s': State)
    requires Moved(law, me, trace, allowed, grant, s, s')
    ensures Grows(s.table, s'.table) && s.log <= s'.log
  {
  }

  lemma ApprovalMoved(law: Law, me: int, trace: string, d: ApprovalDecision, calls: seq<ToolCall>, s: State, s': State)
    requires Grows(s.table, s'.table) && LoggedOnce(me, Approved(me, trace, d, calls), s.log, s'.log)
    ensures Moved(law, me, trace, [], Some(Grant(d, calls)), s, s')
  {
    var init := s'.log[..|s'.log| - 1];
    assert forall i :: 0 <= i < |init| ==> s'.log[i] == init[i];
  }

  /** What starts no call that needs approval starts only allowed ones. */
  lemma MovedMore(law: Law, me: int, trace: string, allowed: seq<ToolCall>, s: State, s': State)
    requires Moved(law, me, trace, [], None, s, s')
    ensures Moved(law, me, trace, allowed, None, s, s')
  {
    forall i: nat | |s.log| <= i < |s'.log| && OwnedBy(s'.log[i], me)
      ensures OwnEntry(law, trace, allowed, None, s'.log[i])
    {
      assert OwnEntry(law, trace, [], None, s'.log[i]);
    }
  }

  lemma UndisturbedMoved(law: Law, me: int, trace: string, allowed: seq<ToolCall>, grant: Option<Grant>, s: State,
                         s': State)
    requires Grows(s.table, s'.table) && OthersOnly(me, s.log, s'.log)
    ensures Moved(law, me, trace, allowed, grant, s, s')
  {
  }

  /** A batch of which the calls that need approval are allowed. */
  lemma BatchMoved(law: Law, me: int, trace: string, calls: seq<ToolCall>, allowed: seq<ToolCall>, s: State, s': State)
    requires Progress(law, me, trace, calls, s, s')
    requires forall c :: c in calls && NeedsApproval(law, c) ==> c in allowed
    ensures Moved(law, me, trace, allowed, None, s, s')
  {
    forall i: nat | |s.log| <= i < |s'.log| && OwnedBy(s'.log[i], me)
      ensures OwnEntry(law, trace, allowed, None, s'.log[i])
    {
      assert OwnCall(law, trace, calls, s'.log[i]);
    }
  }

  /** The first message with this tool call id, or the length. */
  function FirstIndex(results: seq<Message>, id: string): (k: nat)
    ensures k <= |results|
    ensures k < |results| ==> results[k].Tool? && results[k].id == id
    ensures forall i :: 0 <= i < k ==> !(results[i].Tool? && results[i].id == id)
  {
    if results == [] then 0
    else if results[0].Tool? && results[0].id == id then 0
    else 1 + FirstIndex(results[1..], id)
  }

  /** The index of the frozen call, if the message has it. */
  function FindCall(calls: seq<ToolCall>, id: string): (k: Option<nat>)
    ensures k.Some? ==> k.value < |calls| && calls[k.value].id == id
    ensures k.Some? ==> forall i :: 0 <= i < k.value ==> calls[i].id != id
    ensures k.None? ==> forall i :: 0 <= i < |calls| ==> calls[i].id != id
  {
    if calls == [] then None
    else if calls[0].id == id then Some(0)
    else
      match FindCall(calls[1..], id)
      case None => None
      case Some(k) => Some(k + 1)
  }

  /** With unique ids the uncertain call is the last answer, so the batch is cut right before it. */
  lemma CutBeforeUncertain(v: View, calls: seq<ToolCall>, results: seq<Message>, r: PendingReconciliation)
    requires UniqueIds(calls) && |results| <= |calls| && ShownBy(v, calls[..|results|], results)
             && PausedAt(v, calls, results, r)
    ensures FirstIndex(results, r.callId) == |results| - 1
    ensures ShownBy(v, calls[..|results| - 1], results[..|results| - 1])
  {
    var k := |results| - 1;
    assert calls[..|results|][k] == calls[k];
    forall i | 0 <= i < k ensures results[i].id != r.callId {
      assert calls[..|results|][i] == calls[i];
    }
    forall i | 0 <= i < k
      ensures results[..k][i].Tool? && results[..k][i].id == calls[..k][i].id
              && Shown(v, calls[..k][i], results[..k][i].content)
    {
      assert calls[..|results|][i] == calls[..k][i];
    }
  }

  lemma ShownByPrefix(v: View, calls: seq<ToolCall>, results: seq<Message>)
    requires |results| == |calls| && ShownBy(v, calls[..|results|], results)
    ensures ShownBy(v, calls, results)
  {
    assert calls[..|results|] == calls;
  }

  /** Putting the batch of a reconciliation together: the answers so far and those of the rest. */
  lemma JoinAnswers(v: View, calls: seq<ToolCall>, answered: seq<Message>, after: seq<Message>)
    requires |answered| + |after| <= |calls| && ShownBy(v, calls[..|answered|], answered)
    requires ShownBy(v, calls[|answered|..][..|after|], after)
    ensures var all := answered + after; ShownBy(v, calls[..|all|], all)
  {
    var all, rest := answered + after, calls[|answered|..][..|after|];
    forall i | 0 <= i < |all|
      ensures all[i].Tool? && all[i].id == calls[..|all|][i].id && Shown(v, calls[..|all|][i], all[i].content)
    {
      if i < |answered| {
        assert calls[..|answered|][i] == calls[i];
      } else {
        assert rest[i - |answered|] == calls[i];
      }
    }
  }

  lemma ShownShorter(v: View, calls: seq<ToolCall>, results: seq<Message>, k: nat)
    requires k <= |results| <= |calls| && ShownBy(v, calls[..|results|], results)
    ensures ShownBy(v, calls[..k], results[..k])
  {
    forall i | 0 <= i < k
      ensures results[..k][i].Tool? && results[..k][i].id == calls[..k][i].id
              && Shown(v, calls[..k][i], results[..k][i].content)
    {
      assert calls[..|results|][i] == calls[..k][i];
    }
  }

  /** One error answer per call. */
  function ErrorAnswers(calls: seq<ToolCall>, message: string): (rs: seq<Message>)
    ensures |rs| == |calls|
    ensures forall i :: 0 <= i < |rs| ==> rs[i] == Tool(calls[i].id, ErrorText(message))
  {
    seq(|calls|, i requires 0 <= i < |calls| => Tool(calls[i].id, ErrorText(message)))
  }

  lemma ErrorsShown(v: View, calls: seq<ToolCall>, message: string)
    ensures ShownBy(v, calls, ErrorAnswers(calls, message))
  {
    forall i | 0 <= i < |calls| ensures Shown(v, calls[i], ErrorText(message)) {
      ErrorShown(v, calls[i], message);
    }
  }

  /** A batch that stopped a second time is again a good pending reconciliation. */
  lemma StillUncertain(law: Law, v: View, log: seq<Event>, message: Message, answered: seq<Message>,
                       after: seq<Message>, r: PendingReconciliation)
    requires message.Assistant? && UniqueIds(message.calls) && |answered| <= |message.calls|
    requires ShownBy(v, message.calls[..|answered|], answered)
    requires |after| <= |message.calls| - |answered| && ShownBy(v, message.calls[|answered|..][..|after|], after)
    requires PausedAt(v, message.calls[|answered|..], after, r)
    requires BatchCleared(law, log, v.trace, message.calls)
    ensures var all := answered + after;
            ReconciliationOk(law, v, log, r.(frozen := Some(Frozen(message, all[..|all| - 1]))))
  {
    JoinAnswers(v, message.calls, answered, after);
    var all := answered + after;
    ShownShorter(v, message.calls, all, |all| - 1);
  }

  lemma FrozenFits(law: Law, v: View, log: seq<Event>, r: PendingReconciliation)
    requires ReconciliationOk(law, v, log, r)
    ensures r.frozen.Some? && |r.frozen.value.before| < |CallsOf(r.frozen.value.message)|
  {
  }

  /** With unique ids the frozen call is found where the batch was cut. */
  lemma FoundAtCut(law: Law, v: View, log: seq<Event>, r: PendingReconciliation)
    requires ReconciliationOk(law, v, log, r)
    ensures FindCall(r.frozen.value.message.calls, r.callId) == Some(|r.frozen.value.before|)
  {
  }

  // ---- How a batch ends ----

  /** The message is recorded with an answer to every call: the given ones, and for each later call one that has
      its cause. */
  ghost predicate RecordedAs(d: Desk, m: Message, given: seq<Message>, ms: seq<Message>, ms': seq<Message>,
                             results: seq<Message>, a: Moment, b: Moment)
    requires m.Assistant?
  {
    && ms' == ms + ([m] + results) && |results| == |m.calls| && given <= results
    && AnswersExplained(d, m.calls, results, |given|, |results|, a, b)
  }

  /** The message is frozen before a call that was answered and is uncertain, with the given answers and then one
      that has its cause for each call. */
  ghost predicate FrozenAs(d: Desk, m: Message, given: seq<Message>, f: Option<Frozen>, answer: Message, a: Moment,
                           b: Moment)
    requires m.Assistant?
  {
    && f.Some? && f.value.message == m && given <= f.value.before && |f.value.before| < |m.calls|
    && AnswersExplained(d, m.calls, f.value.before, |given|, |f.value.before|, a, b)
    && Explained(d, m.calls[|f.value.before|], Answered(answer), true, a, b)
  }

  /** How a message whose first calls have been answered ends: with the exception of a later call, frozen at an
      uncertain one, or recorded. */
  ghost predicate BatchDone(d: Desk, m: Message, given: seq<Message>, raised: Option<Failure>, ms: seq<Message>,
                            ms': seq<Message>, pending: Option<PendingReconciliation>, a: Moment, b: Moment)
  {
    && m.Assistant? && |given| <= |m.calls|
    && match raised
       case Some(failure) => ms' == ms && RaiseExplained(d, m.calls[|given|..], failure, a, b)
       case None =>
         if pending.Some? then
           ms' == ms && exists answer :: FrozenAs(d, m, given, pending.value.frozen, answer, a, b)
         else exists results :: RecordedAs(d, m, given, ms, ms', results, a, b)
  }

  /** Entry `k` is the consumed approval of the message, and its calls have ended since then. */
  ghost predicate RanSince(d: Desk, m: Message, decision: ApprovalDecision, k: nat, raised: Option<Failure>,
                           ms: seq<Message>, ms': seq<Message>, pending: Option<PendingReconciliation>, a: Moment,
                           b: Moment)
  {
    && m.Assistant? && |a.log| <= k < |b.log| && b.log[k] == Approved(d.me, d.trace, decision, m.calls)
    && BatchDone(d, m, [], raised, ms, ms', pending, a.(log := b.log[..k + 1]), b)
  }

  /** The approval of the message was consumed, and after that its calls were run. */
  ghost predicate RanApproved(d: Desk, m: Message, decision: ApprovalDecision, raised: Option<Failure>,
                              ms: seq<Message>, ms': seq<Message>, pending: Option<PendingReconciliation>, a: Moment,
                              b: Moment)
  {
    exists k: nat :: RanSince(d, m, decision, k, raised, ms, ms', pending, a, b)
  }

  /** The answers to the rest of a batch, put behind the given ones. */
  lemma RestExplained(d: Desk, calls: seq<ToolCall>, given: seq<Message>, after: seq<Message>, n: nat, a: Moment,
                      b: Moment)
    requires |given| <= |calls| && AnswersExplained(d, calls[|given|..], after, 0, n, a, b)
    ensures AnswersExplained(d, calls, given + after, |given|, |given| + n, a, b)
  {
    hide Explained;
    forall i | |given| <= i < |given| + n ensures AnswerExplained(d, calls[i], (given + after)[i], a, b) {
      assert AnswerExplained(d, calls[|given|..][i - |given|], after[i - |given|], a, b);
    }
  }

  /** Cutting off the last answers. */
  lemma ShorterExplained(d: Desk, calls: seq<ToolCall>, results: seq<Message>, lo: nat, hi: nat, a: Moment, b: Moment)
    requires AnswersExplained(d, calls, results, lo, hi, a, b)
    ensures hi <= |results| && AnswersExplained(d, calls, results[..hi], lo, hi, a, b)
  {
    hide Explained;
    forall i | lo <= i < hi ensures AnswerExplained(d, calls[i], results[..hi][i], a, b) {
      assert AnswerExplained(d, calls[i], results[i], a, b);
    }
  }

  /** A whole batch is recorded. */
  lemma RecordedDone(d: Desk, m: Message, given: seq<Message>, after: seq<Message>, ms: seq<Message>, a: Moment,
                     b: Moment)
    requires m.Assistant? && |given| <= |m.calls|
    requires BatchExplained(d, m.calls[|given|..], Results(after), false, a, b)
    ensures BatchDone(d, m, given, None, ms, ms + ([m] + (given + after)), None, a, b)
  {
    hide AnswersExplained;
    RestExplained(d, m.calls, given, after, |after|, a, b);
    assert RecordedAs(d, m, given, ms, ms + ([m] + (given + after)), given + after, a, b);
  }

  /** A batch that stopped at an uncertain call is frozen before it. */
  lemma FrozenDone(d: Desk, m: Message, given: seq<Message>, after: seq<Message>, ms: seq<Message>,
                   p: PendingReconciliation, a: Moment, b: Moment)
    requires m.Assistant? && |given| <= |m.calls|
    requires BatchExplained(d, m.calls[|given|..], Results(after), true, a, b)
    requires after != [] && p.frozen == Some(Frozen(m, (given + after)[..|given| + |after| - 1]))
    ensures BatchDone(d, m, given, None, ms, ms, Some(p), a, b)
  {
    hide AnswersExplained, Explained;
    RestExplained(d, m.calls, given, after, |after| - 1, a, b);
    ShorterExplained(d, m.calls, given + after, |given|, |given| + |after| - 1, a, b);
    assert FrozenAs(d, m, given, p.frozen, after[|after| - 1], a, b);
  }

  /** A batch of which a call has raised. */
  lemma RaisedDone(d: Desk, m: Message, given: seq<Message>, f: Failure, ms: seq<Message>,
                   pending: Option<PendingReconciliation>, a: Moment, b: Moment)
    requires m.Assistant? && |given| <= |m.calls|
    requires BatchExplained(d, m.calls[|given|..], BatchRaised(f), pending.Some?, a, b)
    ensures BatchDone(d, m, given, Some(f), ms, ms, pending, a, b)
  {
  }

  /** A batch that has nothing left to run is recorded with the given answers. */
  lemma NothingLeft(d: Desk, m: Message, given: seq<Message>, ms: seq<Message>, a: Moment, b: Moment)
    requires m.Assistant? && |given| == |m.calls|
    ensures BatchDone(d, m, given, None, ms, ms + ([m] + given), None, a, b)
  {
    assert AnswersExplained(d, m.calls, given, |given|, |given|, a, b);
    assert RecordedAs(d, m, given, ms, ms + ([m] + given), given, a, b);
  }

  lemma DoneWider(d: Desk, m: Message, given: seq<Message>, raised: Option<Failure>, ms: seq<Message>,
                  ms': seq<Message>, pending: Option<PendingReconciliation>, a: Moment, b: Moment, a': Moment,
                  b': Moment)
    requires Wider(a, b, a', b') && BatchDone(d, m, given, raised, ms, ms', pending, a, b)
    ensures BatchDone(d, m, given, raised, ms, ms', pending, a', b')
  {
    hide Wider, Explained, AnswersExplained, RaiseExplained;
    if raised.Some? {
      RaiseWider(d, m.calls[|given|..], raised.value, a, b, a', b');
    } else if pending.Some? {
      var answer :| FrozenAs(d, m, given, pending.value.frozen, answer, a, b);
      var before := pending.value.frozen.value.before;
      AnswersWider(d, m.calls, before, |given|, |before|, a, b, a', b');
      ExplainedWider(d, m.calls[|before|], Answered(answer), true, a, b, a', b');
      assert FrozenAs(d, m, given, pending.value.frozen, answer, a', b');
    } else {
      var results :| RecordedAs(d, m, given, ms, ms', results, a, b);
      AnswersWider(d, m.calls, results, |given|, |results|, a, b, a', b');
      assert RecordedAs(d, m, given, ms, ms', results, a', b');
    }
  }

  /** The consumption of an approval, and the run of its batch after it. */
  lemma ApprovedRan(d: Desk, m: Message, decision: ApprovalDecision, raised: Option<Failure>, ms: seq<Message>,
                    ms': seq<Message>, pending: Option<PendingReconciliation>, a: Moment, then_: Moment, now: Moment)
    requires m.Assistant? && LoggedOnce(d.me, Approved(d.me, d.trace, decision, m.calls), a.log, then_.log)
    requires a.told == then_.told && then_.log <= now.log
    requires BatchDone(d, m, [], raised, ms, ms', pending, then_, now)
    ensures RanApproved(d, m, decision, raised, ms, ms', pending, a, now)
  {
    hide BatchDone, OthersOnly;
    var k: nat := |then_.log| - 1;
    assert now.log[..k + 1] == then_.log && now.log[k] == then_.log[k];
    var start := a.(log := now.log[..k + 1]);
    DoneWider(d, m, [], raised, ms, ms', pending, then_, now, start, now);
    assert RanSince(d, m, decision, k, raised, ms, ms', pending, a, now);
  }

  /** An exception that ended a batch came from one of its calls. */
  lemma DoneRaised(d: Desk, m: Message, given: seq<Message>, f: Failure, ms: seq<Message>, ms': seq<Message>,
                   pending: Option<PendingReconciliation>, a: Moment, b: Moment)
    requires BatchDone(d, m, given, Some(f), ms, ms', pending, a, b)
    ensures RaiseExplained(d, CallsOf(m), f, a, b)
  {
    hide Explained;
    var rest := m.calls[|given|..];
    var i: nat :| CallRaisedFor(d, rest, i, f, a, b);
    assert CallRaisedFor(d, m.calls, |given| + i, f, a, b);
  }

  lemma ApprovedRaised(d: Desk, m: Message, decision: ApprovalDecision, f: Failure, ms: seq<Message>,
                       ms': seq<Message>, pending: Option<PendingReconciliation>, a: Moment, b: Moment)
    requires RanApproved(d, m, decision, Some(f), ms, ms', pending, a, b)
    ensures RaiseExplained(d, CallsOf(m), f, a, b)
  {
    hide BatchDone, RaiseExplained;
    var k: nat :| RanSince(d, m, decision, k, Some(f), ms, ms', pending, a, b);
    var start := a.(log := b.log[..k + 1]);
    DoneRaised(d, m, [], f, ms, ms', pending, start, b);
    RaiseWider(d, CallsOf(m), f, start, b, a, b);
  }
}
