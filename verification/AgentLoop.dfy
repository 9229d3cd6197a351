/**
 Act and Observe: running a batch of tool calls against the ledger, and recording what came of it.
 What handlers return, what validation and the database raise and what other workers do is left open.
 */
module AgentLoop {
  import opened Options
  import opened ExecutionLedger
  import opened SideEffects
  import opened Discipline
  import opened LedgerClient
  import opened ToolOutput
  import opened AgentState
  import opened CallAnswers
  import opened Characters
  import opened ToolPolicy

  /** A start of a call of this batch, under the ledger exactly for a side effect. */
  predicate OwnCall(law: Law, trace: string, calls: seq<ToolCall>, e: Event) {
    e.Started? && e.trace == trace && e.call in calls && e.ledgered == UsesLedger(law, e.call)
  }

  /** The own entries between two logs are handler starts of calls of this batch. */
  ghost predicate OwnCalls(law: Law, me: int, trace: string, calls: seq<ToolCall>, log: seq<Event>, log': seq<Event>) {
    log <= log' && forall i :: |log| <= i < |log'| && OwnedBy(log'[i], me) ==> OwnCall(law, trace, calls, log'[i])
  }

  lemma OwnCallsTransitive(law: Law, me: int, trace: string, calls: seq<ToolCall>,
                           a: seq<Event>, b: seq<Event>, c: seq<Event>)
    requires OwnCalls(law, me, trace, calls, a, b) && OwnCalls(law, me, trace, calls, b, c)
    ensures OwnCalls(law, me, trace, calls, a, c)
  {
    forall i | |a| <= i < |c| && OwnedBy(c[i], me) ensures OwnCall(law, trace, calls, c[i]) {
      assert i < |b| ==> c[i] == b[i];
    }
  }

  lemma OwnCallsMore(law: Law, me: int, trace: string, calls: seq<ToolCall>, more: seq<ToolCall>,
                     a: seq<Event>, b: seq<Event>)
    requires OwnCalls(law, me, trace, calls, a, b) && forall c :: c in calls ==> c in more
    ensures OwnCalls(law, me, trace, more, a, b)
  {
    forall i | |a| <= i < |b| && OwnedBy(b[i], me) ensures OwnCall(law, trace, more, b[i]) {
      assert OwnCall(law, trace, calls, b[i]);
    }
  }

  lemma LoggedOnceIsOwn(law: Law, me: int, trace: string, call: ToolCall, ledgered: bool, a: seq<Event>, b: seq<Event>)
    requires LoggedOnce(me, Started(me, trace, call, ledgered), a, b) && ledgered == UsesLedger(law, call)
    ensures OwnCalls(law, me, trace, [call], a, b)
    ensures StartsBy(b, me) == StartsBy(a, me) + 1
  {
    var init := b[..|b| - 1];
    assert forall i :: 0 <= i < |init| ==> b[i] == init[i];
    NoStartBy(me, a, init);
  }

  /** The handler starts of one worker. */
  function StartsBy(log: seq<Event>, me: int): nat {
    if log == [] then 0
    else
      var e := log[|log| - 1];
      StartsBy(log[..|log| - 1], me) + if e.Started? && e.worker == me then 1 else 0
  }

  lemma {:induction false} NoStartBy(me: int, log: seq<Event>, log': seq<Event>)
    requires OthersOnly(me, log, log')
    ensures StartsBy(log', me) == StartsBy(log, me)
    decreases |log'|
  {
    if |log| == |log'| {
      assert log == log';
    } else {
      var init := log'[..|log'| - 1];
      assert forall i :: 0 <= i < |init| ==> log'[i] == init[i];
      NoStartBy(me, log, init);
      assert !OwnedBy(log'[|log'| - 1], me);
    }
  }

  /** The worker has started handlers at least once and at most `retry + 1` times. */
  predicate StartedWithin(retry: nat, me: int, log: seq<Event>, log': seq<Event>) {
    1 <= StartsBy(log', me) - StartsBy(log, me) <= retry + 1
  }

  lemma StartAllowed(law: Law, log: seq<Event>, me: int, trace: string, call: ToolCall)
    requires MayStart(law, log, trace, call)
    ensures MayLog(law, log, |log|, Started(me, trace, call, UsesLedger(law, call)))
  {
  }

  /** Entry `i` of what was heard is an attempt of this call that ended to be retried. */
  ghost predicate RetriedAt(trace: string, call: ToolCall, told: seq<News>, i: int) {
    0 <= i < |told| && told[i].AttemptEnded? && told[i].attempt.Retryable?
    && told[i] == AttemptEnded(trace, call, told[i].attempt)
  }

  /** The attempts of one execution are all that was heard: all but the last one were to be retried, and the last
      one has ended it or used up the retries. */
  ghost predicate AttemptsEnd(retry: nat, trace: string, call: ToolCall, told: seq<News>, told': seq<News>,
                              reply: HandlerReply)
  {
    var last := |told'| - 1;
    && told <= told' && |told| <= last <= |told| + retry
    && (forall i :: |told| <= i < last ==> RetriedAt(trace, call, told', i))
    && (told'[last] == AttemptEnded(trace, call, Finished(reply))
        || (last == |told| + retry && reply.RaisedOther?
            && told'[last] == AttemptEnded(trace, call, Retryable(reply.message))))
  }

  lemma AttemptsHeard(retry: nat, d: Desk, call: ToolCall, reply: HandlerReply, a: Moment, b: Moment)
    requires AttemptsEnd(retry, d.trace, call, a.told, b.told, reply)
    ensures HandlerSaid(d.trace, call, reply, a, b)
    ensures forall n :: Heard(n, a, b) ==> n.AttemptEnded?
  {
    assert HeardAt(b.told[|b.told| - 1], a, b, |b.told| - 1);
    forall n | Heard(n, a, b) ensures n.AttemptEnded? {
      var i :| 0 <= i < |b.told| && HeardAt(n, a, b, i);
      assert i < |b.told| - 1 ==> RetriedAt(d.trace, call, b.told, i);
    }
  }

  /** What a worker leaves behind: a grown table, and own log entries of its batch only. */
  ghost predicate Progress(law: Law, me: int, trace: string, calls: seq<ToolCall>, s: State, s': State) {
    Grows(s.table, s'.table) && OwnCalls(law, me, trace, calls, s.log, s'.log)
  }

  lemma ProgressTransitive(law: Law, me: int, trace: string, calls: seq<ToolCall>, a: State, b: State, c: State)
    requires Progress(law, me, trace, calls, a, b) && Progress(law, me, trace, calls, b, c)
    ensures Progress(law, me, trace, calls, a, c)
  {
    GrowsTransitive(a.table, b.table, c.table);
    OwnCallsTransitive(law, me, trace, calls, a.log, b.log, c.log);
  }

  /** A later stretch of time, seen from an earlier start. */
  lemma LaterMoments(law: Law, me: int, trace: string, calls: seq<ToolCall>, a: State, b: State, c: State,
                     x: seq<News>, y: seq<News>, z: seq<News>)
    requires Progress(law, me, trace, calls, a, b) && Progress(law, me, trace, calls, b, c) && x <= y <= z
    ensures Progress(law, me, trace, calls, a, c)
    ensures Wider(Moment(b.table, b.log, y), Moment(c.table, c.log, z), Moment(a.table, a.log, x),
                  Moment(c.table, c.log, z))
    ensures Wider(Moment(a.table, a.log, x), Moment(b.table, b.log, y), Moment(a.table, a.log, x),
                  Moment(c.table, c.log, z))
  {
    ProgressTransitive(law, me, trace, calls, a, b, c);
    WiderHalves(Moment(a.table, a.log, x), Moment(b.table, b.log, y), Moment(c.table, c.log, z));
  }

  lemma ProgressLog(law: Law, me: int, trace: string, calls: seq<ToolCall>, s: State, s': State)
    requires Progress(law, me, trace, calls, s, s')
    ensures Grows(s.table, s'.table) && s.log <= s'.log
  {
  }

  lemma NoProgress(law: Law, me: int, trace: string, calls: seq<ToolCall>, s: State)
    ensures Progress(law, me, trace, calls, s, s)
  {
  }

  lemma UndisturbedProgress(law: Law, me: int, trace: string, calls: seq<ToolCall>, s: State, s': State)
    requires Grows(s.table, s'.table) && OthersOnly(me, s.log, s'.log)
    ensures Progress(law, me, trace, calls, s, s') && StartsBy(s'.log, me) == StartsBy(s.log, me)
  {
    NoStartBy(me, s.log, s'.log);
  }

  /** One start of the call, and it may be started again. */
  ghost predicate StartedOnceMore(law: Law, me: int, trace: string, call: ToolCall, ledgered: bool, s: State,
                                  s': State) {
    var e := Started(me, trace, call, ledgered);
    && Progress(law, me, trace, [call], s, s')
    && |s.log| < |s'.log| && s'.log[|s'.log| - 1] == e
    && StartsBy(s'.log, me) == StartsBy(s.log, me) + 1
    && MayLog(law, s'.log, |s'.log|, e)
  }

  lemma OneMoreStart(law: Law, me: int, trace: string, call: ToolCall, ledgered: bool, s: State, s': State)
    requires Grows(s.table, s'.table) && ledgered == UsesLedger(law, call)
    requires LoggedOnce(me, Started(me, trace, call, ledgered), s.log, s'.log)
    requires MayLog(law, s.log, |s.log|, Started(me, trace, call, ledgered))
    ensures StartedOnceMore(law, me, trace, call, ledgered, s, s')
  {
    LoggedOnceIsOwn(law, me, trace, call, ledgered, s.log, s'.log);
    MayLogLater(law, s.log, s'.log, |s.log|, |s'.log|, Started(me, trace, call, ledgered));
  }

  lemma ErrorShown(v: View, call: ToolCall, message: string)
    ensures IsError(ErrorText(message)) && Shown(v, call, ErrorText(message)) && Shown(v, call, CANCELLED)
  {
    WrappedIsNoError(message);
  }

  /** A good answer to a call, and the pause it may have caused. */
  ghost predicate GoodResult(v: View, call: ToolCall, r: CallResult, stop: Option<StopReason>,
                             pending: Option<PendingReconciliation>) {
    && (r.Answered? ==> r.message.Tool? && r.message.id == call.id && Shown(v, call, r.message.content))
    && (pending.None? ==> stop.None?)
    && (pending.Some? ==>
          && r.Answered? && IsError(r.message.content)
          && stop == Some(EXECUTION_IN_DOUBT)
          && pending.value.callId == call.id && pending.value.frozen.None?
          && Ledgered(v, call) && CallKey(v.trace, call) in v.table)
  }

  class Act {
    const registry: Registry
    const world: World
    const ledger: DBToolExecutionLedger?

    constructor (registry: Registry, world: World, ledger: DBToolExecutionLedger?)
      requires ledger != null ==> ledger.database == world
      ensures this.registry == registry && this.world == world && this.ledger == ledger
    {
      this.registry, this.world, this.ledger := registry, world, ledger;
    }

    /** Built as the law of the team says. */
    ghost predicate Wired() {
      && world.law.registry == registry && (world.law.hasLedger <==> ledger != null)
      && (ledger != null ==> ledger.database == world)
    }

    ghost predicate Built(me: int) {
      me in world.law.team && Wired()
    }

    ghost predicate Ready(me: int)
      reads world
    {
      world.Valid() && me !in world.s.claims && Built(me)
    }

    function DeskOf(me: int, trace: string): Desk {
      Desk(world.law, me, trace, if ledger == null then 0 else ledger.account)
    }

    function ViewOf(trace: string): View
      reads world
    {
      View(world.s.table, registry, ledger != null, trace)
    }

    /** One start of the handler, of a claimed call or of one that needs no ledger. */
    method StartOnce(me: int, trace: string, call: ToolCall, claimed: bool)
      requires world.Valid() && me in world.law.team && claimed == UsesLedger(world.law, call)
      requires MayLog(world.law, world.s.log, |world.s.log|, Started(me, trace, call, claimed))
      requires if claimed
               then me in world.s.claims && world.s.claims[me].trace == trace && world.s.claims[me].call == call
                    && world.s.claims[me].attempts <= world.retry
               else me !in world.s.claims
      modifies world`s, world`history
      ensures world.Valid() && old(world.history) <= world.history
      ensures StartedOnceMore(world.law, me, trace, call, claimed, old(world.s), world.s)
      ensures if claimed
              then me in world.s.claims
                   && world.s.claims[me] == old(world.s.claims[me]).(attempts := old(world.s.claims[me]).attempts + 1)
              else me !in world.s.claims
    {
      hide SideEffects.Run, Lawful;
      if claimed {
        world.StartHandler(me);
      } else {
        world.StartFreely(me, trace, call);
      }
      OneMoreStart(world.law, me, trace, call, claimed, old(world.s), world.s);
    }

    /** `SkillExecutor.execute_prevalidated`: up to `retry + 1` attempts. */
    method ExecutePrevalidated(me: int, trace: string, call: ToolCall, claimed: bool) returns (r: HandlerReply)
      requires world.Valid() && me in world.law.team
      requires claimed == UsesLedger(world.law, call) && MayStart(world.law, world.s.log, trace, call)
      requires if claimed
               then me in world.s.claims && world.s.claims[me].trace == trace && world.s.claims[me].call == call
                    && world.s.claims[me].attempts == 0
               else me !in world.s.claims
      modifies world
      ensures world.Valid() && old(world.history) <= world.history
      ensures Progress(world.law, me, trace, [call], old(world.s), world.s)
      ensures OwnStarted(me, trace, call, claimed, old(world.s.log), world.s.log)
      ensures StartedWithin(world.retry, me, old(world.s.log), world.s.log)
      ensures old(world.told) <= world.told && AttemptsEnd(world.retry, trace, call, old(world.told), world.told, r)
      ensures StartsBy(world.s.log, me) - StartsBy(old(world.s.log), me) == |world.told| - |old(world.told)|
      ensures if claimed
              then me in world.s.claims && world.s.claims[me].attempts > 0
                   && world.s.claims[me] == old(world.s.claims[me]).(attempts := world.s.claims[me].attempts)
              else me !in world.s.claims
    {
      hide SideEffects.Run, Lawful, Grows, OwnCalls, MayLog, MayStart, Progress;
      StartAllowed(world.law, world.s.log, me, trace, call);
      NoProgress(world.law, me, trace, [call], world.s);
      var last := "";
      var attempt := 0;
      while attempt < world.retry + 1
        invariant attempt <= world.retry + 1
        invariant world.Valid() && old(world.history) <= world.history
        invariant Progress(world.law, me, trace, [call], old(world.s), world.s)
        invariant attempt > 0 ==> OwnStarted(me, trace, call, claimed, old(world.s.log), world.s.log)
        invariant StartsBy(world.s.log, me) == StartsBy(old(world.s.log), me) + attempt
        invariant old(world.told) <= world.told && |world.told| == |old(world.told)| + attempt
        invariant forall i :: |old(world.told)| <= i < |world.told| ==> RetriedAt(trace, call, world.told, i)
        invariant attempt > 0 ==> world.told[|world.told| - 1] == AttemptEnded(trace, call, Retryable(last))
        invariant MayLog(world.law, world.s.log, |world.s.log|, Started(me, trace, call, claimed))
        invariant if claimed
                  then me in world.s.claims
                       && world.s.claims[me] == old(world.s.claims[me]).(attempts := attempt)
                  else me !in world.s.claims
      {
        ghost var before := world.s;
        StartOnce(me, trace, call, claimed);
        ProgressTransitive(world.law, me, trace, [call], old(world.s), before, world.s);
        ProgressLog(world.law, me, trace, [call], old(world.s), before);
        attempt := attempt + 1;
        ghost var told := world.told;
        var outcome := world.AwaitHandler(trace, call);
        assert forall i :: |old(world.told)| <= i < |told| && RetriedAt(trace, call, told, i) ==>
                             RetriedAt(trace, call, world.told, i);
        match outcome {
          case Finished(reply) => return reply;
          case Retryable(message) => last := message;
        }
      }
      r := RaisedOther(last);
    }

    method RecordError(state: AgentLoopState, call: ToolCall, message: string) returns (r: CallResult)
      modifies state`toolCalls
      ensures r == Answered(Tool(call.id, ErrorText(message)))
      ensures state.toolCalls == old(state.toolCalls) + [ToolCallRecord(call.name, None, Some(message))]
    {
      state.toolCalls := state.toolCalls + [ToolCallRecord(call.name, None, Some(message))];
      r := Answered(Tool(call.id, ErrorText(message)));
    }

    method RecordSuccess(state: AgentLoopState, call: ToolCall, output: string, content: string) returns (r: CallResult)
      modifies state`toolCalls
      ensures r == Answered(Tool(call.id, content))
      ensures state.toolCalls == old(state.toolCalls) + [ToolCallRecord(call.name, Some(output), None)]
    {
      state.toolCalls := state.toolCalls + [ToolCallRecord(call.name, Some(output), None)];
      r := Answered(Tool(call.id, content));
    }

    /** The uncertain call stops the batch and waits for a human. */
    method MarkReconciliation(state: AgentLoopState, call: ToolCall, reason: string)
      modifies state`stopReason, state`pendingReconciliation
      ensures state.stopReason == Some(EXECUTION_IN_DOUBT)
      ensures state.pendingReconciliation == Some(PendingReconciliation(call.id, call.name, reason, None))
    {
      state.stopReason := Some(EXECUTION_IN_DOUBT);
      state.pendingReconciliation := Some(PendingReconciliation(call.id, call.name, reason, None));
    }

    /** An error answer that leaves the batch running. */
    method PlainError(state: AgentLoopState, call: ToolCall, message: string) returns (r: CallResult)
      modifies state`toolCalls
      ensures GoodResult(ViewOf(state.traceId), call, r, None, None) && r == Answered(Tool(call.id, ErrorText(message)))
    {
      ErrorShown(ViewOf(state.traceId), call, message);
      r := RecordError(state, call, message);
    }

    /** An error answer to a call whose outcome is uncertain. */
    method UncertainError(state: AgentLoopState, call: ToolCall, reason: string, message: string)
      returns (r: CallResult)
      requires Ledgered(ViewOf(state.traceId), call) && CallKey(state.traceId, call) in world.s.table
      modifies state`toolCalls, state`stopReason, state`pendingReconciliation
      ensures GoodResult(ViewOf(state.traceId), call, r, state.stopReason, state.pendingReconciliation)
      ensures r == Answered(Tool(call.id, ErrorText(message))) && state.pendingReconciliation.Some?
    {
      MarkReconciliation(state, call, reason);
      r := PlainError(state, call, message);
    }

    /** The answers of the ledger that keep the handler from starting. */
    method AnswerFromLedger(state: AgentLoopState, call: ToolCall, claim: Denial) returns (r: CallResult)
      requires state.stopReason.None? && state.pendingReconciliation.None?
      requires Ledgered(ViewOf(state.traceId), call)
      requires !claim.ClaimError? ==> Answers(world.s.table, CallKey(state.traceId, call), ledger.account, call, claim)
      modifies state`toolCalls, state`stopReason, state`pendingReconciliation
      ensures GoodResult(ViewOf(state.traceId), call, r, state.stopReason, state.pendingReconciliation)
      ensures claim.InDoubt? <==> state.pendingReconciliation.Some?
      ensures r == Answered(Tool(call.id, LedgerText(claim)))
    {
      hide SideEffects.Run, Lawful, ErrorText, IsError, NoticeText, InDoubtText;
      match claim {
        case AlreadyCompleted(content) =>
          r := RecordSuccess(state, call, content, content);
        case AlreadyFailed(error) =>
          var failed := if error == "" then NoticeText(PREVIOUS_FAILURE) else error;
          r := PlainError(state, call, failed);
        case InDoubt =>
          r := UncertainError(state, call, NoticeText(BLOCKED), InDoubtText(NoticeText(BLOCKED)));
        case ClaimError(message) =>
          r := PlainError(state, call, message);
      }
    }

    /** One tool call, and whether its handler ran. Its own handler starts are of this call only; a success of
        a ledgered call is shown exactly as stored; the call becomes uncertain only if it has a ledger row.
        The handler runs exactly if nothing hinders it, and whatever the call ends with has its cause in what the
        worker has heard, in the start of the handler, or in the row. */
    method ExecuteOne(me: int, state: AgentLoopState, call: ToolCall) returns (r: CallResult, ran: bool)
      requires Ready(me) && state.stopReason.None? && state.pendingReconciliation.None?
      requires MayStart(world.law, world.s.log, state.traceId, call)
      modifies world, state`toolCalls, state`stopReason, state`pendingReconciliation
      ensures Ready(me) && old(world.history) <= world.history && old(world.told) <= world.told
      ensures Progress(world.law, me, state.traceId, [call], old(world.s), world.s)
      ensures GoodResult(ViewOf(state.traceId), call, r, state.stopReason, state.pendingReconciliation)
      ensures r.CallRaised? && r.failure.ToolNotFound? ==> call.name !in registry
      ensures r.Answered? && call.name !in registry ==> r.message.content == CANCELLED
      ensures ran ==> OwnStarted(me, state.traceId, call, Ledgered(ViewOf(state.traceId), call), old(world.s.log),
                                 world.s.log)
      ensures ran ==> StartedWithin(world.retry, me, old(world.s.log), world.s.log)
      ensures !ran ==> OthersOnly(me, old(world.s.log), world.s.log)
      ensures !ran && r.Answered? && !IsError(r.message.content) && r.message.content != CANCELLED ==>
                Ledgered(ViewOf(state.traceId), call)
      ensures Explained(DeskOf(me, state.traceId), call, r, state.pendingReconciliation.Some?, old(world.Now()),
                        world.Now())
      ensures ran <==> Unhindered(DeskOf(me, state.traceId), call, old(world.Now()), world.Now())
    {
      hide SideEffects.Run, Lawful, Explained, Heard, OwnCalls, Grows, StartedWithin, OwnStarted, MayStart, Shown,
        IsError;
      UndisturbedProgress(world.law, me, state.traceId, [call], world.s, world.s);
      var held := HoldBack(me, state, call);
      if held.Some? {
        return held.value, false;
      }
      if ledger != null && registry[call.name] != READ {
        r, ran := ClaimAndRun(me, state, call);
      } else {
        r := RunFree(me, state, call);
        ran := true;
      }
    }

    /** What ends a call before the ledger is asked: the user has stopped the run, nobody knows the tool, or validation
        refuses the call. */
    method HoldBack(me: int, state: AgentLoopState, call: ToolCall) returns (held: Option<CallResult>)
      requires Ready(me)
      modifies world`told, state`toolCalls
      ensures Ready(me) && old(world.told) <= world.told
      ensures held.None? ==> world.told == old(world.told) && call.name in registry
      ensures held.Some? ==>
                if held.value.Answered?
                then held.value.message.Tool?
                     && (held.value.message.content == CANCELLED
                         || (IsError(held.value.message.content) && call.name in registry))
                else held.value.failure == ToolNotFound(call.name) && call.name !in registry
      ensures held.Some? ==> GoodResult(ViewOf(state.traceId), call, held.value, None, None)
      ensures held.Some? ==>
                && Explained(DeskOf(me, state.traceId), call, held.value, false, old(world.Now()), world.Now())
                && !Unhindered(DeskOf(me, state.traceId), call, old(world.Now()), world.Now())
    {
      hide SideEffects.Run, Lawful, Explained, Heard, Shown, ErrorText, IsError;
      ghost var desk, start := DeskOf(me, state.traceId), world.Now();
      var cancelled := world.Hears(StopSeen(state.traceId, call));
      if cancelled {
        HeardNew(StopSeen(state.traceId, call), start, world.Now(), [StopSeen(state.traceId, call)]);
        HeldBack(desk, call, start, world.Now(), [StopSeen(state.traceId, call)]);
        ExplainedBy(desk, call, ByStop, start, world.Now());
        ErrorShown(ViewOf(state.traceId), call, "");
        return Some(Answered(Tool(call.id, CANCELLED)));
      }
      if call.name !in registry {
        ExplainedBy(desk, call, ByRegistry, start, world.Now());
        return Some(CallRaised(ToolNotFound(call.name)));
      }
      var refusal := world.Validate(state.traceId, call);
      if refusal.None? {
        return None;
      }
      ghost var news := [CallRefused(state.traceId, call, refusal.value)];
      HeardNew(CallRefused(state.traceId, call, refusal.value), start, world.Now(), news);
      HeldBack(desk, call, start, world.Now(), news);
      ExplainedBy(desk, call, ByRefusal(refusal.value), start, world.Now());
      ErrorShown(ViewOf(state.traceId), call, refusal.value);
      var answer := RecordError(state, call, refusal.value);
      held := Some(answer);
    }

    /** A side effect is run if its claim is granted, and else answered from the ledger. */
    method ClaimAndRun(me: int, state: AgentLoopState, call: ToolCall) returns (r: CallResult, ran: bool)
      requires Ready(me) && state.stopReason.None? && state.pendingReconciliation.None?
      requires MayStart(world.law, world.s.log, state.traceId, call)
      requires Ledgered(ViewOf(state.traceId), call)
      modifies world, state`toolCalls, state`stopReason, state`pendingReconciliation
      ensures Ready(me) && old(world.history) <= world.history && old(world.told) <= world.told
      ensures Progress(world.law, me, state.traceId, [call], old(world.s), world.s)
      ensures GoodResult(ViewOf(state.traceId), call, r, state.stopReason, state.pendingReconciliation)
      ensures Explained(DeskOf(me, state.traceId), call, r, state.pendingReconciliation.Some?, old(world.Now()),
                        world.Now())
      ensures ran <==> Heard(ClaimGranted(CallKey(state.traceId, call)), old(world.Now()), world.Now())
      ensures r.CallRaised? ==> r.failure == Cancelled
      ensures ran ==> OwnStarted(me, state.traceId, call, true, old(world.s.log), world.s.log)
      ensures ran ==> StartedWithin(world.retry, me, old(world.s.log), world.s.log)
      ensures !ran ==> r.Answered? && OthersOnly(me, old(world.s.log), world.s.log)
    {
      hide SideEffects.Run, Lawful, Explained, Heard, ClaimRefused, OwnCalls, Grows, HandlerRan, OwnStarted, Shown,
        Answers,
        Wider;
      ghost var desk, start := DeskOf(me, state.traceId), world.Now();
      var claim := ledger.ClaimCall(me, state.traceId, call);
      UndisturbedProgress(world.law, me, state.traceId, [call], old(world.s), world.s);
      if claim.Claimed? {
        ghost var claimed := world.Now();
        MayStartLater(world.law, start.log, claimed.log, state.traceId, call);
        ghost var cause: Cause;
        r, cause := RunLedgered(me, state, call, old(world.s));
        WiderHalves(start, claimed, world.Now());
        GrantedRan(desk, call, cause.reply, cause.stored, start, claimed, world.Now());
        ExplainedBy(desk, call, cause, start, world.Now());
        StartedSince(me, state.traceId, call, true, start.log, claimed.log, world.s.log);
        ran := true;
      } else {
        r := AnswerFromLedger(state, call, claim);
        ExplainedBy(desk, call, ByLedger(claim), start, world.Now());
        ran := false;
      }
    }

    /** A call that needs no ledger. */
    method RunFree(me: int, state: AgentLoopState, call: ToolCall) returns (r: CallResult)
      requires Ready(me) && state.stopReason.None? && state.pendingReconciliation.None?
      requires !Ledgered(ViewOf(state.traceId), call) && MayStart(world.law, world.s.log, state.traceId, call)
      requires call.name in registry
      modifies world, state`toolCalls
      ensures Ready(me) && old(world.history) <= world.history && old(world.told) <= world.told
      ensures Progress(world.law, me, state.traceId, [call], old(world.s), world.s)
      ensures GoodResult(ViewOf(state.traceId), call, r, None, None)
      ensures Explained(DeskOf(me, state.traceId), call, r, false, old(world.Now()), world.Now())
      ensures Unhindered(DeskOf(me, state.traceId), call, old(world.Now()), world.Now())
      ensures OwnStarted(me, state.traceId, call, false, old(world.s.log), world.s.log)
      ensures StartedWithin(world.retry, me, old(world.s.log), world.s.log)
      ensures r.CallRaised? ==> r.failure == Cancelled
    {
      hide SideEffects.Run, Lawful, Explained, Heard, OwnStarted, AttemptsEnd, HandlerSaid, ResultOf, OwnCalls,
        MayStart,
        Grows, StartedWithin;
      ghost var desk, start := DeskOf(me, state.traceId), world.Now();
      var reply := ExecutePrevalidated(me, state.traceId, call, false);
      AttemptsHeard(world.retry, desk, call, reply, start, world.Now());
      ExplainedBy(desk, call, ByHandler(reply, None), start, world.Now());
      r := ReportFree(state, call, reply);
    }

    /** The answer to a call without a ledger whose handler has ended. */
    method ReportFree(state: AgentLoopState, call: ToolCall, reply: HandlerReply) returns (r: CallResult)
      requires !Ledgered(ViewOf(state.traceId), call)
      modifies state`toolCalls
      ensures r == ResultOf(call, ByHandler(reply, None))
      ensures reply.Returned? ==> r == Answered(Tool(call.id, WrapUntrusted(reply.content)))
      ensures GoodResult(ViewOf(state.traceId), call, r, None, None)
      ensures r.CallRaised? ==> r.failure == Cancelled
    {
      hide SideEffects.Run, Lawful, WrapUntrusted, ErrorText, IsError, NoticeText;
      match reply {
        case Returned(content) => r := RecordSuccess(state, call, content, WrapUntrusted(content));
        case RaisedToolError(message) => r := RecordError(state, call, message);
        case RaisedOther(message) => r := RecordError(state, call, message);
        case RaisedNotFound(name) => r := RecordError(state, call, name);
        case RaisedCancelled => r := CallRaised(Cancelled);
      }
    }

    /** A call whose claim was granted: its outcome is stored, or a human has to rule on it. */
    method RunLedgered(me: int, state: AgentLoopState, call: ToolCall, ghost start: State)
      returns (r: CallResult, ghost cause: Cause)
      requires world.Valid() && Built(me) && ledger != null
      requires state.stopReason.None? && state.pendingReconciliation.None?
      requires Ledgered(ViewOf(state.traceId), call) && MayStart(world.law, world.s.log, state.traceId, call)
      requires me in world.s.claims && world.s.claims[me] == Claim(state.traceId, call, ledger.account, 0)
      requires Progress(world.law, me, state.traceId, [call], start, world.s)
      modifies world, state`toolCalls, state`stopReason, state`pendingReconciliation
      ensures Ready(me) && old(world.history) <= world.history && old(world.told) <= world.told
      ensures Progress(world.law, me, state.traceId, [call], start, world.s)
      ensures OwnStarted(me, state.traceId, call, true, old(world.s.log), world.s.log)
      ensures StartedWithin(world.retry, me, old(world.s.log), world.s.log)
      ensures GoodResult(ViewOf(state.traceId), call, r, state.stopReason, state.pendingReconciliation)
      ensures cause.ByHandler? && r == ResultOf(call, cause)
      ensures HandlerRan(DeskOf(me, state.traceId), call, cause.reply, cause.stored, old(world.Now()), world.Now())
      ensures state.pendingReconciliation.Some? <==> Uncertain(world.law, call, cause)
      ensures Grows(old(world.s.table), world.s.table) && old(world.s.log) <= world.s.log
    {
      hide SideEffects.Run, Lawful, ResultOf, Heard, OwnStarted, AttemptsEnd, HandlerSaid, OutcomeKept, OwnCalls,
        MayStart, ClaimOk, Uncertain, Shown, WrapUntrusted, IsError, GoodResult, OthersOnly, ClaimOk;
      var trace := state.traceId;
      ghost var desk, claimed := DeskOf(me, trace), world.Now();
      ClaimHasRow(world.retry, world.history, me);
      var reply := ExecutePrevalidated(me, trace, call, true);
      AttemptsHeard(world.retry, desk, call, reply, claimed, world.Now());
      ProgressTransitive(world.law, me, trace, [call], start, old(world.s), world.s);
      ghost var mid := world.Now();
      ghost var s1 := world.s;
      var stored := StoreOutcome(me, trace, call, reply);
      ProgressTransitive(world.law, me, trace, [call], start, s1, world.s);
      ProgressLog(world.law, me, trace, [call], s1, world.s);
      ProgressLog(world.law, me, trace, [call], old(world.s), s1);
      GrowsTransitive(old(world.s.table), s1.table, world.s.table);
      NoStartBy(me, mid.log, world.s.log);
      StartedLater(me, trace, call, true, claimed.log, mid.log, world.s.log);
      HandlerSaidWider(trace, call, reply, claimed, mid, claimed, world.Now());
      OutcomeKeptWider(desk, call, reply, stored, mid, world.Now(), claimed, world.Now());
      cause := ByHandler(reply, stored);
      r := ReportOutcome(state, call, reply, stored);
    }

    /** What happens to the ledger row of a call whose handler has ended: a result is stored as a completion, a tool
        error as a failure with its text. */
    method StoreOutcome(me: int, trace: string, call: ToolCall, reply: HandlerReply)
      returns (stored: Option<LedgerReply>)
      requires world.Valid() && Built(me) && ledger != null && Ledgered(ViewOf(trace), call)
      requires me in world.s.claims && world.s.claims[me].attempts > 0
      requires ClaimKey(world.s.claims[me]) == CallKey(trace, call) && world.s.claims[me].account == ledger.account
      modifies world
      ensures Ready(me) && old(world.history) <= world.history && old(world.told) <= world.told
      ensures Progress(world.law, me, trace, [call], old(world.s), world.s)
      ensures OutcomeKept(DeskOf(me, trace), call, reply, stored, old(world.Now()), world.Now())
      ensures stored == Some(Done) && reply.Returned? ==>
                HasOutcome(world.s.table, CallKey(trace, call), ledger.account,
                           Outcome(Completed, Some(WrapUntrusted(reply.content)), None))
      ensures stored == Some(Done) && reply.RaisedToolError? ==>
                HasOutcome(world.s.table, CallKey(trace, call), ledger.account,
                           Outcome(Failed, None, Some(reply.message)))
      ensures stored.Some? <==> reply.Returned? || reply.RaisedToolError?
      ensures OthersOnly(me, old(world.s.log), world.s.log)
    {
      hide SideEffects.Run, Lawful, Heard, WrapUntrusted, HasOutcome, Grows;
      stored := None;
      match reply {
        case Returned(content) =>
          var answer := ledger.FinishCall(me, Outcome(Completed, Some(WrapUntrusted(content)), None));
          stored := Some(answer);
        case RaisedToolError(message) =>
          var answer := ledger.FinishCall(me, Outcome(Failed, None, Some(message)));
          stored := Some(answer);
        case _ =>
          world.DropClaim(me);
      }
      UndisturbedProgress(world.law, me, trace, [call], old(world.s), world.s);
    }

    /** The answer to a ledgered call whose handler has ended. An outcome that could not be stored makes
        the call uncertain; a handler that raised `ToolNotFoundError` itself only leaves the row running. */
    method ReportOutcome(state: AgentLoopState, call: ToolCall, reply: HandlerReply, stored: Option<LedgerReply>)
      returns (r: CallResult)
      requires state.stopReason.None? && state.pendingReconciliation.None?
      requires Ledgered(ViewOf(state.traceId), call) && UsesLedger(world.law, call)
      requires CallKey(state.traceId, call) in world.s.table
      requires stored.Some? <==> reply.Returned? || reply.RaisedToolError?
      requires stored == Some(Done) && reply.Returned? ==>
                 StoredContent(world.s.table, state.traceId, call, WrapUntrusted(reply.content))
      modifies state`toolCalls, state`stopReason, state`pendingReconciliation
      ensures GoodResult(ViewOf(state.traceId), call, r, state.stopReason, state.pendingReconciliation)
      ensures r == ResultOf(call, ByHandler(reply, stored))
      ensures state.pendingReconciliation.Some? <==> Uncertain(world.law, call, ByHandler(reply, stored))
      ensures state.pendingReconciliation.Some? <==>
              reply.RaisedOther? || (stored != Some(Done) && (reply.Returned? || reply.RaisedToolError?))
    {
      hide SideEffects.Run, Lawful, WrapUntrusted, IsError, Grows, Shown, StoredContent, ErrorText,
        NoticeText;
      match reply {
        case Returned(content) =>
          if stored == Some(Done) {
            StoredShown(ViewOf(state.traceId), call, WrapUntrusted(content));
            r := RecordSuccess(state, call, content, WrapUntrusted(content));
          } else {
            r := UncertainError(state, call, NoticeText(RESULT_NOT_STORED), NoticeText(NOT_FINALIZED));
          }
        case RaisedToolError(message) =>
          if stored == Some(Done) {
            r := PlainError(state, call, message);
          } else {
            r := UncertainError(state, call, NoticeText(ERROR_NOT_STORED), message);
          }
        case RaisedOther(message) =>
          r := UncertainError(state, call, NoticeText(RAISED_LATE), message);
        case RaisedNotFound(name) =>
          r := PlainError(state, call, name);
        case RaisedCancelled =>
          r := CallRaised(Cancelled);
      }
    }

    /** One call of a batch; `shown` says whether all calls before it were answered. */
    method RunNext(me: int, state: AgentLoopState, calls: seq<ToolCall>, i: nat, ghost results: seq<Message>,
                   ghost shown: bool)
      returns (one: CallResult)
      requires Ready(me) && state.stopReason.None? && state.pendingReconciliation.None? && i < |calls|
      requires BatchCleared(world.law, world.s.log, state.traceId, calls)
      requires shown ==> ShownBy(ViewOf(state.traceId), calls[..i], results)
      modifies world, state`toolCalls, state`stopReason, state`pendingReconciliation
      ensures Ready(me) && old(world.history) <= world.history && old(world.told) <= world.told
      ensures Progress(world.law, me, state.traceId, calls, old(world.s), world.s)
      ensures BatchCleared(world.law, world.s.log, state.traceId, calls)
      ensures GoodResult(ViewOf(state.traceId), calls[i], one, state.stopReason, state.pendingReconciliation)
      ensures shown && one.Answered? ==> ShownBy(ViewOf(state.traceId), calls[..i + 1], results + [one.message])
      ensures one.CallRaised? && one.failure.ToolNotFound? ==> calls[i].name !in registry
      ensures Explained(DeskOf(me, state.traceId), calls[i], one, state.pendingReconciliation.Some?, old(world.Now()),
                        world.Now())
    {
      hide SideEffects.Run, Lawful, Explained;
      ghost var before, view := world.s, ViewOf(state.traceId);
      var ran: bool;
      one, ran := ExecuteOne(me, state, calls[i]);
      OwnCallsMore(world.law, me, state.traceId, [calls[i]], calls, before.log, world.s.log);
      BatchClearedLater(world.law, before.log, world.s.log, state.traceId, calls);
      if shown && one.Answered? {
        ShownNext(view, world.s.table, calls, i, results, one.message);
      }
    }

    /** A batch. With a side effect in it the calls run one after the other and stop at the first
        uncertain one; without one they are independent, and an unknown tool only raises at the end. */
    method Run(me: int, state: AgentLoopState, calls: seq<ToolCall>) returns (r: BatchResult)
      requires Ready(me) && state.stopReason.None? && state.pendingReconciliation.None?
      requires BatchCleared(world.law, world.s.log, state.traceId, calls)
      modifies world, state`toolCalls, state`stopReason, state`pendingReconciliation
      ensures Ready(me) && old(world.history) <= world.history && old(world.told) <= world.told
      ensures Progress(world.law, me, state.traceId, calls, old(world.s), world.s)
      ensures GoodBatch(ViewOf(state.traceId), calls, r, state.stopReason, state.pendingReconciliation)
      ensures BatchExplained(DeskOf(me, state.traceId), calls, r, state.pendingReconciliation.Some?, old(world.Now()),
                             world.Now())
      ensures r.BatchRaised? && r.failure.ToolNotFound? ==> exists c :: c in calls && c.name !in registry
    {
      hide Grows, OwnCalls, Lawful, Shown, ShownBy, IsError, BatchCleared, SideEffects.Run, AnswersExplained, Explained,
        RaiseExplained, Wider, UncertainAt, Progress;
      ghost var desk, start := DeskOf(me, state.traceId), world.Now();
      NoneExplained(desk, calls, start);
      NoProgress(world.law, me, state.traceId, calls, world.s);
      NoneShown(ViewOf(state.traceId), calls);
      var sequential := |calls| == 1 || exists i :: 0 <= i < |calls| && SideEffecting(registry, calls[i].name);
      var results: seq<Message>, raised: Option<Failure> := [], None;
      var i := 0;
      while i < |calls|
        invariant i <= |calls|
        invariant Ready(me) && old(world.history) <= world.history && old(world.told) <= world.told
        invariant Progress(world.law, me, state.traceId, calls, old(world.s), world.s)
        invariant raised.None? ==> AnswersExplained(desk, calls, results, 0, i, start, world.Now())
        invariant raised.Some? ==> RaiseExplained(desk, calls, raised.value, start, world.Now())
        invariant BatchCleared(world.law, world.s.log, state.traceId, calls)
        invariant state.stopReason.None? && state.pendingReconciliation.None?
        invariant sequential ==> raised.None?
        invariant raised.None? ==> |results| == i && ShownBy(ViewOf(state.traceId), calls[..i], results)
        invariant raised.Some? && raised.value.ToolNotFound? ==> exists c :: c in calls && c.name !in registry
      {
        ghost var before, then_ := world.s, world.Now();
        var one := RunNext(me, state, calls, i, results, raised.None?);
        LaterMoments(world.law, me, state.traceId, calls, old(world.s), before, world.s, start.told, then_.told,
                     world.told);
        OneMore(desk, calls, i, results, raised, one, state.pendingReconciliation.Some?, start, then_, world.Now());
        match one {
          case CallRaised(failure) =>
            if sequential {
              return BatchRaised(failure);
            }
            raised := Some(failure);
          case Answered(message) =>
            results := results + [message];
        }
        i := i + 1;
        if sequential && state.pendingReconciliation.Some? {
          break;
        }
      }
      assert i == |calls| ==> calls[..i] == calls;
      r := if raised.Some? then BatchRaised(raised.value) else Results(results);
    }
  }

  lemma NoneShown(v: View, calls: seq<ToolCall>)
    ensures ShownBy(v, calls[..0], [])
  {
  }

  /** One more answer to a batch, after the table has grown. */
  lemma ShownNext(v: View, t: Table, calls: seq<ToolCall>, i: nat, results: seq<Message>, m: Message)
    requires i < |calls| && Grows(v.table, t) && ShownBy(v, calls[..i], results)
    requires m.Tool? && m.id == calls[i].id && Shown(v.(table := t), calls[i], m.content)
    ensures ShownBy(v.(table := t), calls[..i + 1], results + [m])
  {
    ShownGrows(v, t, calls[..i], results);
    var v' := v.(table := t);
    forall k | 0 <= k < i + 1
      ensures (results + [m])[k].Tool? && (results + [m])[k].id == calls[..i + 1][k].id
      ensures Shown(v', calls[..i + 1][k], (results + [m])[k].content)
    {
      if k < i {
        assert Shown(v', calls[..i][k], results[k].content);
      }
    }
  }

  /** A batch ends with all answers, or stops at an uncertain call with that call's error as its last. */
  ghost predicate GoodBatch(v: View, calls: seq<ToolCall>, r: BatchResult, stop: Option<StopReason>,
                            pending: Option<PendingReconciliation>) {
    && (r.Results? ==> |r.messages| <= |calls| && ShownBy(v, calls[..|r.messages|], r.messages))
    && (pending.None? ==> stop.None? && (r.Results? ==> |r.messages| == |calls|))
    && (pending.Some? ==>
          stop == Some(EXECUTION_IN_DOUBT) && r.Results? && PausedAt(v, calls, r.messages, pending.value))
  }

  ghost predicate PausedAt(v: View, calls: seq<ToolCall>, results: seq<Message>, p: PendingReconciliation) {
    && 0 < |results| <= |calls| && p.frozen.None? && p.callId == calls[|results| - 1].id
    && IsError(results[|results| - 1].content)
    && Ledgered(v, calls[|results| - 1]) && CallKey(v.trace, calls[|results| - 1]) in v.table
  }

  ghost predicate StoredContent(t: Table, trace: string, call: ToolCall, content: string) {
    var key := CallKey(trace, call);
    key in t && t[key].status == Completed && t[key].result == Some(content)
  }

  lemma StoredShown(v: View, call: ToolCall, content: string)
    requires StoredContent(v.table, v.trace, call, content)
    ensures Shown(v, call, content)
  {
  }

  // ---- Observe ----

  predicate Blank(content: string) {
    forall i :: 0 <= i < |content| ==> Whitespace(content[i])
  }

  predicate AnyError(results: seq<Message>) {
    exists i :: 0 <= i < |results| && IsError(results[i].content)
  }

  predicate AllErrors(results: seq<Message>) {
    forall i :: 0 <= i < |results| ==> IsError(results[i].content)
  }

  function ErrorCount(results: seq<Message>): (n: nat)
    ensures n <= |results|
    ensures n > 0 <==> AnyError(results)
    ensures n == |results| <==> AllErrors(results)
  {
    if results == [] then 0
    else
      var init := results[..|results| - 1];
      assert results == init + [results[|results| - 1]];
      ErrorCount(init) + if IsError(results[|results| - 1].content) then 1 else 0
  }

  /** How many steps in a row have failed, after one more. */
  function ErrorsAfter(results: seq<Message>, errors: nat): nat {
    if results != [] && AllErrors(results) then errors + 1
    else if !AnyError(results) then 0
    else errors
  }

  /** Whether the run stops after tool errors. */
  function ToolStop(abort: bool, limit: nat, results: seq<Message>, errors: nat): Option<StopReason> {
    if (abort && AnyError(results)) || errors >= limit then Some(TOOL_ERROR_ABORT) else None
  }

  lemma CountedAs(results: seq<Message>, errors: nat)
    ensures ErrorsAfter(results, errors)
         == (if results != [] && AllErrors(results) then errors + 1 else if !AnyError(results) then 0 else errors)
    ensures forall abort, limit, n: nat ::
              ToolStop(abort, limit, results, n)
              == if (abort && AnyError(results)) || n >= limit then Some(TOOL_ERROR_ABORT) else None
  {
  }

  class Observe {
    const abortOnToolError: bool
    const maxConsecutiveErrors: nat

    constructor (abortOnToolError: bool, maxConsecutiveErrors: nat)
      ensures this.abortOnToolError == abortOnToolError && this.maxConsecutiveErrors == maxConsecutiveErrors
    {
      this.abortOnToolError, this.maxConsecutiveErrors := abortOnToolError, maxConsecutiveErrors;
    }

    /** Records one step. A message without tool calls ends the run; a step in which every call failed
        counts, one in which none failed resets the count, a mixed one leaves it. */
    method Run(state: AgentLoopState, message: Message, results: seq<Message>)
      requires message.Assistant? && state.stopReason.None?
      modifies state`messages, state`stopReason, state`finalAnswer, state`consecutiveToolErrors
      ensures state.messages == old(state.messages) + [message] + if message.calls == [] then [] else results
      ensures message.calls == [] ==>
                && state.consecutiveToolErrors == old(state.consecutiveToolErrors)
                && state.stopReason == Some(if Blank(message.content) then LLM_ERROR_ABORT else MODEL_FINAL)
                && state.finalAnswer == if Blank(message.content) then old(state.finalAnswer) else Some(message.content)
      ensures message.calls != [] ==>
                && state.finalAnswer == old(state.finalAnswer)
                && state.consecutiveToolErrors ==
                   (if results != [] && AllErrors(results) then old(state.consecutiveToolErrors) + 1
                    else if !AnyError(results) then 0
                    else old(state.consecutiveToolErrors))
                && state.stopReason ==
                   if (abortOnToolError && AnyError(results)) || state.consecutiveToolErrors >= maxConsecutiveErrors
                   then Some(TOOL_ERROR_ABORT) else None
    {
      state.messages := state.messages + [message];
      if message.calls == [] {
        if Blank(message.content) {
          state.stopReason := Some(LLM_ERROR_ABORT);
          return;
        }
        state.finalAnswer := Some(message.content);
        state.stopReason := Some(MODEL_FINAL);
        return;
      }
      state.messages := state.messages + results;
      var errorCount := ErrorCount(results);
      if errorCount == |results| && results != [] {
        state.consecutiveToolErrors := state.consecutiveToolErrors + 1;
      } else if errorCount == 0 {
        state.consecutiveToolErrors := 0;
      }
      if abortOnToolError && errorCount > 0 {
        state.stopReason := Some(TOOL_ERROR_ABORT);
      } else if state.consecutiveToolErrors >= maxConsecutiveErrors {
        state.stopReason := Some(TOOL_ERROR_ABORT);
      }
    }
  }
}
