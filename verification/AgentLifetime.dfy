/**
 The life of one durable run over many sessions: each session starts fresh or from any checkpoint saved so
 far, with any decision, while other workers act; it may be cancelled, fail to save, or crash after any of its
 steps. Any worker of the team may run a session; one that has crashed while it held a claim never runs again.
 */
module AgentLifetime {
  import opened Options
  import opened SideEffects
  import opened Discipline
  import opened LedgerClient
  import opened AgentState
  import opened Reconciliation
  import opened PausedRuns
  import opened AgentLoop
  import opened LoopSteps
  import opened Planning
  import opened Harness
  import opened Snapshot
  import opened TaskStatuses

  /** A checkpoint from which a run of this trace may be resumed. */
  predicate GoodCheckpoint(h: AgentLoopHarness, trace: string, d: Document)
    reads h.act.world
  {
    && d.traceId == trace && Readable(d)
    && LiveParts(h.act.world.law, h.act.ViewOf(trace), h.act.world.s.log, ReadStop(d.stopReason).value, d.messages,
                 d.pendingApproval, d.pendingReconciliation)
    && PlanOk(h.strategy, PlanOf(d.plan), ReadStop(d.stopReason).value)
    && (d.step <= h.maxSteps || d.step == 0)
  }

  predicate GoodCheckpoints(h: AgentLoopHarness, trace: string, saved: seq<Document>)
    reads h.act.world
  {
    forall i :: 0 <= i < |saved| ==> GoodCheckpoint(h, trace, saved[i])
  }

  /** Checkpoints stay good whatever happens later. */
  lemma PartsStayGood(h: AgentLoopHarness, v: View, s: State, s': State, d: Document)
    requires Later(s, s') && v.table == s.table && Readable(d)
    requires LiveParts(h.act.world.law, v, s.log, ReadStop(d.stopReason).value, d.messages, d.pendingApproval,
                       d.pendingReconciliation)
    ensures LiveParts(h.act.world.law, v.(table := s'.table), s'.log, ReadStop(d.stopReason).value, d.messages,
                      d.pendingApproval, d.pendingReconciliation)
  {
    LiveLater(h.act.world.law, v, s'.table, s.log, s'.log, ReadStop(d.stopReason).value, d.messages,
              d.pendingApproval, d.pendingReconciliation);
  }

  /** The harness is built as the law of the team says. */
  ghost predicate Deployed(h: AgentLoopHarness)
    reads h.act.world
  {
    h.act.world.Valid() && h.act.Wired() && h.policy == h.act.world.law.policy
  }

  /** What a session is given to decide on. */
  function Waits(checkpoint: Option<Document>): Option<PendingApproval> {
    if checkpoint.Some? then checkpoint.value.pendingApproval else None
  }

  function Uncertain(checkpoint: Option<Document>): Option<PendingReconciliation> {
    if checkpoint.Some? then checkpoint.value.pendingReconciliation else None
  }

  /** The transcript that a session starts with. */
  function Transcript(checkpoint: Option<Document>, first: seq<Message>): seq<Message> {
    if checkpoint.Some? then checkpoint.value.messages else first
  }

  /** The decision of a session is one that a person has made. */
  predicate HumanDecision(log: seq<Event>, trace: string, approval: Option<ApprovalDecision>) {
    approval.Some? ==> DecidedBefore(log, |log|, trace, approval.value)
  }

  /** One session of the agent task: load, run, and save a checkpoint if the run has paused. The status is
      None if the session was cancelled from outside. */
  method RunAgentMode(h: AgentLoopHarness, me: int, trace: string, goal: string, first: seq<Feedback>,
                      checkpoint: Option<Document>,
                      approval: Option<ApprovalDecision>, ruling: Option<Decision>, limit: nat, cancelSeen: bool)
    returns (status: Option<TaskStatus>, saved: Option<Document>, ghost st: AgentLoopState, ghost result: RunResult)
    requires h.Guarded(me)
    requires checkpoint.Some? ==> GoodCheckpoint(h, trace, checkpoint.value)
    requires HumanDecision(h.act.world.s.log, trace, approval)
    modifies h.act.world
    ensures h.Guarded(me) && old(h.act.world.history) <= h.act.world.history
    ensures h.Since(me, trace, AllowedCalls(Waits(checkpoint), Uncertain(checkpoint), approval),
                    GrantOf(Waits(checkpoint), approval), old(h.act.world.s))
    ensures saved.Some? ==> GoodCheckpoint(h, trace, saved.value)
    ensures saved.Some? ==> ReadStop(saved.value.stopReason).value == Some(APPROVAL_REQUIRED)
                            || ReadStop(saved.value.stopReason).value == Some(EXECUTION_IN_DOUBT)
    ensures checkpoint.Some? && saved.Some? ==> checkpoint.value.messages <= saved.value.messages
    ensures status.Some? && Waiting(status.value) ==> !cancelSeen
    ensures status == Some(SUCCESS) ==> !cancelSeen && saved.None?
    ensures status == (match result case TaskCancelled => None case RunEnded(r) => Some(FinalStatus(cancelSeen, r)))
    ensures fresh(st) && st.traceId == trace && (result.RunEnded? ==> h.Reports(st, result.result))
    ensures saved.Some? ==> saved.value == SerializeState(st, limit)
    ensures result.RunEnded? && h.plannerReplies ==> st.stopReason.Some?
    ensures result.RunEnded? && st.stopReason.Some? && st.stopReason != Some(ERROR) ==>
              (checkpoint.Some? && st.stopReason == ReadStop(checkpoint.value.stopReason).value)
              || h.StopHeard(st, Transcript(checkpoint, first), old(h.act.world.Now()))
    ensures var before := Transcript(checkpoint, first);
            DecisionTaken(me, trace, h.lexicon, Waits(checkpoint), Uncertain(checkpoint), approval, ruling,
                          st.messages == before, before, st.messages, old(h.act.world.s.log), h.act.world.s.log)
  {
    hide SideEffects.Run, Lawful, ExecutionLedger.Grows, OwnEntries, ReconciliationOk, ApprovalOk, AtMostOnce,
      GateHolds, DecisionTaken, RaisedFor, StopGiven, Blank, AllowedCalls, SerializeState, Faithful;
    var state := Load(h, trace, goal, first, checkpoint);
    st := state;
    var r := h.Run(me, state, checkpoint.Some?, approval, ruling);
    result := r;
    saved := None;
    if r.TaskCancelled? {
      return None, None, st, result;
    }
    status := Some(FinalStatus(cancelSeen, r.result));
    var stored: bool := *;
    if stored && (r.result.stopReason == Some(APPROVAL_REQUIRED) || r.result.stopReason == Some(EXECUTION_IN_DOUBT)) {
      saved := Save(h, state, limit);
    }
  }

  /** The state that a session starts with: that of its checkpoint, or a new one. */
  method Load(h: AgentLoopHarness, trace: string, goal: string, first: seq<Feedback>, checkpoint: Option<Document>)
    returns (st: AgentLoopState)
    requires checkpoint.Some? ==> GoodCheckpoint(h, trace, checkpoint.value)
    ensures fresh(st) && st.traceId == trace && st.messages == Transcript(checkpoint, first) && h.Live(st)
    ensures st.pendingApproval == Waits(checkpoint) && st.pendingReconciliation == Uncertain(checkpoint)
    ensures st.stopReason == if checkpoint.Some? then ReadStop(checkpoint.value.stopReason).value else None
    ensures checkpoint.Some? ==> Restores(st, checkpoint.value)
    ensures checkpoint.None? ==> st.goal == goal && st.plan == [] && st.step == 0
    ensures st.step <= h.maxSteps || st.step == 0
  {
    hide SideEffects.Run, Lawful, ReconciliationOk, ApprovalOk, Blank;
    if checkpoint.Some? {
      var loaded := DeserializeState(checkpoint.value);
      st := loaded;
    } else {
      st := new AgentLoopState(goal, first, trace);
      FaithfulFeedback(h.act.ViewOf(trace), first);
    }
  }

  /** The checkpoint of a run between two sessions. */
  method Save(h: AgentLoopHarness, st: AgentLoopState, limit: nat) returns (saved: Option<Document>)
    requires h.Live(st) && (st.step <= h.maxSteps || st.step == 0)
    ensures saved == Some(SerializeState(st, limit)) && GoodCheckpoint(h, st.traceId, saved.value)
    ensures ReadStop(saved.value.stopReason).value == st.stopReason && saved.value.messages == st.messages
  {
    hide SideEffects.Run, Lawful, ReconciliationOk, ApprovalOk, Blank, Faithful;
    SerializedReadable(st, limit);
    saved := Some(SerializeState(st, limit));
  }

  /** A decision of a person on a request of the trace, if there is one yet; people decide when they like. */
  method GetDecision(h: AgentLoopHarness, me: int, trace: string) returns (approval: Option<ApprovalDecision>)
    requires Deployed(h)
    modifies h.act.world
    ensures Deployed(h) && old(h.act.world.history) <= h.act.world.history
    ensures Undisturbed(me, old(h.act.world.s), h.act.world.s)
    ensures HumanDecision(h.act.world.s.log, trace, approval)
  {
    h.act.world.Interfere(me);
    var j: int, log := *, h.act.world.s.log;
    approval := None;
    if 0 <= j < |log| && log[j].Decided? && log[j].trace == trace {
      assert DecidedAt(log, |log|, j, trace, log[j].decision);
      approval := Some(log[j].decision);
    }
  }

  /** The process dies after some step since the history `before`. */
  method Crash(h: AgentLoopHarness, before: seq<Step>)
    requires Deployed(h) && before <= h.act.world.history
    modifies h.act.world
    ensures Deployed(h) && before <= h.act.world.history <= old(h.act.world.history)
  {
    var n: int := *;
    if |before| <= n <= |h.act.world.history| {
      h.act.world.StopAt(n);
    }
  }

  lemma HistoryGrows(retry: nat, history: seq<Step>, history': seq<Step>)
    requires history <= history' && Run(retry, history').Some?
    ensures Run(retry, history).Some? && Later(Run(retry, history).value, Run(retry, history').value)
  {
    OutcomeWrittenOnce(retry, history', |history|);
    assert history'[..|history|] == history;
  }

  /** A session of a worker of the team, with a decision of a person if it comes with one. It may crash, and
      then leaves no checkpoint, but what it has done until then, and its claim. */
  method Session(h: AgentLoopHarness, me: int, trace: string, goal: string, first: seq<Feedback>,
                 checkpoint: Option<Document>, limit: nat)
    returns (saved: Option<Document>)
    requires Deployed(h) && me in h.act.world.law.team && me !in h.act.world.s.claims
    requires checkpoint.Some? ==> GoodCheckpoint(h, trace, checkpoint.value)
    modifies h.act.world
    ensures Deployed(h) && old(h.act.world.history) <= h.act.world.history
    ensures saved.Some? ==> GoodCheckpoint(h, trace, saved.value)
  {
    hide SideEffects.Run, Lawful, Faithful, ReconciliationOk, ApprovalOk;
    ghost var s0 := h.act.world.s;
    var approval := GetDecision(h, me, trace);
    var ruling: Option<Decision>, cancelSeen: bool := *, *;
    if checkpoint.Some? {
      PartsStayGood(h, h.act.ViewOf(trace).(table := s0.table), s0, h.act.world.s, checkpoint.value);
    }
    var before := h.act.world.history;
    ghost var st: AgentLoopState, result: RunResult;
    var status: Option<TaskStatus>, new_: Option<Document>;
    status, new_, st, result := RunAgentMode(h, me, trace, goal, first, checkpoint, approval, ruling, limit,
                                             cancelSeen);
    var crashes: bool := *;
    if crashes {
      Crash(h, before);
      return None;
    }
    saved := new_;
  }

  /** Any number of sessions by any workers of the team, each from any checkpoint that is good to resume when it
      starts, whoever has saved it: every session of the team saves only such ones, and they stay good.
      Throughout, with a ledger, the team starts the handlers of a side effect under one key at most `retry + 1`
      times; no handler of a call that needs approval starts before a person has approved its batch; stored
      outcomes stay; and every checkpoint ever saved still has a paired transcript whose ledgered answers are
      the stored ones, within the step limit. */
  method Lifetime(h: AgentLoopHarness, trace: string, goal: string, first: seq<Feedback>, limit: nat, sessions: nat)
    returns (saved: seq<Document>)
    requires Deployed(h)
    modifies h.act.world
    ensures Deployed(h) && old(h.act.world.history) <= h.act.world.history && Later(old(h.act.world.s), h.act.world.s)
    ensures AtMostOnce(h.act.world.law, h.act.world.retry, h.act.world.s)
    ensures GateHolds(h.act.world.law, h.act.world.s.log)
    ensures GoodCheckpoints(h, trace, saved)
    ensures forall i :: 0 <= i < |saved| ==>
                          Paired(saved[i].messages) && (saved[i].step <= h.maxSteps || saved[i].step == 0)
  {
    hide SideEffects.Run, Lawful, Faithful, ReconciliationOk, ApprovalOk;
    saved := [];
    for n := 0 to sessions
      invariant Deployed(h) && old(h.act.world.history) <= h.act.world.history
      invariant GoodCheckpoints(h, trace, saved)
    {
      var me: int, offered: Option<Document> := *, *;
      if me in h.act.world.law.team && me !in h.act.world.s.claims {
        ghost var before, history, view := h.act.world.s, h.act.world.history, h.act.ViewOf(trace);
        if offered.Some? && !GoodCheckpoint(h, trace, offered.value) {
          offered := None;
        }
        var new_ := Session(h, me, trace, goal, first, offered, limit);
        HistoryGrows(h.act.world.retry, history, h.act.world.history);
        forall i | 0 <= i < |saved| ensures GoodCheckpoint(h, trace, saved[i]) {
          PartsStayGood(h, view, before, h.act.world.s, saved[i]);
        }
        if new_.Some? {
          saved := saved + [new_.value];
        }
      }
    }
    h.act.world.TeamIsSafe();
    HistoryGrows(h.act.world.retry, old(h.act.world.history), h.act.world.history);
    forall i | 0 <= i < |saved| ensures Paired(saved[i].messages) {
      FaithfulPaired(h.act.ViewOf(trace), saved[i].messages);
    }
  }
}
