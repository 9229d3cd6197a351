/**
 What the workers of the agent runtime may put on the log, and what follows from it for the log as a whole.
 The workers of a team are the sessions of runs, whether they come one after the other or race; everybody
 else is unknown.
 */
module Discipline {
  import opened Options
  import opened ExecutionLedger
  import opened SideEffects
  import opened ToolPolicy

  /** The team, and what its runners are built with. */
  datatype Law = Law(team: set<int>, policy: Option<ApprovalPolicy>, registry: Registry, hasLedger: bool)

  predicate UsesLedger(law: Law, call: ToolCall) {
    law.hasLedger && SideEffecting(law.registry, call.name)
  }

  predicate NeedsApproval(law: Law, call: ToolCall) {
    law.policy.Some? && Gated(law.policy.value, law.registry, call)
  }

  /** Entry `j` before position `n` is an approval, consumed by the team, of a batch with the call. */
  predicate ClearsAt(law: Law, log: seq<Event>, n: nat, j: nat, trace: string, call: ToolCall) {
    j < n && j < |log| && log[j].Approved? && log[j].worker in law.team && log[j].trace == trace && call in log[j].calls
  }

  predicate Cleared(law: Law, log: seq<Event>, n: nat, trace: string, call: ToolCall) {
    exists j: nat :: j < |log| && ClearsAt(law, log, n, j, trace, call)
  }

  predicate AskedAt(log: seq<Event>, n: nat, i: nat, id: string) {
    i < n && i < |log| && log[i].Asked? && log[i].requestId == id
  }

  /** Nobody has asked under this id before position `n`. */
  predicate FreshRequest(log: seq<Event>, n: nat, id: string) {
    forall i: nat :: i < |log| ==> !AskedAt(log, n, i, id)
  }

  /** Entry `i` before position `n` is the team's request under this id, for exactly these calls. */
  predicate RequestedAt(law: Law, log: seq<Event>, n: nat, i: nat, trace: string, id: string, calls: seq<ToolCall>) {
    AskedAt(log, n, i, id) && log[i].worker in law.team && log[i].trace == trace && log[i].calls == calls
  }

  predicate Requested(law: Law, log: seq<Event>, n: nat, trace: string, id: string, calls: seq<ToolCall>) {
    exists i: nat :: i < |log| && RequestedAt(law, log, n, i, trace, id, calls)
  }

  predicate DecidedAt(log: seq<Event>, n: nat, j: nat, trace: string, d: ApprovalDecision) {
    j < n && j < |log| && log[j] == Decided(trace, d)
  }

  predicate DecidedBefore(log: seq<Event>, n: nat, trace: string, d: ApprovalDecision) {
    exists j: nat :: j < |log| && DecidedAt(log, n, j, trace, d)
  }

  /** Before position `n` a person has decided on a request that was made, before that, for exactly these calls. */
  predicate AnsweredBefore(law: Law, log: seq<Event>, n: nat, trace: string, d: ApprovalDecision,
                           calls: seq<ToolCall>) {
    exists j: nat :: j < |log| && DecidedAt(log, n, j, trace, d) && Requested(law, log, j, trace, d.requestId, calls)
  }

  /** There is a request of this trace under the id. */
  predicate AskedBefore(log: seq<Event>, n: nat, trace: string, id: string) {
    exists i: nat :: i < |log| && AskedAt(log, n, i, id) && log[i].trace == trace
  }

  /** A worker of the team starts a handler under the ledger exactly for a side effect, and if the call needs
      approval only after one of a batch with it; it asks under new ids only; and it consumes an approval only of
      a batch that was asked for under the id on which a person has decided. A person decides on requests
      that have been made. */
  predicate MayLog(law: Law, log: seq<Event>, n: nat, e: Event) {
    match e
    case Asked(w, _, id, _) => w in law.team ==> FreshRequest(log, n, id)
    case Decided(trace, d) => AskedBefore(log, n, trace, d.requestId)
    case Started(w, trace, call, ledgered) =>
      w in law.team ==>
        && ledgered == UsesLedger(law, call)
        && (NeedsApproval(law, call) ==> Cleared(law, log, n, trace, call))
    case Approved(w, trace, d, calls) =>
      w in law.team ==> d.approve && AnsweredBefore(law, log, n, trace, d, calls)
  }

  ghost predicate Lawful(law: Law, log: seq<Event>) {
    forall i: nat :: i < |log| ==> MayLog(law, log, i, log[i])
  }

  lemma ClearedLater(law: Law, log: seq<Event>, log': seq<Event>, n: nat, n': nat, trace: string, call: ToolCall)
    requires log <= log' && n <= n' && Cleared(law, log, n, trace, call)
    ensures Cleared(law, log', n', trace, call)
  {
    var j: nat :| j < |log| && ClearsAt(law, log, n, j, trace, call);
    assert ClearsAt(law, log', n', j, trace, call);
  }

  lemma RequestedLater(law: Law, log: seq<Event>, log': seq<Event>, n: nat, n': nat, trace: string, id: string,
                       calls: seq<ToolCall>)
    requires log <= log' && n <= n' && Requested(law, log, n, trace, id, calls)
    ensures Requested(law, log', n', trace, id, calls)
  {
    var i: nat :| i < |log| && RequestedAt(law, log, n, i, trace, id, calls);
    assert RequestedAt(law, log', n', i, trace, id, calls);
  }

  lemma AnsweredLater(law: Law, log: seq<Event>, log': seq<Event>, n: nat, n': nat, trace: string,
                      d: ApprovalDecision, calls: seq<ToolCall>)
    requires log <= log' && n <= n' && AnsweredBefore(law, log, n, trace, d, calls)
    ensures AnsweredBefore(law, log', n', trace, d, calls)
  {
    var j: nat :|
      j < |log| && DecidedAt(log, n, j, trace, d) && Requested(law, log, j, trace, d.requestId, calls);
    RequestedLater(law, log, log', j, j, trace, d.requestId, calls);
    assert DecidedAt(log', n', j, trace, d);
  }

  lemma AskedLater(log: seq<Event>, log': seq<Event>, n: nat, n': nat, trace: string, id: string)
    requires log <= log' && n <= n' && AskedBefore(log, n, trace, id)
    ensures AskedBefore(log', n', trace, id)
  {
    var i: nat :| i < |log| && AskedAt(log, n, i, id) && log[i].trace == trace;
    assert AskedAt(log', n', i, id);
  }

  predicate MayStart(law: Law, log: seq<Event>, trace: string, call: ToolCall) {
    NeedsApproval(law, call) ==> Cleared(law, log, |log|, trace, call)
  }

  lemma MayStartLater(law: Law, log: seq<Event>, log': seq<Event>, trace: string, call: ToolCall)
    requires log <= log' && MayStart(law, log, trace, call)
    ensures MayStart(law, log', trace, call)
  {
    if NeedsApproval(law, call) {
      ClearedLater(law, log, log', |log|, |log'|, trace, call);
    }
  }

  /** The calls of a batch that need approval are cleared at the end of the log. */
  predicate BatchCleared(law: Law, log: seq<Event>, trace: string, calls: seq<ToolCall>) {
    forall c :: c in calls ==> MayStart(law, log, trace, c)
  }

  lemma BatchClearedLater(law: Law, log: seq<Event>, log': seq<Event>, trace: string, calls: seq<ToolCall>)
    requires log <= log' && BatchCleared(law, log, trace, calls)
    ensures BatchCleared(law, log', trace, calls)
  {
    forall c | c in calls ensures MayStart(law, log', trace, c) {
      assert MayStart(law, log, trace, c);
      if NeedsApproval(law, c) {
        ClearedLater(law, log, log', |log|, |log'|, trace, c);
      }
    }
  }

  /** Consuming an approval clears its calls. */
  lemma ApprovalClears(law: Law, log: seq<Event>, me: int, trace: string, d: ApprovalDecision, calls: seq<ToolCall>)
    requires log != [] && log[|log| - 1] == Approved(me, trace, d, calls) && me in law.team
    ensures BatchCleared(law, log, trace, calls)
  {
    forall c | c in calls ensures MayStart(law, log, trace, c) {
      assert ClearsAt(law, log, |log|, |log| - 1, trace, c);
    }
  }

  /** What may be logged may be logged later, unless it is a request, whose id has to be new. */
  lemma MayLogLater(law: Law, log: seq<Event>, log': seq<Event>, n: nat, n': nat, e: Event)
    requires log <= log' && n <= n' && MayLog(law, log, n, e)
    requires e.Asked? ==> n == n' <= |log|
    ensures MayLog(law, log', n', e)
  {
    match e {
      case Asked(w, _, id, _) =>
        if w in law.team {
          forall i: nat | i < |log'| ensures !AskedAt(log', n', i, id) {
            assert i < n ==> !AskedAt(log, n, i, id);
          }
        }
      case Decided(trace, d) => AskedLater(log, log', n, n', trace, d.requestId);
      case Started(w, trace, call, ledgered) =>
        if w in law.team && NeedsApproval(law, call) {
          ClearedLater(law, log, log', n, n', trace, call);
        }
      case Approved(w, trace, d, calls) =>
        if w in law.team {
          AnsweredLater(law, log, log', n, n', trace, d, calls);
        }
    }
  }

  lemma LawfulAppend(law: Law, log: seq<Event>, e: Event)
    requires Lawful(law, log) && MayLog(law, log, |log|, e)
    ensures Lawful(law, log + [e])
  {
    var log' := log + [e];
    forall i: nat | i < |log'| ensures MayLog(law, log', i, log'[i]) {
      MayLogLater(law, log, log', i, i, log'[i]);
    }
  }

  lemma LawfulPrefix(law: Law, log: seq<Event>, log': seq<Event>)
    requires log <= log' && Lawful(law, log')
    ensures Lawful(law, log)
  {
    forall i: nat | i < |log| ensures MayLog(law, log, i, log[i]) {
      assert MayLog(law, log', i, log'[i]);
      MayLogBefore(law, log, log', i, log[i]);
    }
  }

  /** Only what comes before matters. */
  lemma MayLogBefore(law: Law, log: seq<Event>, log': seq<Event>, n: nat, e: Event)
    requires log <= log' && n <= |log| && MayLog(law, log', n, e)
    ensures MayLog(law, log, n, e)
  {
    match e {
      case Asked(w, _, id, _) =>
        if w in law.team {
          forall i: nat | i < |log| ensures !AskedAt(log, n, i, id) {
            assert !AskedAt(log', n, i, id);
          }
        }
      case Decided(trace, d) =>
        var i: nat :| i < |log'| && AskedAt(log', n, i, d.requestId) && log'[i].trace == trace;
        assert AskedAt(log, n, i, d.requestId);
      case Started(w, trace, call, ledgered) =>
        if w in law.team && NeedsApproval(law, call) {
          var j: nat :| j < |log'| && ClearsAt(law, log', n, j, trace, call);
          assert ClearsAt(law, log, n, j, trace, call);
        }
      case Approved(w, trace, d, calls) =>
        if w in law.team {
          AnsweredEarlier(law, log, log', n, trace, d, calls);
        }
    }
  }

  lemma AnsweredEarlier(law: Law, log: seq<Event>, log': seq<Event>, n: nat, trace: string, d: ApprovalDecision,
                        calls: seq<ToolCall>)
    requires log <= log' && n <= |log| && AnsweredBefore(law, log', n, trace, d, calls)
    ensures AnsweredBefore(law, log, n, trace, d, calls)
  {
    var j: nat :|
      j < |log'| && DecidedAt(log', n, j, trace, d) && Requested(law, log', j, trace, d.requestId, calls);
    var i: nat :| i < |log'| && RequestedAt(law, log', j, i, trace, d.requestId, calls);
    assert RequestedAt(law, log, j, i, trace, d.requestId, calls) && DecidedAt(log, n, j, trace, d);
  }

  // ---- A request id names one batch ----

  /** There is always another id. */
  lemma FreshIdExists(log: seq<Event>) returns (id: string)
    ensures FreshRequest(log, |log|, id)
  {
    id := "";
    for i := 0 to |log|
      invariant forall k :: 0 <= k < i && log[k].Asked? ==> |log[k].requestId| < |id|
    {
      if log[i].Asked? && |log[i].requestId| >= |id| {
        id := log[i].requestId + ['x'];
      }
    }
  }

  /** No two requests of the team have the same id. */
  ghost predicate RequestsUnique(law: Law, log: seq<Event>) {
    forall i: nat, i': nat, id :: TeamAsked(law, log, i, id) && TeamAsked(law, log, i', id) ==> i == i'
  }

  predicate TeamAsked(law: Law, log: seq<Event>, i: nat, id: string) {
    AskedAt(log, |log|, i, id) && log[i].worker in law.team
  }

  lemma LawfulRequests(law: Law, log: seq<Event>)
    requires Lawful(law, log)
    ensures RequestsUnique(law, log)
  {
    forall i: nat, i': nat, id | TeamAsked(law, log, i, id) && TeamAsked(law, log, i', id) ensures i == i' {
      assert MayLog(law, log, i, log[i]) && MayLog(law, log, i', log[i']);
      assert i < i' ==> AskedAt(log, i', i, id);
      assert i' < i ==> AskedAt(log, i, i', id);
    }
  }

  /** A decision on the id of a request of the team was made after the request, and so is one on its calls:
      before the request nobody could have asked under this id. */
  lemma DecisionIsOnBatch(law: Law, log: seq<Event>, trace: string, d: ApprovalDecision, calls: seq<ToolCall>)
    requires Lawful(law, log)
    requires DecidedBefore(log, |log|, trace, d) && Requested(law, log, |log|, trace, d.requestId, calls)
    ensures AnsweredBefore(law, log, |log|, trace, d, calls)
  {
    var j: nat :| j < |log| && DecidedAt(log, |log|, j, trace, d);
    var i: nat :| i < |log| && RequestedAt(law, log, |log|, i, trace, d.requestId, calls);
    assert MayLog(law, log, j, log[j]) && MayLog(law, log, i, log[i]);
    var first: nat :| first < |log| && AskedAt(log, j, first, d.requestId) && log[first].trace == trace;
    assert !AskedAt(log, i, first, d.requestId);
    assert RequestedAt(law, log, j, i, trace, d.requestId, calls);
  }

  /** The entry that a step adds to the log. */
  function NewEntry(s: State, step: Step): Option<Event> {
    match step
    case StartClaimed(w) => if w in s.claims then Some(Started(w, s.claims[w].trace, s.claims[w].call, true)) else None
    case StartFree(w, trace, call) => Some(Started(w, trace, call, false))
    case AskApproval(w, trace, id, calls) => Some(Asked(w, trace, id, calls))
    case Decide(trace, d) => Some(Decided(trace, d))
    case ConsumeApproval(w, trace, d, calls) => Some(Approved(w, trace, d, calls))
    case _ => None
  }

  predicate StepAllowed(law: Law, s: State, step: Step) {
    NewEntry(s, step).Some? ==> MayLog(law, s.log, |s.log|, NewEntry(s, step).value)
  }

  lemma AllowedStepIsLawful(law: Law, retry: nat, s: State, step: Step)
    requires Lawful(law, s.log) && Enabled(retry, s, step) && StepAllowed(law, s, step)
    ensures Lawful(law, Apply(retry, s, step).log)
  {
    var e := NewEntry(s, step);
    if e.Some? {
      LawfulAppend(law, s.log, e.value);
    }
  }

  // ---- What follows ----

  /** A start of a side effect under a ledger key by a worker of the team, ledgered or not. */
  predicate TeamStart(law: Law, e: Event, key: Key) {
    e.Started? && e.worker in law.team && SideEffecting(law.registry, e.call.name) && CallKey(e.trace, e.call) == key
  }

  function TeamStarts(law: Law, log: seq<Event>, key: Key): nat {
    if log == [] then 0
    else TeamStarts(law, log[..|log| - 1], key) + if TeamStart(law, log[|log| - 1], key) then 1 else 0
  }

  lemma {:induction false} TeamStartsLedgered(law: Law, log: seq<Event>, key: Key, n: nat)
    requires Lawful(law, log) && law.hasLedger && n <= |log|
    ensures TeamStarts(law, log[..n], key) <= Starts(log[..n], key)
    decreases n
  {
    if n > 0 {
      TeamStartsLedgered(law, log, key, n - 1);
      assert log[..n][..n - 1] == log[..n - 1];
      assert MayLog(law, log, n - 1, log[n - 1]);
    }
  }

  predicate TeamStartAt(law: Law, log: seq<Event>, i: nat, key: Key) {
    i < |log| && TeamStart(law, log[i], key)
  }

  /** With a ledger, the team starts the handlers of a side effect under one key at most `retry + 1` times,
      and always with the tool and arguments the key's row was claimed with; without retries no two of its
      starts share a key. */
  ghost predicate AtMostOnce(law: Law, retry: nat, s: State) {
    law.hasLedger ==>
      && (forall key :: TeamStarts(law, s.log, key) <= retry + 1)
      && (forall i: nat, key :: TeamStartAt(law, s.log, i, key) ==> RowOf(s.table, s.log[i].trace, s.log[i].call))
      && (retry == 0 ==>
            forall i: nat, j: nat, key :: TeamStartAt(law, s.log, i, key) && TeamStartAt(law, s.log, j, key) ==> i == j)
  }

  /** At most once, for everything the team starts: over every run of the system, with any other workers,
      whatever the ledger's statements and the people do, and whoever crashes. */
  lemma TeamAtMostOnce(law: Law, retry: nat, steps: seq<Step>)
    requires Run(retry, steps).Some? && Lawful(law, Run(retry, steps).value.log)
    ensures AtMostOnce(law, retry, Run(retry, steps).value)
  {
    var s := Run(retry, steps).value;
    if law.hasLedger {
      forall key ensures TeamStarts(law, s.log, key) <= retry + 1 {
        LedgeredAtMostOnce(retry, steps, key);
        TeamStartsLedgered(law, s.log, key, |s.log|);
        assert s.log[..|s.log|] == s.log;
      }
      forall i: nat, key | TeamStartAt(law, s.log, i, key)
        ensures LedgeredStart(s.log, i) && StartOf(s.log[i], key) && RowOf(s.table, s.log[i].trace, s.log[i].call)
      {
        LedgeredAtMostOnce(retry, steps, key);
        assert MayLog(law, s.log, i, s.log[i]);
      }
      forall i: nat, j: nat, key | retry == 0 && TeamStartAt(law, s.log, i, key) && TeamStartAt(law, s.log, j, key)
        ensures i == j
      {
        LedgeredAtMostOnce(retry, steps, key);
        assert SameKey(s.log, i, j);
      }
    }
  }

  /** Entry `k` is an approval of a batch with the call, consumed by the team; entry `j` before it is a person's
      decision to approve, and entry `r` before that the team's request under the decided id, for exactly the
      batch of the approval. */
  predicate ApprovedAt(law: Law, log: seq<Event>, i: nat, k: nat, j: nat, r: nat) {
    && i < |log| && log[i].Started? && ClearsAt(law, log, i, k, log[i].trace, log[i].call)
    && DecidedAt(log, k, j, log[k].trace, log[k].decision) && log[k].decision.approve
    && RequestedAt(law, log, j, r, log[k].trace, log[k].decision.requestId, log[k].calls)
  }

  predicate GatedStartAt(law: Law, log: seq<Event>, i: nat) {
    i < |log| && log[i].Started? && log[i].worker in law.team && NeedsApproval(law, log[i].call)
  }

  /** No handler of a call that needs approval is started by the team before a batch with the call was asked for,
      a person has decided to approve that request, and the approval has been consumed; and a request id names
      one batch. */
  ghost predicate GateHolds(law: Law, log: seq<Event>) {
    && RequestsUnique(law, log)
    && forall i: nat :: GatedStartAt(law, log, i) ==> exists k: nat, j: nat, r: nat :: ApprovedAt(law, log, i, k, j, r)
  }

  lemma LawfulGate(law: Law, log: seq<Event>)
    requires Lawful(law, log)
    ensures GateHolds(law, log)
  {
    LawfulRequests(law, log);
    forall i: nat | GatedStartAt(law, log, i)
      ensures exists k: nat, j: nat, r: nat :: ApprovedAt(law, log, i, k, j, r)
    {
      assert MayLog(law, log, i, log[i]);
      var k: nat :| k < |log| && ClearsAt(law, log, i, k, log[i].trace, log[i].call);
      assert MayLog(law, log, k, log[k]);
      var t, d, calls := log[k].trace, log[k].decision, log[k].calls;
      var j: nat :| j < |log| && DecidedAt(log, k, j, t, d) && Requested(law, log, j, t, d.requestId, calls);
      var r: nat :| r < |log| && RequestedAt(law, log, j, r, t, d.requestId, calls);
      assert ApprovedAt(law, log, i, k, j, r);
    }
  }

  // ---- One session ----

  /** An approval that a session was given: the decision and the frozen calls of the request it answers. */
  datatype Grant = Grant(decision: ApprovalDecision, calls: seq<ToolCall>)

  /** What a session itself may have added to the log: requests, handler starts of its trace, under the ledger
      exactly for side effects, of calls that need approval only if they are among the allowed ones; and no
      approval but the one it was given. */
  ghost predicate OwnEntries(law: Law, me: int, trace: string, allowed: seq<ToolCall>, grant: Option<Grant>,
                             log: seq<Event>, log': seq<Event>)
  {
    && log <= log'
    && forall i: nat :: |log| <= i < |log'| && OwnedBy(log'[i], me) ==> OwnEntry(law, trace, allowed, grant, log'[i])
  }

  predicate OwnEntry(law: Law, trace: string, allowed: seq<ToolCall>, grant: Option<Grant>, e: Event)
    requires !e.Decided?
  {
    && e.trace == trace
    && (e.Started? ==> e.ledgered == UsesLedger(law, e.call) && (NeedsApproval(law, e.call) ==> e.call in allowed))
    && (e.Approved? ==> grant == Some(Grant(e.decision, e.calls)))
  }

  predicate Weaker(allowed: seq<ToolCall>, grant: Option<Grant>, allowed': seq<ToolCall>, grant': Option<Grant>) {
    (forall c :: c in allowed ==> c in allowed') && (grant.Some? ==> grant' == grant)
  }

  lemma OwnEntriesTransitive(law: Law, me: int, trace: string, a1: seq<ToolCall>, g1: Option<Grant>, a2: seq<ToolCall>,
                             g2: Option<Grant>, allowed: seq<ToolCall>, grant: Option<Grant>,
                             x: seq<Event>, y: seq<Event>, z: seq<Event>)
    requires OwnEntries(law, me, trace, a1, g1, x, y) && OwnEntries(law, me, trace, a2, g2, y, z)
    requires Weaker(a1, g1, allowed, grant) && Weaker(a2, g2, allowed, grant)
    ensures OwnEntries(law, me, trace, allowed, grant, x, z)
  {
    forall i: nat | |x| <= i < |z| && OwnedBy(z[i], me) ensures OwnEntry(law, trace, allowed, grant, z[i]) {
      assert i < |y| ==> z[i] == y[i];
    }
  }
}
