/**
 The durable side-effect protocol as a transition system. Any number of workers run tool calls of any
 number of traces against one ledger table; one step is one SQL statement, one handler start, one human
 decision or one crash. Workers may be started at any time with any call, so every resume, whether from
 a fresh, a stale or a replayed checkpoint, is a run of this system.

 A statement that raises may or may not have taken effect.
 */
module SideEffects {
  import opened Options
  import opened ExecutionLedger

  datatype ToolCall = ToolCall(id: string, name: string, arguments: string)

  datatype Fault = NoFault | RaisedBefore | RaisedAfter

  datatype ApprovalDecision = ApprovalDecision(requestId: string, approve: bool, reason: string)

  /** The log of what reached the outside world, in order: handler starts, requests for approval with their
      frozen batches, what people have decided on requests, and the approvals that workers have consumed. */
  datatype Event =
    | Started(worker: int, trace: string, call: ToolCall, ledgered: bool)
    | Asked(worker: int, trace: string, requestId: string, calls: seq<ToolCall>)
    | Decided(trace: string, decision: ApprovalDecision)
    | Approved(worker: int, trace: string, decision: ApprovalDecision, calls: seq<ToolCall>)

  /** A claim answered `claimed` and not yet given up; `attempts` counts its handler starts. */
  datatype Claim = Claim(trace: string, call: ToolCall, account: int, attempts: nat)

  datatype State = State(table: Table, claims: map<int, Claim>, log: seq<Event>)

  datatype Step =
    | InsertRow(worker: int, trace: string, call: ToolCall, account: int, fault: Fault)
    | StartClaimed(worker: int)
    | StartFree(worker: int, trace: string, call: ToolCall)
    | FinishClaim(worker: int, outcome: Outcome, fault: Fault)
    | Abandon(worker: int)
    | Resolve(key: Key, account: int, outcome: Outcome, fault: Fault)
    | AskApproval(worker: int, trace: string, requestId: string, calls: seq<ToolCall>)
    | Decide(trace: string, decision: ApprovalDecision)
    | ConsumeApproval(worker: int, trace: string, decision: ApprovalDecision, calls: seq<ToolCall>)

  const EMPTY := State(map[], map[], [])

  /** The entry was made by this worker. What people decide is nobody's. */
  predicate OwnedBy(e: Event, w: int) {
    !e.Decided? && e.worker == w
  }

  function CallKey(trace: string, call: ToolCall): Key {
    Key(trace, call.id)
  }

  /** `retry` is the executor's number of retries, 0 where the runner is built. */
  predicate Enabled(retry: nat, s: State, step: Step) {
    match step
    case InsertRow(w, _, _, _, _) => w !in s.claims
    case StartClaimed(w) => w in s.claims && s.claims[w].attempts <= retry
    case StartFree(w, _, _) => w !in s.claims
    case FinishClaim(w, o, _) => w in s.claims && s.claims[w].attempts > 0 && GoodOutcome(o)
    case Abandon(w) => w in s.claims
    case Resolve(_, _, o, _) => GoodOutcome(o)
    case AskApproval(_, _, _, _) => true
    case Decide(_, _) => true
    case ConsumeApproval(_, _, d, _) => d.approve
  }

  function Apply(retry: nat, s: State, step: Step): State
    requires Enabled(retry, s, step)
  {
    match step
    case InsertRow(w, trace, call, account, fault) =>
      var key := CallKey(trace, call);
      if fault == RaisedBefore then s
      else
        var t := InsertIgnore(s.table, key, NewRow(call.name, call.arguments, account));
        if fault == NoFault && key !in s.table
        then s.(table := t, claims := s.claims[w := Claim(trace, call, account, 0)])
        else s.(table := t)
    case StartClaimed(w) =>
      var c := s.claims[w];
      s.(claims := s.claims[w := c.(attempts := c.attempts + 1)],
      log := s.log + [Started(w, c.trace, c.call, true)])
    case StartFree(w, trace, call) =>
      s.(log := s.log + [Started(w, trace, call, false)])
    case FinishClaim(w, o, fault) =>
      var c := s.claims[w];
      var t := if fault == RaisedBefore then s.table else Settle(s.table, ClaimKey(c), c.account, o);
      s.(table := t, claims := s.claims - {w})
    case Abandon(w) =>
      s.(claims := s.claims - {w})
    case Resolve(key, account, o, fault) =>
      if fault == RaisedBefore then s else s.(table := Settle(s.table, key, account, o))
    case AskApproval(w, trace, id, calls) =>
      s.(log := s.log + [Asked(w, trace, id, calls)])
    case Decide(trace, d) =>
      s.(log := s.log + [Decided(trace, d)])
    case ConsumeApproval(w, trace, d, calls) =>
      s.(log := s.log + [Approved(w, trace, d, calls)])
  }

  /** The state after a sequence of steps from the empty table, if each step is enabled when taken. */
  function Run(retry: nat, steps: seq<Step>): Option<State> {
    if steps == [] then Some(EMPTY)
    else
      var before := Run(retry, steps[..|steps| - 1]);
      if before.Some? && Enabled(retry, before.value, steps[|steps| - 1])
      then Some(Apply(retry, before.value, steps[|steps| - 1]))
      else None
  }

  // ---- At most once ----

  predicate StartOf(e: Event, key: Key) {
    e.Started? && e.ledgered && CallKey(e.trace, e.call) == key
  }

  /** Handler starts under a ledger key. */
  function Starts(log: seq<Event>, key: Key): nat {
    if log == [] then 0
    else Starts(log[..|log| - 1], key) + if StartOf(log[|log| - 1], key) then 1 else 0
  }

  ghost predicate ClaimsOk(retry: nat, s: State) {
    && (forall w :: w in s.claims ==> ClaimOk(retry, s, s.claims[w]))
    && (forall w, w' :: w in s.claims && w' in s.claims && ClaimKey(s.claims[w]) == ClaimKey(s.claims[w']) ==> w == w')
  }

  function ClaimKey(c: Claim): Key {
    CallKey(c.trace, c.call)
  }

  ghost predicate ClaimOk(retry: nat, s: State, c: Claim) {
    && Starts(s.log, ClaimKey(c)) == c.attempts <= retry + 1
    && RowOf(s.table, c.trace, c.call)
    && s.table[ClaimKey(c)].account == c.account
  }

  /** The call's row exists and was claimed with this tool and these arguments. */
  predicate RowOf(t: Table, trace: string, call: ToolCall) {
    var key := CallKey(trace, call);
    key in t && t[key].tool == call.name && t[key].digest == call.arguments
  }

  predicate LedgeredStart(log: seq<Event>, i: nat) {
    i < |log| && log[i].Started? && log[i].ledgered
  }

  /** Every ledgered start ran the call its row was claimed with, and all starts of a key are of one
      worker, the one that still holds the claim if any does. */
  ghost predicate LogOk(s: State) {
    && (forall i: nat :: LedgeredStart(s.log, i) ==> RowOf(s.table, s.log[i].trace, s.log[i].call))
    && (forall i: nat, w ::
          LedgeredStart(s.log, i) && w in s.claims && StartOf(s.log[i], ClaimKey(s.claims[w])) ==> s.log[i].worker == w)
    && (forall i: nat, j: nat :: SameKey(s.log, i, j) ==> s.log[i].worker == s.log[j].worker)
  }

  predicate SameKey(log: seq<Event>, i: nat, j: nat) {
    LedgeredStart(log, i) && LedgeredStart(log, j) && StartOf(log[i], CallKey(log[j].trace, log[j].call))
  }

  ghost predicate StartsBounded(retry: nat, s: State) {
    forall key :: Starts(s.log, key) <= if key in s.table then retry + 1 else 0
  }

  ghost predicate Inv(retry: nat, s: State) {
    ClaimsOk(retry, s) && LogOk(s) && StartsBounded(retry, s) && GoodTable(s.table)
  }

  lemma StartsAppend(log: seq<Event>, e: Event, key: Key)
    ensures Starts(log + [e], key) == Starts(log, key) + if StartOf(e, key) then 1 else 0
  {
    assert (log + [e])[..|log|] == log;
  }

  lemma InsertKeepsInv(retry: nat, s: State, key: Key, row: Row)
    requires Inv(retry, s) && row.status == Running
    ensures Inv(retry, s.(table := InsertIgnore(s.table, key, row)))
  {
    var s' := s.(table := InsertIgnore(s.table, key, row));
    forall k ensures Starts(s'.log, k) <= if k in s'.table then retry + 1 else 0 {
      assert Starts(s.log, k) <= if k in s.table then retry + 1 else 0;
    }
    assert ClaimsOk(retry, s');
    assert LogOk(s');
  }

  /** A first insert answers `claimed`: nothing has started under the key. */
  lemma ClaimKeepsInv(retry: nat, s: State, w: int, c: Claim)
    requires Inv(retry, s) && w !in s.claims && c.attempts == 0
    requires RowOf(s.table, c.trace, c.call) && s.table[ClaimKey(c)].account == c.account
    requires Starts(s.log, ClaimKey(c)) == 0
    requires forall w' :: w' in s.claims ==> ClaimKey(s.claims[w']) != ClaimKey(c)
    ensures Inv(retry, s.(claims := s.claims[w := c]))
  {
    forall i: nat | LedgeredStart(s.log, i) ensures !StartOf(s.log[i], ClaimKey(c)) {
      NoStart(s.log, ClaimKey(c), i);
    }
  }

  lemma {:induction false} NoStart(log: seq<Event>, key: Key, i: nat)
    requires Starts(log, key) == 0 && i < |log|
    ensures !StartOf(log[i], key)
    decreases |log|
  {
    if i < |log| - 1 {
      NoStart(log[..|log| - 1], key, i);
    }
  }

  lemma StartKeepsInv(retry: nat, s: State, w: int)
    requires Inv(retry, s) && Enabled(retry, s, StartClaimed(w))
    ensures Inv(retry, Apply(retry, s, StartClaimed(w)))
  {
    hide Enabled, Apply, Starts, ClaimsOk, LogOk, StartsBounded, GoodTable;
    StartCounts(retry, s, w);
    StartKeepsClaims(retry, s, w);
    StartKeepsLog(retry, s, w);
  }

  /** Only the starts of the claim's key become more, by one. */
  lemma StartCounts(retry: nat, s: State, w: int)
    requires Inv(retry, s) && Enabled(retry, s, StartClaimed(w))
    ensures var s', k := Apply(retry, s, StartClaimed(w)), ClaimKey(s.claims[w]);
            && (forall key :: Starts(s'.log, key) == Starts(s.log, key) + if key == k then 1 else 0)
            && StartsBounded(retry, s') && GoodTable(s'.table)
  {
    var s', c := Apply(retry, s, StartClaimed(w)), s.claims[w];
    var e := Started(w, c.trace, c.call, true);
    forall key ensures Starts(s'.log, key) == Starts(s.log, key) + if key == ClaimKey(c) then 1 else 0 {
      StartsAppend(s.log, e, key);
    }
    assert ClaimOk(retry, s, c);
  }

  lemma StartKeepsClaims(retry: nat, s: State, w: int)
    requires Inv(retry, s) && Enabled(retry, s, StartClaimed(w))
    ensures ClaimsOk(retry, Apply(retry, s, StartClaimed(w)))
  {
    hide LogOk, StartsBounded, GoodTable, Starts;
    StartCounts(retry, s, w);
    var s' := Apply(retry, s, StartClaimed(w));
    forall v | v in s'.claims ensures ClaimOk(retry, s', s'.claims[v]) {
      assert ClaimOk(retry, s, s.claims[v]);
    }
  }

  lemma StartKeepsLog(retry: nat, s: State, w: int)
    requires Inv(retry, s) && Enabled(retry, s, StartClaimed(w))
    ensures LogOk(Apply(retry, s, StartClaimed(w)))
  {
    hide StartsBounded, GoodTable, Starts;
    assert ClaimOk(retry, s, s.claims[w]);
  }

  lemma LogKeepsInv(retry: nat, s: State, e: Event)
    requires Inv(retry, s) && (e.Started? ==> !e.ledgered)
    ensures Inv(retry, s.(log := s.log + [e]))
  {
    var s' := s.(log := s.log + [e]);
    forall key ensures Starts(s'.log, key) == Starts(s.log, key) {
      StartsAppend(s.log, e, key);
    }
    assert StartsBounded(retry, s');
    assert ClaimsOk(retry, s');
  }

  /** Settling a row and giving up claims. */
  lemma SettleKeepsInv(retry: nat, s: State, key: Key, account: int, o: Outcome, settles: bool, gone: set<int>)
    requires Inv(retry, s) && GoodOutcome(o)
    ensures Inv(retry, s.(table := if settles then Settle(s.table, key, account, o) else s.table,
                claims := s.claims - gone))
  {
    var s' := s.(table := if settles then Settle(s.table, key, account, o) else s.table, claims := s.claims - gone);
    assert s'.table.Keys == s.table.Keys;
    assert StartsBounded(retry, s') by {
      forall k ensures Starts(s'.log, k) <= if k in s'.table then retry + 1 else 0 {
        assert Starts(s.log, k) <= if k in s.table then retry + 1 else 0;
      }
    }
    assert ClaimsOk(retry, s');
    assert LogOk(s');
  }

  lemma StepKeepsInv(retry: nat, s: State, step: Step)
    requires Inv(retry, s) && Enabled(retry, s, step)
    ensures Inv(retry, Apply(retry, s, step))
  {
    match step
    case InsertRow(w, trace, call, account, fault) =>
      var key := CallKey(trace, call);
      InsertKeepsInv(retry, s, key, NewRow(call.name, call.arguments, account));
      if fault == NoFault && key !in s.table {
        assert Starts(s.log, key) <= 0;
        ClaimKeepsInv(retry, s.(table := InsertIgnore(s.table, key, NewRow(call.name, call.arguments, account))), w,
                      Claim(trace, call, account, 0));
      }
    case StartClaimed(w) => StartKeepsInv(retry, s, w);
    case StartFree(w, trace, call) => LogKeepsInv(retry, s, Started(w, trace, call, false));
    case FinishClaim(w, o, fault) =>
      var c := s.claims[w];
      SettleKeepsInv(retry, s, ClaimKey(c), c.account, o, fault != RaisedBefore, {w});
    case Abandon(w) => SettleKeepsInv(retry, s, Key("", ""), 0, Outcome(Failed, None, Some("")), false, {w});
    case Resolve(key, account, o, fault) =>
      assert s.claims - {} == s.claims;
      SettleKeepsInv(retry, s, key, account, o, fault != RaisedBefore, {});
    case AskApproval(w, trace, id, calls) => LogKeepsInv(retry, s, Asked(w, trace, id, calls));
    case Decide(trace, d) => LogKeepsInv(retry, s, Decided(trace, d));
    case ConsumeApproval(w, trace, d, calls) => LogKeepsInv(retry, s, Approved(w, trace, d, calls));
  }

  lemma {:induction false} ReachableInv(retry: nat, steps: seq<Step>)
    requires Run(retry, steps).Some?
    ensures Inv(retry, Run(retry, steps).value)
    decreases |steps|
  {
    if steps == [] {
      assert Inv(retry, EMPTY);
    } else {
      ReachableInv(retry, steps[..|steps| - 1]);
      StepKeepsInv(retry, Run(retry, steps[..|steps| - 1]).value, steps[|steps| - 1]);
    }
  }

  /** At most once, for what is ledgered: under any key the handler starts at most `retry + 1` times, and
      whenever it starts it runs the tool and the arguments the row was first claimed with, always for one
      worker. With no retries no two ledgered starts have the same key. */
  lemma LedgeredAtMostOnce(retry: nat, steps: seq<Step>, key: Key)
    requires Run(retry, steps).Some?
    ensures var s := Run(retry, steps).value;
            && Starts(s.log, key) <= retry + 1
            && (forall i: nat :: LedgeredStart(s.log, i) ==> RowOf(s.table, s.log[i].trace, s.log[i].call))
            && (forall i: nat, j: nat :: SameKey(s.log, i, j) ==> s.log[i].worker == s.log[j].worker)
            && (forall i: nat, j: nat :: SameKey(s.log, i, j) ==> s.log[i].call == s.log[j].call)
            && (retry == 0 ==> forall i: nat, j: nat :: SameKey(s.log, i, j) ==> i == j)
  {
    ReachableInv(retry, steps);
    var s := Run(retry, steps).value;
    forall i: nat, j: nat | SameKey(s.log, i, j) && retry == 0 ensures i == j {
      var k := CallKey(s.log[i].trace, s.log[i].call);
      assert Starts(s.log, k) <= 1;
      if i < j {
        TwoStarts(s.log, k, i, j);
      } else if j < i {
        TwoStarts(s.log, k, j, i);
      }
    }
  }

  lemma {:induction false} OneStart(log: seq<Event>, key: Key, i: nat)
    requires i < |log| && StartOf(log[i], key)
    ensures Starts(log, key) >= 1
    decreases |log|
  {
    if i < |log| - 1 {
      OneStart(log[..|log| - 1], key, i);
    }
  }

  lemma {:induction false} TwoStarts(log: seq<Event>, key: Key, i: nat, j: nat)
    requires i < j < |log| && StartOf(log[i], key) && StartOf(log[j], key)
    ensures Starts(log, key) >= 2
    decreases |log|
  {
    if j < |log| - 1 {
      TwoStarts(log[..|log| - 1], key, i, j);
    } else {
      OneStart(log[..|log| - 1], key, i);
    }
  }

  // ---- Outcomes are written once ----

  lemma StepGrows(retry: nat, s: State, step: Step)
    requires Enabled(retry, s, step)
    ensures Grows(s.table, Apply(retry, s, step).table)
    ensures s.log <= Apply(retry, s, step).log
  {
  }

  /** Over any run a row is never removed, never changes its tool, arguments or account, and once it
      has an outcome it keeps that outcome; the log only grows. */
  lemma {:induction false} OutcomeWrittenOnce(retry: nat, steps: seq<Step>, n: nat)
    requires n <= |steps| && Run(retry, steps).Some?
    ensures Run(retry, steps[..n]).Some?
    ensures Grows(Run(retry, steps[..n]).value.table, Run(retry, steps).value.table)
    ensures Run(retry, steps[..n]).value.log <= Run(retry, steps).value.log
    decreases |steps|
  {
    if n == |steps| {
      assert steps[..n] == steps;
    } else {
      var init := steps[..|steps| - 1];
      assert init[..n] == steps[..n];
      OutcomeWrittenOnce(retry, init, n);
      var s, s' := Run(retry, init).value, Run(retry, steps).value;
      StepGrows(retry, s, steps[|steps| - 1]);
      GrowsTransitive(Run(retry, steps[..n]).value.table, s.table, s'.table);
    }
  }

  lemma RunAppend(retry: nat, steps: seq<Step>, step: Step)
    requires Run(retry, steps).Some? && Enabled(retry, Run(retry, steps).value, step)
    ensures Run(retry, steps + [step]) == Some(Apply(retry, Run(retry, steps).value, step))
  {
    assert (steps + [step])[..|steps|] == steps;
  }

  /** One more attempt of a claimed call. */
  lemma AttemptAgain(retry: nat, s: State, c: Claim)
    requires s.claims == map[0 := c] && c.attempts <= retry && Starts(s.log, ClaimKey(c)) == c.attempts
    ensures Enabled(retry, s, StartClaimed(0))
    ensures var s' := Apply(retry, s, StartClaimed(0));
            && s'.claims == map[0 := c.(attempts := c.attempts + 1)]
            && Starts(s'.log, ClaimKey(c)) == c.attempts + 1
  {
    StartsAppend(s.log, Started(0, c.trace, c.call, true), ClaimKey(c));
  }

  /** The bound is reached: an executor with retries starts the handler of one call that often, so
      at-most-once holds exactly when `retry == 0`. */
  lemma {:induction false} RetriesRepeatTheHandler(retry: nat, trace: string, call: ToolCall, n: nat)
    returns (steps: seq<Step>)
    requires n <= retry + 1
    ensures var s := Run(retry, steps);
            && s.Some? && Starts(s.value.log, CallKey(trace, call)) == n
            && s.value.claims == map[0 := Claim(trace, call, 0, n)]
  {
    if n == 0 {
      var first := InsertRow(0, trace, call, 0, NoFault);
      RunAppend(retry, [], first);
      steps := [] + [first];
    } else {
      var init := RetriesRepeatTheHandler(retry, trace, call, n - 1);
      AttemptAgain(retry, Run(retry, init).value, Claim(trace, call, 0, n - 1));
      RunAppend(retry, init, StartClaimed(0));
      steps := init + [StartClaimed(0)];
    }
  }
}
