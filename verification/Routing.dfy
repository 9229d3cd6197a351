/** A goal split into sub-goals that are run one after the other within one step budget. */
module Routing {
  import opened Options
  import opened AgentState
  import opened Characters
  import opened LedgerClient
  import opened AgentLoop
  import opened PausedRuns
  import opened LoopSteps
  import opened Harness

  datatype Routed = Routed(result: AgentLoopResult) | AssertionFailed | RoutingCancelled

  function Decimal(n: nat): string {
    var digit := [('0' as int + n % 10) as char];
    if n < 10 then digit else Decimal(n / 10) + digit
  }

  function Join(parts: seq<string>, separator: string): string {
    if parts == [] then ""
    else if |parts| == 1 then parts[0]
    else parts[0] + separator + Join(parts[1..], separator)
  }

  function NonEmpty(parts: seq<string>): (r: seq<string>)
    ensures forall p :: p in r <==> p in parts && p != ""
  {
    if parts == [] then []
    else if parts[0] == "" then NonEmpty(parts[1..])
    else [parts[0]] + NonEmpty(parts[1..])
  }

  function SubGoalMessages(first: seq<Feedback>, answers: seq<string>, index: nat, count: nat,
                           goal: string): seq<Feedback> {
    first
    + (if answers == [] then [] else [System("Previous sub-goal results:\n" + Join(answers, "\n"))])
    + [System("Current sub-goal " + Decimal(index) + "/" + Decimal(count) + ": " + goal)]
  }

  /** One more part goes behind a separator. */
  lemma {:induction false} JoinAppend(parts: seq<string>, last: string, separator: string)
    ensures Join(parts + [last], separator) == if parts == [] then last else Join(parts, separator) + separator + last
    decreases |parts|
  {
    if |parts| == 1 {
      assert (parts + [last])[1..] == [last];
    } else if |parts| > 1 {
      JoinAppend(parts[1..], last, separator);
      assert (parts + [last])[1..] == parts[1..] + [last];
      var more := Join(parts + [last], separator);
      assert more == parts[0] + separator + (Join(parts[1..], separator) + separator + last);
      assert more == parts[0] + separator + Join(parts[1..], separator) + separator + last;
    }
  }

  /** A sub-run is shown what the parent was given, then the answers so far if there are any, and last its own goal. */
  lemma SubGoalShown(first: seq<Feedback>, answers: seq<string>, index: nat, count: nat, goal: string)
    ensures var ms := SubGoalMessages(first, answers, index, count, goal);
            && first <= ms && |ms| == |first| + (if answers == [] then 1 else 2)
            && EndsWith(ms[|ms| - 1].content, goal)
            && (answers != [] ==> EndsWith(ms[|first|].content, Join(answers, "\n")))
  {
    var ms := SubGoalMessages(first, answers, index, count, goal);
    var lead := "Current sub-goal " + Decimal(index) + "/" + Decimal(count) + ": ";
    assert ms[|ms| - 1].content == lead + goal;
    assert (lead + goal)[|lead|..] == goal;
    if answers != [] {
      var head := "Previous sub-goal results:\n";
      assert ms[|first|].content == head + Join(answers, "\n");
      assert (head + Join(answers, "\n"))[|head|..] == Join(answers, "\n");
    }
  }

  predicate EndsWith(text: string, end: string) {
    |end| <= |text| && text[|text| - |end|..] == end
  }

  /** The steps of the first `n` sub-runs. */
  function StepsOf(runs: seq<AgentLoopResult>, n: nat): nat
    requires n <= |runs|
  {
    if n == 0 then 0 else StepsOf(runs, n - 1) + runs[n - 1].totalSteps
  }

  /** The answer texts of the sub-runs, empty for a sub-run without one. */
  function Answers(runs: seq<AgentLoopResult>): seq<string> {
    seq(|runs|, i requires 0 <= i < |runs| => runs[i].finalAnswer.GetOr(""))
  }

  lemma {:induction false} StepsOfPrefix(runs: seq<AgentLoopResult>, all: seq<AgentLoopResult>, n: nat)
    requires n <= |runs| && runs <= all
    ensures StepsOf(all, n) == StepsOf(runs, n)
  {
    if n > 0 {
      StepsOfPrefix(runs, all, n - 1);
    }
  }

  // ---- What a routed run is ----

  /** What every run guarantees of its result: a success has an answer and has taken a step. */
  predicate PossibleResult(r: AgentLoopResult) {
    && (r.success <==> r.stopReason == Some(MODEL_FINAL))
    && (r.success ==> HasAnswer(r.finalAnswer) && r.totalSteps > 0)
  }

  predicate StepsLeft(maxSteps: int, all: seq<AgentLoopResult>, n: nat) {
    n <= |all| && StepsOf(all, n) < maxSteps
  }

  /** Sub-run `i` stays within the steps that are left. */
  predicate WithinLimit(maxSteps: int, all: seq<AgentLoopResult>, i: nat) {
    i < |all| && StepsOf(all, i) + all[i].totalSteps <= maxSteps
  }

  /** The number of sub-goals that are started, if `all` is what they would end with: up to the first one without
      success, or until the steps are used up. */
  function StartedCount(maxSteps: int, all: seq<AgentLoopResult>, i: nat): (n: nat)
    requires i <= |all|
    ensures i <= n <= |all|
    ensures forall j :: i <= j < n ==> StepsLeft(maxSteps, all, j)
    ensures forall j :: i <= j < n - 1 ==> all[j].success
    ensures n == |all| || !StepsLeft(maxSteps, all, n) || (i < n && !all[n - 1].success)
    decreases |all| - i
  {
    if i == |all| || !StepsLeft(maxSteps, all, i) then i
    else if !all[i].success then i + 1
    else StartedCount(maxSteps, all, i + 1)
  }

  /** The result of a routed run from what its sub-goals would end with. */
  function Route(maxSteps: int, all: seq<AgentLoopResult>): Routed {
    var n := StartedCount(maxSteps, all, 0);
    if n == 0 then AssertionFailed
    else if !all[n - 1].success then Routed(all[n - 1])
    else Routed(Joined(all[..n]))
  }

  function Joined(runs: seq<AgentLoopResult>): AgentLoopResult {
    var answer := Join(NonEmpty(Answers(runs)), "\n\n");
    AgentLoopResult(true, Some(answer), Some(MODEL_FINAL), StepsOf(runs, |runs|), None, None)
  }

  /** The sub-runs before position `n` may follow one another. */
  predicate Runnable(maxSteps: int, all: seq<AgentLoopResult>, n: nat)
    requires n <= |all|
  {
    && (forall j :: 0 <= j < n ==> StepsLeft(maxSteps, all, j))
    && (forall j :: 0 <= j < n - 1 ==> all[j].success)
  }

  /** Every sub-run that is started stays within the steps that are left. */
  predicate WithinLimits(maxSteps: int, all: seq<AgentLoopResult>, n: nat)
    requires n <= |all|
  {
    forall i :: 0 <= i < n ==> WithinLimit(maxSteps, all, i)
  }

  lemma {:induction false} StepsRise(all: seq<AgentLoopResult>, i: nat, k: nat)
    requires i < k <= |all| && forall j :: i <= j < k ==> all[j].totalSteps > 0
    ensures StepsOf(all, i) < StepsOf(all, k)
    decreases k
  {
    if i < k - 1 {
      StepsRise(all, i, k - 1);
    }
  }

  /** Sub-runs that have been started up to a reason to stop are what the fold starts, whatever the others would
      end with. */
  lemma {:induction false} StartedFrom(maxSteps: int, runs: seq<AgentLoopResult>, all: seq<AgentLoopResult>, i: nat)
    requires i <= |runs| && runs <= all && Runnable(maxSteps, runs, |runs|)
    requires runs == all || !StepsLeft(maxSteps, runs, |runs|) || (runs != [] && !runs[|runs| - 1].success)
    requires i == |runs| && i > 0 ==> runs[i - 1].success
    ensures StartedCount(maxSteps, all, i) == |runs|
    decreases |runs| - i
  {
    StepsOfPrefix(runs, all, i);
    assert i < |runs| ==> StepsLeft(maxSteps, runs, i);
    if i < |runs| && runs[i].success {
      StartedFrom(maxSteps, runs, all, i + 1);
    }
  }

  ghost predicate RoutedAs(maxSteps: int, count: nat, runs: seq<AgentLoopResult>, r: Routed) {
    forall all :: |all| == count && runs <= all ==>
                    Route(maxSteps, all) == r && StartedCount(maxSteps, all, 0) == |runs|
  }

  lemma RouteOf(maxSteps: int, count: nat, runs: seq<AgentLoopResult>, r: Routed)
    requires |runs| <= count && Runnable(maxSteps, runs, |runs|)
    requires |runs| == count || !StepsLeft(maxSteps, runs, |runs|) || (runs != [] && !runs[|runs| - 1].success)
    requires r == if runs == [] then AssertionFailed
                  else if !runs[|runs| - 1].success then Routed(runs[|runs| - 1])
                  else Routed(Joined(runs))
    ensures RoutedAs(maxSteps, count, runs, r)
  {
    forall all | |all| == count && runs <= all
      ensures Route(maxSteps, all) == r && StartedCount(maxSteps, all, 0) == |runs|
    {
      assert |runs| == count ==> runs == all;
      StartedFrom(maxSteps, runs, all, 0);
      assert all[..|runs|] == runs;
    }
  }

  /** One more sub-run. */
  lemma RunnableNext(maxSteps: int, runs: seq<AgentLoopResult>, r: AgentLoopResult)
    requires Runnable(maxSteps, runs, |runs|) && WithinLimits(maxSteps, runs, |runs|)
    requires StepsOf(runs, |runs|) + r.totalSteps <= maxSteps && StepsOf(runs, |runs|) < maxSteps
    requires runs != [] ==> runs[|runs| - 1].success
    ensures Runnable(maxSteps, runs + [r], |runs| + 1) && WithinLimits(maxSteps, runs + [r], |runs| + 1)
    ensures StepsOf(runs + [r], |runs| + 1) == StepsOf(runs, |runs|) + r.totalSteps
  {
    var more := runs + [r];
    StepsOfPrefix(runs, more, |runs|);
    forall j | 0 <= j < |runs| ensures StepsLeft(maxSteps, more, j) && WithinLimit(maxSteps, more, j) {
      assert StepsLeft(maxSteps, runs, j) && WithinLimit(maxSteps, runs, j);
      StepsOfPrefix(runs, more, j);
    }
  }

  /** The sub-runs so far, all of them successful. */
  ghost predicate Going(maxSteps: int, runs: seq<AgentLoopResult>) {
    && Runnable(maxSteps, runs, |runs|) && WithinLimits(maxSteps, runs, |runs|)
    && (forall i :: 0 <= i < |runs| ==> runs[i].success && PossibleResult(runs[i]))
  }

  /** The sub-runs of a routed run, and what it makes of them. */
  ghost predicate GoodRouting(maxSteps: int, count: nat, runs: seq<AgentLoopResult>, r: Routed) {
    && |runs| <= count && WithinLimits(maxSteps, runs, |runs|)
    && (forall i :: 0 <= i < |runs| ==> PossibleResult(runs[i]))
    && if r.RoutingCancelled?
       then StepsOf(runs, |runs|) < maxSteps && |runs| < count && forall i :: 0 <= i < |runs| ==> runs[i].success
       else RoutedAs(maxSteps, count, runs, r)
  }

  /** A run with this step limit, started with these messages, has ended for a reason that the outside has given
      it: a success is the planner's reply to a transcript that starts with them. */
  ghost predicate RunGiven(h: AgentLoopHarness, limit: int, trace: string, first: seq<Message>, r: AgentLoopResult,
                           a: Moment, b: Moment)
  {
    r.stopReason.Some? && r.stopReason != Some(ERROR) ==>
      exists errors: nat ::
        StopGiven(r.stopReason.value, Limits(limit, h.observer.abortOnToolError, h.observer.maxConsecutiveErrors),
                  trace,
                  first, r.finalAnswer, r.totalSteps, errors, a, b)
  }

  lemma RunGivenLonger(h: AgentLoopHarness, limit: int, trace: string, first: seq<Message>, r: AgentLoopResult,
                       a: Moment, b: Moment, a': Moment, b': Moment)
    requires RunGiven(h, limit, trace, first, r, a, b) && |a'.told| <= |a.told| && b.told <= b'.told
    ensures RunGiven(h, limit, trace, first, r, a', b')
  {
    hide StopGiven;
    if r.stopReason.Some? && r.stopReason != Some(ERROR) {
      var limits := Limits(limit, h.observer.abortOnToolError, h.observer.maxConsecutiveErrors);
      var errors: nat :|
        StopGiven(r.stopReason.value, limits, trace, first, r.finalAnswer, r.totalSteps, errors, a, b);
      StopGivenLonger(r.stopReason.value, limits, trace, first, r.finalAnswer, r.totalSteps, errors, a, b, first, a',
                      b');
    }
  }

  /** Sub-run `i` was a run for its sub-goal, shown the answers of those before it, within the steps that were left. */
  ghost predicate SubRunAt(h: AgentLoopHarness, trace: string, first: seq<Feedback>, subGoals: seq<string>,
                           runs: seq<AgentLoopResult>, i: nat, a: Moment, b: Moment)
  {
    && i < |runs| && i < |subGoals|
    && RunGiven(h, h.maxSteps - StepsOf(runs, i), trace,
                SubGoalMessages(first, Answers(runs[..i]), i + 1, |subGoals|, subGoals[i]), runs[i], a, b)
  }

  ghost predicate SubRuns(h: AgentLoopHarness, trace: string, first: seq<Feedback>, subGoals: seq<string>,
                          runs: seq<AgentLoopResult>, a: Moment, b: Moment)
  {
    forall i: nat :: i < |runs| ==> SubRunAt(h, trace, first, subGoals, runs, i, a, b)
  }

  lemma NoSubRuns(h: AgentLoopHarness, trace: string, first: seq<Feedback>, subGoals: seq<string>, a: Moment)
    ensures SubRuns(h, trace, first, subGoals, [], a, a)
  {
  }

  lemma SubRunsLater(h: AgentLoopHarness, trace: string, first: seq<Feedback>, subGoals: seq<string>,
                     runs: seq<AgentLoopResult>, a: Moment, b: Moment, c: Moment)
    requires SubRuns(h, trace, first, subGoals, runs, a, b) && b.told <= c.told
    ensures SubRuns(h, trace, first, subGoals, runs, a, c)
  {
    hide RunGiven, SubGoalMessages;
    forall i: nat | i < |runs| ensures SubRunAt(h, trace, first, subGoals, runs, i, a, c) {
      assert SubRunAt(h, trace, first, subGoals, runs, i, a, b);
      RunGivenLonger(h, h.maxSteps - StepsOf(runs, i), trace,
                     SubGoalMessages(first, Answers(runs[..i]), i + 1, |subGoals|, subGoals[i]), runs[i], a, b, a, c);
    }
  }

  /** One more sub-run, later. */
  lemma NextSubRun(h: AgentLoopHarness, trace: string, first: seq<Feedback>, subGoals: seq<string>,
                   runs: seq<AgentLoopResult>, r: AgentLoopResult, a: Moment, b: Moment, c: Moment)
    requires |runs| < |subGoals| && a.told <= b.told <= c.told && SubRuns(h, trace, first, subGoals, runs, a, b)
    requires RunGiven(h, h.maxSteps - StepsOf(runs, |runs|), trace,
                      SubGoalMessages(first, Answers(runs), |runs| + 1, |subGoals|, subGoals[|runs|]), r, b, c)
    ensures SubRuns(h, trace, first, subGoals, runs + [r], a, c)
  {
    hide RunGiven, SubGoalMessages, Answers, SubRunAt;
    forall i: nat | i < |runs + [r]| ensures SubRunAt(h, trace, first, subGoals, runs + [r], i, a, c) {
      if i < |runs| {
        SubRunBefore(h, trace, first, subGoals, runs, r, i, a, b, c);
      } else {
        SubRunNow(h, trace, first, subGoals, runs, r, a, b, c);
      }
    }
  }

  lemma SubRunBefore(h: AgentLoopHarness, trace: string, first: seq<Feedback>, subGoals: seq<string>,
                     runs: seq<AgentLoopResult>, r: AgentLoopResult, i: nat, a: Moment, b: Moment, c: Moment)
    requires b.told <= c.told && SubRunAt(h, trace, first, subGoals, runs, i, a, b)
    ensures SubRunAt(h, trace, first, subGoals, runs + [r], i, a, c)
  {
    hide RunGiven, SubGoalMessages, Answers;
    StepsOfPrefix(runs, runs + [r], i);
    assert (runs + [r])[..i] == runs[..i];
    RunGivenLonger(h, h.maxSteps - StepsOf(runs, i), trace,
                   SubGoalMessages(first, Answers(runs[..i]), i + 1, |subGoals|, subGoals[i]), runs[i], a, b, a, c);
  }

  lemma SubRunNow(h: AgentLoopHarness, trace: string, first: seq<Feedback>, subGoals: seq<string>,
                  runs: seq<AgentLoopResult>, r: AgentLoopResult, a: Moment, b: Moment, c: Moment)
    requires |runs| < |subGoals| && a.told <= b.told <= c.told
    requires RunGiven(h, h.maxSteps - StepsOf(runs, |runs|), trace,
                      SubGoalMessages(first, Answers(runs), |runs| + 1, |subGoals|, subGoals[|runs|]), r, b, c)
    ensures SubRunAt(h, trace, first, subGoals, runs + [r], |runs|, a, c)
  {
    hide RunGiven, SubGoalMessages, Answers;
    StepsOfPrefix(runs, runs + [r], |runs|);
    assert (runs + [r])[..|runs|] == runs;
    RunGivenLonger(h, h.maxSteps - StepsOf(runs, |runs|), trace,
                   SubGoalMessages(first, Answers(runs), |runs| + 1, |subGoals|, subGoals[|runs|]), r, b, c, a, c);
  }

  /** A goal that does not split is run as it is. Otherwise the result is the fold over the sub-runs, of which
      each has its own step limit. Nothing is approved on the way, and no call that needs approval starts. */
  method RunWithRouting(h: AgentLoopHarness, me: int, trace: string, goal: string, first: seq<Feedback>,
                        subGoals: seq<string>)
    returns (r: Routed, runs: seq<AgentLoopResult>)
    requires h.Guarded(me)
    modifies h.act.world
    ensures h.Guarded(me) && old(h.act.world.history) <= h.act.world.history
            && old(h.act.world.told) <= h.act.world.told
    ensures h.Since(me, trace, [], None, old(h.act.world.s))
    ensures |subGoals| > 1 ==>
              && GoodRouting(h.maxSteps, |subGoals|, runs, r)
              && SubRuns(h, trace, first, subGoals, runs, old(h.act.world.Now()), h.act.world.Now())
    ensures |subGoals| <= 1 && r.Routed? ==>
              RunGiven(h, h.maxSteps, trace, first, r.result, old(h.act.world.Now()), h.act.world.Now())
    ensures |subGoals| <= 1 && r.Routed? ==>
              && runs == [r.result] && PossibleResult(r.result)
              && (r.result.totalSteps == 0 || r.result.totalSteps <= h.maxSteps)
    ensures |subGoals| <= 1 ==> !r.AssertionFailed?
  {
    if |subGoals| > 1 {
      r, runs := RunSubGoals(h, me, trace, first, subGoals);
      return;
    }
    var whole := RunSubGoal(h, me, trace, first, goal, h.maxSteps);
    if whole.TaskCancelled? {
      return RoutingCancelled, [];
    }
    return Routed(whole.result), [whole.result];
  }

  method RunSubGoals(h: AgentLoopHarness, me: int, trace: string, first: seq<Feedback>, subGoals: seq<string>)
    returns (r: Routed, runs: seq<AgentLoopResult>)
    requires h.Guarded(me) && |subGoals| > 1
    modifies h.act.world
    ensures h.Guarded(me) && old(h.act.world.history) <= h.act.world.history
            && old(h.act.world.told) <= h.act.world.told
    ensures h.Since(me, trace, [], None, old(h.act.world.s))
    ensures GoodRouting(h.maxSteps, |subGoals|, runs, r)
    ensures SubRuns(h, trace, first, subGoals, runs, old(h.act.world.Now()), h.act.world.Now())
  {
    hide SideEffects.Run, Discipline.Lawful, ExecutionLedger.Grows, Discipline.OwnEntries, Join, Decimal,
      NonEmpty, RoutedAs, RunGiven, SubGoalMessages, SubRuns;
    ghost var start := h.act.world.Now();
    NoSubRuns(h, trace, first, subGoals, start);
    runs := [];
    var answers: seq<string> := [];
    var remaining := h.maxSteps;
    var total, index := 0, 0;
    UndisturbedMoved(h.act.world.law, me, trace, [], None, old(h.act.world.s), h.act.world.s);
    while index < |subGoals| && remaining > 0
      invariant index <= |subGoals| && index == |runs|
      invariant h.Guarded(me) && old(h.act.world.history) <= h.act.world.history
                && old(h.act.world.told) <= h.act.world.told
      invariant h.Since(me, trace, [], None, old(h.act.world.s))
      invariant total == StepsOf(runs, |runs|) && remaining == h.maxSteps - total
      invariant answers == Answers(runs) && Going(h.maxSteps, runs)
      invariant SubRuns(h, trace, first, subGoals, runs, start, h.act.world.Now())
    {
      ghost var before, then_ := h.act.world.s, h.act.world.Now();
      var one := RunSubGoal(h, me, trace, SubGoalMessages(first, answers, index + 1, |subGoals|, subGoals[index]),
                            subGoals[index], if remaining < h.maxSteps then remaining else h.maxSteps);
      MovedOn(h.act.world.law, me, trace, [], None, [], None, [], None, old(h.act.world.s), before, h.act.world.s);
      if one.TaskCancelled? {
        SubRunsLater(h, trace, first, subGoals, runs, start, then_, h.act.world.Now());
        return RoutingCancelled, runs;
      }
      NextSubRun(h, trace, first, subGoals, runs, one.result, start, then_, h.act.world.Now());
      AnswersNext(runs, one.result);
      OneMoreRun(h.maxSteps, |subGoals|, runs, one.result);
      runs := runs + [one.result];
      answers := answers + [one.result.finalAnswer.GetOr("")];
      remaining := remaining - one.result.totalSteps;
      total := total + one.result.totalSteps;
      index := index + 1;
      if !one.result.success {
        return Routed(one.result), runs;
      }
    }
    var answer := Join(NonEmpty(answers), "\n\n");
    r := if runs == [] then AssertionFailed
    else Routed(AgentLoopResult(true, Some(answer), Some(MODEL_FINAL), total, None, None));
    RouteOf(h.maxSteps, |subGoals|, runs, r);
  }

  lemma AnswersNext(runs: seq<AgentLoopResult>, r: AgentLoopResult)
    ensures Answers(runs + [r]) == Answers(runs) + [r.finalAnswer.GetOr("")]
  {
  }

  /** A sub-run either keeps the routed run going or is its result. */
  lemma OneMoreRun(maxSteps: int, count: nat, runs: seq<AgentLoopResult>, r: AgentLoopResult)
    requires |runs| < count && Going(maxSteps, runs) && PossibleResult(r)
    requires StepsOf(runs, |runs|) + r.totalSteps <= maxSteps && StepsOf(runs, |runs|) < maxSteps
    ensures StepsOf(runs + [r], |runs| + 1) == StepsOf(runs, |runs|) + r.totalSteps
    ensures if r.success then Going(maxSteps, runs + [r]) else GoodRouting(maxSteps, count, runs + [r], Routed(r))
  {
    RunnableNext(maxSteps, runs, r);
    if !r.success {
      RouteOf(maxSteps, count, runs + [r], Routed(r));
    }
  }

  /** A sub-run has its own harness and state but keeps policy, strategy and world of the parent. */
  method RunSubGoal(h: AgentLoopHarness, me: int, trace: string, messages: seq<Feedback>, goal: string, maxSteps: int)
    returns (r: RunResult)
    requires h.Guarded(me)
    modifies h.act.world
    ensures h.Guarded(me) && old(h.act.world.history) <= h.act.world.history
            && old(h.act.world.told) <= h.act.world.told
    ensures h.Since(me, trace, [], None, old(h.act.world.s))
    ensures r.RunEnded? ==> PossibleResult(r.result) && (r.result.totalSteps == 0 || r.result.totalSteps <= maxSteps)
    ensures r.RunEnded? ==>
              RunGiven(h, maxSteps, trace, messages, r.result, old(h.act.world.Now()), h.act.world.Now())
    ensures r.RunEnded? && h.plannerReplies ==> r.result.stopReason.Some?
  {
    hide SideEffects.Run, Discipline.Lawful, ExecutionLedger.Grows, Discipline.OwnEntries,
      Discipline.AtMostOnce, Discipline.GateHolds;
    var sub := new AgentLoopHarness(h.act, h.observer, h.policy, maxSteps, h.strategy, h.lexicon, h.plannerReplies);
    var st := new AgentLoopState(goal, messages, trace);
    FaithfulFeedback(h.act.ViewOf(trace), messages);
    ghost var a := h.act.world.Now();
    r := sub.Run(me, st, false, None, None);
    if r.RunEnded? && r.result.stopReason.Some? && r.result.stopReason != Some(ERROR) {
      assert sub.StopHeard(st, messages, a);
      assert StopGiven(r.result.stopReason.value, sub.Bounds(), trace, messages, r.result.finalAnswer,
                       r.result.totalSteps,
                       st.consecutiveToolErrors, a, h.act.world.Now());
    }
  }

  // ---- Success without all sub-goals ----

  /** The first `k` sub-runs succeed and use up exactly all steps, and there are more sub-goals. */
  predicate UsedUpBy(maxSteps: int, all: seq<AgentLoopResult>, k: nat) {
    0 < k < |all| && (forall j :: 0 <= j < k ==> all[j].success) && StepsOf(all, k) == maxSteps
  }

  /** A routed run reports success although sub-goals were never started if and only if the first few sub-runs
      succeed and use up exactly all steps. */
  lemma SuccessHidesSubGoalsIff(maxSteps: int, all: seq<AgentLoopResult>)
    requires forall i :: 0 <= i < |all| ==> PossibleResult(all[i])
    requires WithinLimits(maxSteps, all, StartedCount(maxSteps, all, 0))
    ensures (var r := Route(maxSteps, all); r.Routed? && r.result.success && StartedCount(maxSteps, all, 0) < |all|)
       <==> exists k: nat :: UsedUpBy(maxSteps, all, k)
  {
    var n := StartedCount(maxSteps, all, 0);
    if 0 < n < |all| && all[n - 1].success {
      assert WithinLimit(maxSteps, all, n - 1);
      assert UsedUpBy(maxSteps, all, n);
    }
    forall k: nat | UsedUpBy(maxSteps, all, k) ensures n == k {
      assert k < n ==> StepsLeft(maxSteps, all, k);
      if n < k {
        StepsRise(all, n, k);
      }
    }
  }

  /** It happens for every step limit and every number of sub-goals, already with the first sub-goal. */
  lemma SuccessWithoutAllSubGoals(maxSteps: nat, count: nat) returns (all: seq<AgentLoopResult>)
    requires 0 < maxSteps && 1 < count
    ensures |all| == count && forall i :: 0 <= i < count ==> PossibleResult(all[i])
    ensures WithinLimits(maxSteps, all, StartedCount(maxSteps, all, 0))
    ensures var r := Route(maxSteps, all); r.Routed? && r.result.success && StartedCount(maxSteps, all, 0) == 1
  {
    var one := AgentLoopResult(true, Some("done"), Some(MODEL_FINAL), maxSteps, None, None);
    assert !Whitespace("done"[0]);
    all := seq(count, i => one);
    assert StepsOf(all, 1) == maxSteps;
  }
}
