/** The plan of a plan-and-execute run. A run without a plan falls back to ReAct steps. */
module Planning {
  import opened Options
  import opened AgentState

  datatype Strategy = ReAct | PlanExecute

  /** The steps read DONE*, then one that is pending or in progress, then PENDING*. */
  predicate PlanAt(plan: seq<PlanStep>, k: nat) {
    && k < |plan|
    && (forall i :: 0 <= i < k ==> plan[i].status == DONE)
    && (plan[k].status == IN_PROGRESS || plan[k].status == PENDING)
    && (forall i :: k < i < |plan| ==> plan[i].status == PENDING)
  }

  predicate AllDone(plan: seq<PlanStep>) {
    forall i :: 0 <= i < |plan| ==> plan[i].status == DONE
  }

  predicate Pausing(stop: Option<StopReason>) {
    stop == None || stop == Some(APPROVAL_REQUIRED) || stop == Some(EXECUTION_IN_DOUBT)
  }

  /** A plan that is still run or paused has its shape, and one that ended with an answer is done. */
  predicate PlanOk(strategy: Strategy, plan: seq<PlanStep>, stop: Option<StopReason>) {
    strategy.PlanExecute? && plan != [] ==>
      && (Pausing(stop) ==> exists k: nat :: k < |plan| && PlanAt(plan, k))
      && (stop == Some(MODEL_FINAL) ==> AllDone(plan))
  }

  lemma PlanResumed(strategy: Strategy, plan: seq<PlanStep>, stop: Option<StopReason>, stop': Option<StopReason>)
    requires PlanOk(strategy, plan, stop) && Pausing(stop) && stop' != Some(MODEL_FINAL)
    ensures PlanOk(strategy, plan, stop')
  {
  }

  /** The first step with this status, or the length. */
  function FirstWith(plan: seq<PlanStep>, status: PlanStatus): (k: nat)
    ensures k <= |plan|
    ensures k < |plan| ==> plan[k].status == status
    ensures forall i :: 0 <= i < k ==> plan[i].status != status
  {
    if plan == [] || plan[0].status == status then 0 else 1 + FirstWith(plan[1..], status)
  }

  /** The step a plan run works on next: the one in progress, else the first pending one. */
  function CurrentStep(plan: seq<PlanStep>): nat {
    var k := FirstWith(plan, IN_PROGRESS);
    if k < |plan| then k else FirstWith(plan, PENDING)
  }

  /** The goal of a run while it works on this step. */
  function StepGoal(step: PlanStep): string {
    "[Plan step " + step.id + "] " + step.goal
  }

  lemma SameGoal(step: PlanStep, status: PlanStatus)
    ensures StepGoal(step.(status := status)) == StepGoal(step)
  {
  }

  lemma CurrentOfShape(plan: seq<PlanStep>, k: nat)
    requires PlanAt(plan, k)
    ensures CurrentStep(plan) == k
    ensures PlanAt(plan[k := plan[k].(status := IN_PROGRESS)], k)
  {
    var p := FirstWith(plan, IN_PROGRESS);
    assert p < |plan| ==> p == k;
    assert plan[k].status == PENDING ==> p == |plan|;
  }

  method BuildPlanSteps(goals: seq<string>, ids: nat -> string) returns (plan: seq<PlanStep>)
    ensures |plan| == |goals|
    ensures forall i :: 0 <= i < |goals| ==> plan[i] == PlanStep(ids(i), goals[i], PENDING, None)
    ensures plan != [] ==> PlanAt(plan, 0)
  {
    plan := [];
    for i := 0 to |goals|
      invariant |plan| == i
      invariant forall j :: 0 <= j < i ==> plan[j] == PlanStep(ids(j), goals[j], PENDING, None)
    {
      plan := plan + [PlanStep(ids(i), goals[i], PENDING, None)];
    }
  }

  predicate Aborted(stop: Option<StopReason>) {
    stop == Some(LLM_ERROR_ABORT) || stop == Some(TOOL_ERROR_ABORT) || stop == Some(ERROR)
    || stop == Some(CONSTRAINT_VIOLATION)
  }

  predicate AnyPending(plan: seq<PlanStep>) {
    exists i :: 0 <= i < |plan| && plan[i].status == PENDING
  }

  /** Settling the current step after its ReAct step: an answer finishes it, and the run too if it was the
      last one; an abort fails it; a pause or a tool round leaves it in progress. */
  method SettleStep(st: AgentLoopState, k: nat, failure: string)
    requires PlanAt(st.plan, k) && st.plan[k].status == IN_PROGRESS
    modifies st`plan, st`stopReason, st`finalAnswer
    ensures |st.plan| == |old(st.plan)| && forall i :: 0 <= i < |st.plan| && i != k ==> st.plan[i] == old(st.plan)[i]
    ensures old(st.stopReason) == Some(MODEL_FINAL) ==>
              && st.plan[k] == old(st.plan)[k].(status := DONE, result := old(st.finalAnswer))
              && (if k + 1 < |st.plan| then PlanAt(st.plan, k + 1) && st.stopReason.None? && st.finalAnswer.None?
                  else AllDone(st.plan) && st.stopReason == Some(MODEL_FINAL) && st.finalAnswer == old(st.finalAnswer))
    ensures old(st.stopReason) != Some(MODEL_FINAL) ==>
              st.stopReason == old(st.stopReason) && st.finalAnswer == old(st.finalAnswer)
    ensures Aborted(old(st.stopReason)) ==> st.plan[k] == old(st.plan)[k].(status := FAILED, result := Some(failure))
    ensures old(st.stopReason) != Some(MODEL_FINAL) && !Aborted(old(st.stopReason)) ==> st.plan == old(st.plan)
    ensures PlanOk(PlanExecute, st.plan, st.stopReason)
  {
    if st.stopReason == Some(MODEL_FINAL) {
      st.plan := st.plan[k := st.plan[k].(status := DONE, result := st.finalAnswer)];
      assert k + 1 < |st.plan| ==> st.plan[k + 1].status == PENDING;
      assert k + 1 < |st.plan| ==> PlanAt(st.plan, k + 1);
      if AnyPending(st.plan) {
        st.stopReason, st.finalAnswer := None, None;
      }
    } else if Aborted(st.stopReason) {
      st.plan := st.plan[k := st.plan[k].(status := FAILED, result := Some(failure))];
    }
  }
}
