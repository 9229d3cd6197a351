/**
 Scheduling sub-tasks by their dependencies, layer by layer. A task that fails still counts as completed;
 its dependents are skipped. Tasks of a layer run concurrently; their outcomes do not depend on each other,
 so that a layer is modelled as a loop. What the agents do is an outcome per task.
 */
module DagExecution {
  import opened Options
  import opened DagCycles

  datatype SubTaskStatus = Pending | Running | Done | FailedTask | Skipped

  datatype SubTask = SubTask(id: Id, goal: string, deps: seq<Id>, status: SubTaskStatus)

  /** What running an agent on a task comes to. */
  datatype Outcome = Succeeds(answer: string) | Unsuccessful(answer: string) | Crashes(error: string)

  datatype AssignmentStatus = Planned | Completed | Failed

  datatype Assignment = Assignment(
    taskId: Id,
    agentId: string,
    task: string,
    status: AssignmentStatus,
    result: Option<string>,
    error: Option<string>)

  type Statuses = map<Id, SubTaskStatus>

  datatype DagResult =
    | Layered(assignments: seq<Assignment>, statuses: Statuses)
    | Sequential(assignments: seq<Assignment>)
    | NoAgents
    | NoFirstAgent
    | UnknownDependency

  function GraphOf(tasks: map<Id, SubTask>): Graph {
    map a | a in tasks :: tasks[a].deps
  }

  /** A finished assignment of the layered execution. */
  function Run(taskId: Id, agentId: string, goal: string, o: Outcome): Assignment {
    match o
    case Succeeds(answer) => Assignment(taskId, agentId, goal, Completed, Some(answer), None)
    case Unsuccessful(answer) => Assignment(taskId, agentId, goal, Failed, Some(answer), None)
    case Crashes(error) => Assignment(taskId, agentId, goal, Failed, None, Some(error))
  }

  /** An assignment run in sequence counts as completed unless the agent crashes. */
  function RunInSequence(a: Assignment, o: Outcome): Assignment {
    match o
    case Crashes(error) => a.(status := Failed, error := Some(error))
    case Succeeds(answer) => a.(status := Completed, result := Some(answer))
    case Unsuccessful(answer) => a.(status := Completed, result := Some(answer))
  }

  /** What a record of the layered execution has to say about its outcome. */
  predicate Reports(a: Assignment, o: Outcome) {
    match o
    case Succeeds(answer) => a.status == Completed && a.result == Some(answer) && a.error.None?
    case Unsuccessful(answer) => a.status == Failed && a.result == Some(answer) && a.error.None?
    case Crashes(error) => a.status == Failed && a.result.None? && a.error == Some(error)
  }

  /** The same in sequence, where only a crash is a failure. */
  predicate ReportsInSequence(a: Assignment, o: Outcome) {
    match o
    case Succeeds(answer) => a.status == Completed && a.result == Some(answer) && a.error.None?
    case Unsuccessful(answer) => a.status == Completed && a.result == Some(answer) && a.error.None?
    case Crashes(error) => a.status == Failed && a.result.None? && a.error == Some(error)
  }

  // ---- What has to happen ----

  predicate Succeeded(outcome: Id -> Outcome, a: Id) {
    outcome(a).Succeeds?
  }

  /** The tasks to run: those that were pending and whose dependencies all run and succeed. */
  ghost predicate RunSet(tasks: map<Id, SubTask>, outcome: Id -> Outcome, ran: set<Id>) {
    forall a :: a in ran <==>
                && a in tasks && tasks[a].status == Pending
                && forall d :: d in tasks[a].deps ==> d in ran && Succeeded(outcome, d)
  }

  /** Something that keeps its dependents from running. */
  ghost predicate Blocks(tasks: map<Id, SubTask>, outcome: Id -> Outcome, ran: set<Id>, a: Id) {
    a in tasks && (tasks[a].status != Pending || (a in ran && !Succeeded(outcome, a)))
  }

  /** A path from a task to a transitive dependency that blocks it. */
  ghost predicate BlockedBy(tasks: map<Id, SubTask>, outcome: Id -> Outcome, ran: set<Id>, a: Id, p: seq<Id>) {
    Path(GraphOf(tasks), p) && |p| > 1 && p[0] == a && Blocks(tasks, outcome, ran, p[|p| - 1])
  }

  lemma {:induction false} SameRun(tasks: map<Id, SubTask>, outcome: Id -> Outcome, order: seq<Id>, r: set<Id>,
                                   r': set<Id>, k: nat)
    requires RunSet(tasks, outcome, r) && RunSet(tasks, outcome, r')
    requires Sorted(GraphOf(tasks), order) && k < |order|
    ensures order[k] in r <==> order[k] in r'
    decreases k
  {
    hide RunSet, Sorted;
    var a := order[k];
    RunsIff(tasks, outcome, r, a);
    RunsIff(tasks, outcome, r', a);
    if a in tasks {
      forall d | d in tasks[a].deps ensures d in r <==> d in r' {
        var j := DependencyBefore(GraphOf(tasks), order, k, d);
        SameRun(tasks, outcome, order, r, r', j);
      }
    }
  }

  lemma RunsIff(tasks: map<Id, SubTask>, outcome: Id -> Outcome, ran: set<Id>, a: Id)
    requires RunSet(tasks, outcome, ran)
    ensures a in ran <==>
            && a in tasks && tasks[a].status == Pending
            && forall d :: d in tasks[a].deps ==> d in ran && Succeeded(outcome, d)
  {
  }

  /** On an acyclic graph the tasks to run are determined. */
  lemma RunSetUnique(tasks: map<Id, SubTask>, outcome: Id -> Outcome, order: seq<Id>, r: set<Id>, r': set<Id>)
    requires RunSet(tasks, outcome, r) && RunSet(tasks, outcome, r')
    requires Sorted(GraphOf(tasks), order) && forall a :: a in tasks ==> a in order
    ensures r == r'
  {
    forall a | a in tasks ensures a in r <==> a in r' {
      var k :| 0 <= k < |order| && order[k] == a;
      SameRun(tasks, outcome, order, r, r', k);
    }
    assert r <= tasks.Keys && r' <= tasks.Keys;
  }

  lemma {:induction false} BlockedDoesNotRun(tasks: map<Id, SubTask>, outcome: Id -> Outcome, ran: set<Id>, a: Id,
                                             p: seq<Id>)
    requires RunSet(tasks, outcome, ran) && BlockedBy(tasks, outcome, ran, a, p)
    ensures a !in ran
    decreases |p|
  {
    PathTail(GraphOf(tasks), p);
    if |p| > 2 {
      BlockedDoesNotRun(tasks, outcome, ran, p[1], p[1..]);
    }
  }

  /** A pending task that does not run has a dependency that blocks it or does not run either. */
  lemma MissingDependency(tasks: map<Id, SubTask>, outcome: Id -> Outcome, ran: set<Id>, a: Id) returns (d: Id)
    requires RunSet(tasks, outcome, ran) && a in tasks && tasks[a].status == Pending && a !in ran
    ensures d in tasks[a].deps && !(d in ran && Succeeded(outcome, d))
  {
    d :| d in tasks[a].deps && !(d in ran && Succeeded(outcome, d));
  }

  lemma {:induction false} NotRunIsBlocked(tasks: map<Id, SubTask>, outcome: Id -> Outcome, ran: set<Id>,
                                           order: seq<Id>, k: nat)
    returns (p: seq<Id>)
    requires RunSet(tasks, outcome, ran) && Sorted(GraphOf(tasks), order)
    requires k < |order| && order[k] !in ran && tasks[order[k]].status == Pending
    ensures BlockedBy(tasks, outcome, ran, order[k], p)
    decreases k
  {
    var a, g := order[k], GraphOf(tasks);
    var d := MissingDependency(tasks, outcome, ran, a);
    var j := DependencyBefore(g, order, k, d);
    if Blocks(tasks, outcome, ran, d) {
      p := [d];
    } else {
      p := NotRunIsBlocked(tasks, outcome, ran, order, j);
    }
    PathCons(g, a, p);
    p := [a] + p;
  }

  // ---- The layered execution ----

  /** The status of a task when some have started and some of these have completed. */
  ghost function StatusNow(t: SubTask, outcome: Id -> Outcome, started: set<Id>, completed: set<Id>): SubTaskStatus {
    if t.status != Pending then t.status
    else if t.id in started then Running
    else if exists d :: d in t.deps && d in completed && !Succeeded(outcome, d) then Skipped
    else Pending
  }

  ghost predicate Tracks(tasks: map<Id, SubTask>, outcome: Id -> Outcome, started: set<Id>, completed: set<Id>,
                         statuses: Statuses) {
    && statuses.Keys == tasks.Keys
    && forall a :: a in tasks ==> statuses[a] == StatusNow(tasks[a], outcome, started, completed)
  }

  function IdSet(ids: seq<Id>): (r: set<Id>)
    ensures forall a :: a in r <==> a in ids
  {
    set a | a in ids
  }

  lemma IdSetNext(ids: seq<Id>, j: nat)
    requires j < |ids|
    ensures IdSet(ids[..j + 1]) == IdSet(ids[..j]) + {ids[j]} && (Distinct(ids) ==> ids[j] !in ids[..j])
  {
    assert ids[..j + 1] == ids[..j] + [ids[j]];
  }

  lemma TrackStart(tasks: map<Id, SubTask>, outcome: Id -> Outcome, started: set<Id>, completed: set<Id>,
                   statuses: Statuses, a: Id)
    requires Tracks(tasks, outcome, started, completed, statuses) && Keyed(tasks) && a in tasks
             && tasks[a].status == Pending
    ensures Tracks(tasks, outcome, started + {a}, completed, statuses[a := Running])
  {
    var r := statuses[a := Running];
    forall b | b in tasks ensures r[b] == StatusNow(tasks[b], outcome, started + {a}, completed) {
      assert statuses[b] == StatusNow(tasks[b], outcome, started, completed);
    }
  }

  /** A completed task, after the pending dependents of a failed one are marked. */
  lemma TrackEnd(tasks: map<Id, SubTask>, outcome: Id -> Outcome, started: set<Id>, completed: set<Id>,
                 statuses: Statuses, a: Id, r: Statuses)
    requires Tracks(tasks, outcome, started, completed, statuses) && r.Keys == tasks.Keys
    requires forall b :: b in tasks ==>
                           r[b] == if !Succeeded(outcome, a) && a in tasks[b].deps
                                      && statuses[b] == Pending then Skipped else statuses[b]
    ensures Tracks(tasks, outcome, started, completed + {a}, r)
  {
    forall b | b in tasks ensures r[b] == StatusNow(tasks[b], outcome, started, completed + {a}) {
      assert statuses[b] == StatusNow(tasks[b], outcome, started, completed);
    }
  }

  /** Tasks are filed under their id. */
  predicate Keyed(tasks: map<Id, SubTask>) {
    forall a :: a in tasks ==> tasks[a].id == a
  }

  /** A completed task was pending, and all its dependencies had completed and succeeded. */
  ghost predicate Justified(tasks: map<Id, SubTask>, outcome: Id -> Outcome, completed: set<Id>) {
    forall a :: a in completed ==>
                  && a in tasks && tasks[a].status == Pending
                  && forall d :: d in tasks[a].deps ==> d in completed && Succeeded(outcome, d)
  }

  predicate IsReady(tasks: map<Id, SubTask>, statuses: Statuses, completed: set<Id>, a: Id) {
    a in tasks && a in statuses && statuses[a] == Pending && forall d :: d in tasks[a].deps ==> d in completed
  }

  function Ready(tasks: map<Id, SubTask>, ids: seq<Id>, statuses: Statuses, completed: set<Id>): (r: seq<Id>)
    ensures forall a :: a in r <==> a in ids && IsReady(tasks, statuses, completed, a)
    ensures Distinct(ids) ==> Distinct(r)
  {
    if ids == [] then []
    else
      var rest := Ready(tasks, ids[1..], statuses, completed);
      assert Distinct(ids) ==> Distinct(ids[1..]) && ids[0] !in ids[1..];
      if IsReady(tasks, statuses, completed, ids[0]) then [ids[0]] + rest else rest
  }

  predicate Distinct(ids: seq<Id>) {
    forall i, j :: 0 <= i < j < |ids| ==> ids[i] != ids[j]
  }

  /** The task completed successfully before position `i`. */
  predicate SucceededBefore(done: seq<Assignment>, i: nat, a: Id) {
    exists j :: 0 <= j < i && j < |done| && done[j].taskId == a && done[j].status == Completed
  }

  /** The record of the run so far: each task at most once, run by an agent of the coordinator, after all its
      dependencies have completed successfully. */
  ghost predicate GoodRecord(tasks: map<Id, SubTask>, agents: seq<string>, outcome: Id -> Outcome, completed: set<Id>,
                             done: seq<Assignment>) {
    && (forall i, j :: 0 <= i < j < |done| ==> done[i].taskId != done[j].taskId)
    && (forall a :: a in completed <==> exists i :: 0 <= i < |done| && done[i].taskId == a)
    && (forall i :: 0 <= i < |done| ==>
                      && done[i].taskId in tasks && done[i].agentId in agents
                      && done[i] == Run(done[i].taskId, done[i].agentId, tasks[done[i].taskId].goal,
                                        outcome(done[i].taskId))
                      && forall d :: d in tasks[done[i].taskId].deps ==> SucceededBefore(done, i, d))
  }

  /** One more task is run. */
  lemma RecordMore(tasks: map<Id, SubTask>, agents: seq<string>, outcome: Id -> Outcome, completed: set<Id>,
                   done: seq<Assignment>, a: Id, agent: string)
    requires GoodRecord(tasks, agents, outcome, completed, done) && a in tasks && a !in completed && agent in agents
    requires forall d :: d in tasks[a].deps ==> d in completed && Succeeded(outcome, d)
    ensures GoodRecord(tasks, agents, outcome, completed + {a}, done + [Run(a, agent, tasks[a].goal, outcome(a))])
  {
    var done' := done + [Run(a, agent, tasks[a].goal, outcome(a))];
    assert done'[|done|].taskId == a;
    assert forall i :: 0 <= i < |done| ==> done'[i] == done[i];
    forall d | d in tasks[a].deps ensures SucceededBefore(done', |done|, d) {
      var i :| 0 <= i < |done| && done[i].taskId == d;
      assert done'[i].status == Completed;
    }
    forall i, d | 0 <= i < |done| && d in tasks[done[i].taskId].deps ensures SucceededBefore(done', i, d) {
      assert SucceededBefore(done, i, d);
      var j :| 0 <= j < i && done[j].taskId == d && done[j].status == Completed;
      assert done'[j] == done[j];
    }
  }

  lemma SmallerSet(a: set<Id>, b: set<Id>)
    requires a <= b
    ensures |a| <= |b| && (|a| == |b| ==> a == b)
  {
    assert b == a + (b - a);
  }

  class MultiAgentCoordinator {
    const agents: seq<string>
    var assignments: map<Id, Assignment>

    constructor (agents: seq<string>)
      ensures this.agents == agents && assignments == map[]
    {
      this.agents, assignments := agents, map[];
    }

    /** The task list as a dictionary: a later task replaces an earlier one with its id. */
    method Collect(list: seq<SubTask>) returns (tasks: map<Id, SubTask>, ids: seq<Id>)
      ensures Keyed(tasks) && Distinct(ids) && forall a :: a in ids <==> a in tasks
      ensures forall i :: 0 <= i < |list| ==> list[i].id in tasks
      ensures forall a :: a in tasks ==> LastOf(list, a, tasks[a])
      ensures FirstOrder(list, ids)
    {
      hide LastOf, FirstOrder;
      NothingOrdered(list);
      tasks, ids := map[], [];
      for n := 0 to |list|
        invariant Keyed(tasks) && Distinct(ids) && forall a :: a in ids <==> a in tasks
        invariant forall i :: 0 <= i < n ==> list[i].id in tasks
        invariant forall a :: a in tasks ==> LastOf(list[..n], a, tasks[a])
        invariant FirstOrder(list[..n], ids)
      {
        FirstOrderNext(list, n, ids);
        if list[n].id !in tasks {
          ids := ids + [list[n].id];
        }
        tasks := tasks[list[n].id := list[n]];
        forall a | a in tasks ensures LastOf(list[..n + 1], a, tasks[a]) {
          LastOfNext(list, n, a, tasks[a]);
        }
      }
      assert list[..|list|] == list;
    }

    /** Marks the pending dependents of a failed task. */
    method SkipDependents(tasks: map<Id, SubTask>, ids: seq<Id>, statuses: Statuses, failed: Id) returns (r: Statuses)
      requires statuses.Keys == tasks.Keys && forall a :: a in ids <==> a in tasks
      ensures r.Keys == tasks.Keys
      ensures forall a :: a in tasks ==>
                            r[a] == if failed in tasks[a].deps && statuses[a] == Pending then Skipped else statuses[a]
    {
      r := statuses;
      for i := 0 to |ids|
        invariant r.Keys == tasks.Keys
        invariant forall a :: a in tasks ==>
                                r[a] == if a in ids[..i] && failed in tasks[a].deps
                                           && statuses[a] == Pending then Skipped else statuses[a]
      {
        assert ids[..i + 1] == ids[..i] + [ids[i]];
        if failed in tasks[ids[i]].deps && r[ids[i]] == Pending {
          r := r[ids[i] := Skipped];
        }
      }
      assert ids[..|ids|] == ids;
    }

    method Assign(a: Assignment)
      modifies this
      ensures assignments == old(assignments)[a.taskId := a]
    {
      assignments := assignments[a.taskId := a];
    }

    /** Starts a layer: its tasks are running, each with an agent, round robin. */
    method StartLayer(tasks: map<Id, SubTask>, ready: seq<Id>, statuses: Statuses, ghost outcome: Id -> Outcome,
                      ghost completed: set<Id>)
      returns (r: Statuses, planned: seq<Assignment>)
      requires agents != [] && Keyed(tasks) && Tracks(tasks, outcome, completed, completed, statuses)
      requires forall a :: a in ready ==> a in tasks && tasks[a].status == Pending
      modifies this
      ensures Tracks(tasks, outcome, completed + IdSet(ready), completed, r)
      ensures PlannedFor(tasks, agents, ready, planned)
      ensures assignments.Keys == old(assignments.Keys) + IdSet(ready)
      ensures forall a :: a in old(assignments) && a !in ready ==> assignments[a] == old(assignments)[a]
    {
      hide Tracks, PlannedFor, Keyed;
      r, planned := statuses, [];
      LayerStarts(tasks, agents, outcome, ready, completed, r);
      for j := 0 to |ready|
        invariant PlannedFor(tasks, agents, ready[..j], planned)
        invariant Tracks(tasks, outcome, completed + IdSet(ready[..j]), completed, r)
        invariant assignments.Keys == old(assignments.Keys) + IdSet(ready[..j])
        invariant forall a :: a in old(assignments) && a !in ready ==> assignments[a] == old(assignments)[a]
      {
        IdSetNext(ready, j);
        PlannedNext(tasks, agents, ready, planned, j);
        StartedNext(tasks, outcome, ready, completed, r, j);
        r := r[ready[j] := Running];
        var one := Assignment(ready[j], AgentFor(agents, j), tasks[ready[j]].goal, Planned, None, None);
        planned := planned + [one];
        Assign(one);
      }
      assert ready[..|ready|] == ready;
    }

    /** The layer runs and is recorded; the pending dependents of what failed are skipped. */
    method FinishLayer(tasks: map<Id, SubTask>, ids: seq<Id>, planned: seq<Assignment>, outcome: Id -> Outcome,
                       statuses: Statuses, completed: set<Id>, done: seq<Assignment>, ghost ready: seq<Id>)
      returns (r: Statuses, completed': set<Id>, done': seq<Assignment>)
      requires Keyed(tasks) && forall a :: a in ids <==> a in tasks
      requires PlannedFor(tasks, agents, ready, planned) && Distinct(ready) && MayRun(tasks, outcome, completed, ready)
      requires Tracks(tasks, outcome, completed + IdSet(ready), completed, statuses)
      requires GoodRecord(tasks, agents, outcome, completed, done) && Filed(assignments, done)
      modifies this
      ensures completed' == completed + IdSet(ready)
      ensures Tracks(tasks, outcome, completed', completed', r)
      ensures GoodRecord(tasks, agents, outcome, completed', done') && done <= done' && Filed(assignments, done')
      ensures LayerRecord(tasks, agents, ready, done, done')
    {
      hide Tracks, GoodRecord, PlannedFor, MayRun, Filed, LayerRecord;
      r, completed', done' := statuses, completed, done;
      ghost var started := completed + IdSet(ready);
      NothingEnded(completed, ready);
      NoLayerRecord(tasks, agents, ready, planned, done);
      PlannedLength(tasks, agents, ready, planned);
      for j := 0 to |planned|
        invariant completed' == completed + IdSet(ready[..j])
        invariant Tracks(tasks, outcome, started, completed', r)
        invariant GoodRecord(tasks, agents, outcome, completed', done') && done <= done' && Filed(assignments, done')
        invariant |done'| == |done| + j && LayerRecord(tasks, agents, ready[..j], done, done')
      {
        IdSetNext(ready, j);
        PlanReady(tasks, agents, outcome, completed, ready, planned, j);
        ghost var before := done';
        r, done' := FinishOne(tasks, ids, planned[j], outcome, r, completed', done', started);
        LayerRecordNext(tasks, agents, ready, done, before, done', j);
        completed' := completed' + {planned[j].taskId};
      }
      assert ready[..|ready|] == ready;
    }

    /** One task of a layer has ended. */
    method FinishOne(tasks: map<Id, SubTask>, ids: seq<Id>, plan: Assignment, outcome: Id -> Outcome,
                     statuses: Statuses, completed: set<Id>, done: seq<Assignment>, ghost started: set<Id>)
      returns (r: Statuses, done': seq<Assignment>)
      requires Keyed(tasks) && forall a :: a in ids <==> a in tasks
      requires ReadyPlan(tasks, agents, outcome, completed, plan)
      requires Tracks(tasks, outcome, started, completed, statuses)
      requires GoodRecord(tasks, agents, outcome, completed, done) && Filed(assignments, done)
      modifies this
      ensures Tracks(tasks, outcome, started, completed + {plan.taskId}, r)
      ensures GoodRecord(tasks, agents, outcome, completed + {plan.taskId}, done') && Filed(assignments, done')
      ensures |done'| == |done| + 1 && done == done'[..|done|]
      ensures done'[|done|].taskId == plan.taskId && done'[|done|].agentId == plan.agentId
    {
      hide GoodRecord;
      var a := plan.taskId;
      var one := Run(a, plan.agentId, plan.task, outcome(a));
      RecordMore(tasks, agents, outcome, completed, done, a, plan.agentId);
      done' := done + [one];
      FiledNext(tasks, agents, outcome, completed, assignments, done, one);
      assignments := assignments[a := one];
      r := statuses;
      if one.status == Failed {
        r := SkipDependents(tasks, ids, r, a);
      }
      TrackEnd(tasks, outcome, started, completed, statuses, a, r);
    }

    /** One layer: more tasks have completed, each of them rightly. */
    method RunLayer(tasks: map<Id, SubTask>, ids: seq<Id>, ready: seq<Id>, outcome: Id -> Outcome, statuses: Statuses,
                    completed: set<Id>, done: seq<Assignment>)
      returns (r: Statuses, completed': set<Id>, done': seq<Assignment>)
      requires agents != [] && Keyed(tasks) && ready != [] && Distinct(ready) && forall a :: a in ids <==> a in tasks
      requires MayRun(tasks, outcome, completed, ready)
      requires Between(tasks, agents, outcome, completed, statuses, done) && Filed(assignments, done)
      modifies this
      ensures |completed| < |completed'| <= |tasks.Keys|
      ensures Between(tasks, agents, outcome, completed', r, done') && Filed(assignments, done')
    {
      hide Tracks, GoodRecord, Justified, MayRun, Filed, LayerRecord, PlannedFor;
      BetweenParts(tasks, agents, outcome, completed, statuses, done, ready);
      ghost var before := assignments;
      var started, planned := StartLayer(tasks, ready, statuses, outcome, completed);
      StillFiled(tasks, agents, outcome, completed, before, assignments, done, ready);
      r, completed', done' := FinishLayer(tasks, ids, planned, outcome, started, completed, done, ready);
      JustifiedMore(tasks, outcome, completed, ready);
    }

    /** Layer after layer until nothing is ready. It ends, and it has run exactly the tasks to run. */
    method RunLayers(tasks: map<Id, SubTask>, ids: seq<Id>, outcome: Id -> Outcome)
      returns (done: seq<Assignment>, statuses: Statuses)
      requires agents != [] && Keyed(tasks) && Distinct(ids) && forall a :: a in ids <==> a in tasks
      modifies this
      ensures GoodRecord(tasks, agents, outcome, RanIds(done), done) && RunSet(tasks, outcome, RanIds(done))
      ensures Final(tasks, RanIds(done), statuses) && Filed(assignments, done)
    {
      var completed: set<Id> := {};
      done, statuses := [], map a | a in tasks :: tasks[a].status;
      while |completed| < |tasks.Keys|
        invariant Between(tasks, agents, outcome, completed, statuses, done) && Filed(assignments, done)
        decreases |tasks.Keys| - |completed|
      {
        var ready := Ready(tasks, ids, statuses, completed);
        ReadyMayRun(tasks, outcome, completed, statuses, ready, ids);
        if ready == [] {
          ghost var before := statuses;
          statuses := SkipRest(tasks, ids, statuses);
          FinalAfterSkip(tasks, outcome, completed, before, statuses);
          RanIsCompleted(tasks, agents, outcome, completed, done);
          return;
        }
        statuses, completed, done := RunLayer(tasks, ids, ready, outcome, statuses, completed, done);
      }
      FinalWhenAllRan(tasks, outcome, completed, statuses);
      RanIsCompleted(tasks, agents, outcome, completed, done);
    }

    /** What is pending when nothing is ready will never run. */
    method SkipRest(tasks: map<Id, SubTask>, ids: seq<Id>, statuses: Statuses) returns (r: Statuses)
      requires statuses.Keys == tasks.Keys && forall a :: a in ids <==> a in tasks
      ensures r.Keys == tasks.Keys
      ensures forall a :: a in tasks ==> r[a] == if statuses[a] == Pending then Skipped else statuses[a]
    {
      r := statuses;
      for i := 0 to |ids|
        invariant r.Keys == tasks.Keys
        invariant forall a :: a in tasks ==>
                                r[a] == if a in ids[..i] && statuses[a] == Pending then Skipped else statuses[a]
      {
        assert ids[..i + 1] == ids[..i] + [ids[i]];
        if r[ids[i]] == Pending {
          r := r[ids[i] := Skipped];
        }
      }
      assert ids[..|ids|] == ids;
    }

    /** The fallback: all tasks in their order, whatever their dependencies, up to the first crash. */
    method ExecuteSequential(planned: seq<Assignment>, outcome: Id -> Outcome) returns (r: seq<Assignment>)
      ensures |r| == |planned|
      ensures forall i :: 0 <= i < |planned| ==>
                            r[i] == if CrashBefore(planned, outcome, i) then planned[i]
                            else RunInSequence(planned[i], outcome(planned[i].taskId))
    {
      r := planned;
      for i := 0 to |planned|
        invariant |r| == |planned| && !CrashBefore(planned, outcome, i)
        invariant forall k :: 0 <= k < i ==> r[k] == RunInSequence(planned[k], outcome(planned[k].taskId))
        invariant forall k :: i <= k < |r| ==> r[k] == planned[k]
      {
        r := r[i := RunInSequence(planned[i], outcome(planned[i].taskId))];
        if r[i].status == Failed {
          break;
        }
      }
    }

    method FallBack(tasks: map<Id, SubTask>, ids: seq<Id>, outcome: Id -> Outcome) returns (done: seq<Assignment>)
      requires agents != [] && Distinct(ids) && forall a :: a in ids <==> a in tasks
      ensures SequentialRecord(tasks, agents[0], outcome, done)
      ensures |done| == |ids| && forall i :: 0 <= i < |ids| ==> done[i].taskId == ids[i]
    {
      hide CrashBefore;
      var planned := seq(|ids|, i requires 0 <= i < |ids| =>
        Assignment(ids[i], agents[0], tasks[ids[i]].goal, Planned, None, None));
      done := ExecuteSequential(planned, outcome);
      DistinctCount(ids, tasks.Keys);
      assert forall i :: 0 <= i < |ids| ==> planned[i].taskId == ids[i] && done[i].taskId == ids[i];
      forall i | 0 <= i < |ids| ensures CrashBefore(planned, outcome, i) == CrashBefore(done, outcome, i) {
        SameCrashes(planned, done, outcome, i);
      }
    }

    /** `_execute_dag`. A cyclic graph is run in sequence; an acyclic one in layers, and then a task that was
        pending has run if and only if all its dependencies ran and succeeded, and is skipped if and only
        if some transitive dependency failed or was not pending to begin with. */
    method ExecuteDag(list: seq<SubTask>, outcome: Id -> Outcome) returns (r: DagResult, tasks: map<Id, SubTask>)
      modifies this
      ensures Keyed(tasks) && forall i :: 0 <= i < |list| ==> list[i].id in tasks
      ensures forall a :: a in tasks ==> LastOf(list, a, tasks[a])
      ensures r.UnknownDependency? ==> Dangling(GraphOf(tasks))
      ensures r.Sequential? || r.NoFirstAgent? ==> Cyclic(GraphOf(tasks)) && (r.NoFirstAgent? <==> agents == [])
      ensures r.Layered? || r.NoAgents? ==>
                !Cyclic(GraphOf(tasks)) && Closed(GraphOf(tasks)) && (r.NoAgents? <==> agents == [])
      ensures r.Layered? ==>
                var ran := RanIds(r.assignments);
                && GoodRecord(tasks, agents, outcome, ran, r.assignments) && RunSet(tasks, outcome, ran)
                && Final(tasks, ran, r.statuses)
                && forall a :: a in tasks && tasks[a].status == Pending ==>
                                 (r.statuses[a] == Skipped <==> exists p :: BlockedBy(tasks, outcome, ran, a, p))
      ensures r.Sequential? ==> SequentialRecord(tasks, agents[0], outcome, r.assignments)
      ensures r.Layered? ==>
                && Filed(assignments, r.assignments)
                && forall i :: 0 <= i < |r.assignments| ==>
                                 Reports(r.assignments[i], outcome(r.assignments[i].taskId))
      ensures r.Sequential? ==> SequentialReports(outcome, r.assignments)
    {
      var ids: seq<Id>;
      tasks, ids := Collect(list);
      ghost var order: seq<Id>;
      var search: Search;
      search, order := HasCycle(GraphOf(tasks), ids);
      if search == UnknownTask {
        return UnknownDependency, tasks;
      }
      if search == Found {
        if agents == [] {
          return NoFirstAgent, tasks;
        }
        var done := FallBack(tasks, ids, outcome);
        SequenceIsReported(tasks, agents[0], outcome, done);
        return Sequential(done), tasks;
      }
      if agents == [] {
        return NoAgents, tasks;
      }
      var done, statuses := RunLayers(tasks, ids, outcome);
      SkippedIffBlocked(tasks, outcome, RanIds(done), order, statuses);
      LayersAreReported(tasks, agents, outcome, done);
      r := Layered(done, statuses);
    }
  }

  lemma SkippedIffBlocked(tasks: map<Id, SubTask>, outcome: Id -> Outcome, ran: set<Id>, order: seq<Id>,
                          statuses: Statuses)
    requires RunSet(tasks, outcome, ran) && Final(tasks, ran, statuses)
    requires Sorted(GraphOf(tasks), order) && forall a :: a in tasks ==> a in order
    ensures forall a :: a in tasks && tasks[a].status == Pending ==>
                          (statuses[a] == Skipped <==> exists p :: BlockedBy(tasks, outcome, ran, a, p))
  {
    forall a | a in tasks && tasks[a].status == Pending
      ensures statuses[a] == Skipped <==> exists p :: BlockedBy(tasks, outcome, ran, a, p)
    {
      if a in ran {
        forall p ensures !BlockedBy(tasks, outcome, ran, a, p) {
          if BlockedBy(tasks, outcome, ran, a, p) {
            BlockedDoesNotRun(tasks, outcome, ran, a, p);
          }
        }
      } else {
        var p := NotRunIsBlocked(tasks, outcome, ran, order, Place(order, a));
      }
    }
  }

  lemma {:induction false} DistinctCount(ids: seq<Id>, s: set<Id>)
    requires Distinct(ids) && forall a :: a in ids <==> a in s
    ensures |ids| == |s|
    decreases |ids|
  {
    if ids != [] {
      assert forall a :: a in ids <==> a == ids[0] || a in ids[1..];
      DistinctCount(ids[1..], s - {ids[0]});
    }
  }

  lemma SameCrashes(a: seq<Assignment>, b: seq<Assignment>, outcome: Id -> Outcome, i: nat)
    requires |a| == |b| && forall k :: 0 <= k < |a| ==> a[k].taskId == b[k].taskId
    ensures CrashBefore(a, outcome, i) == CrashBefore(b, outcome, i)
  {
  }

  /** Every task once, by the first agent, whatever its dependencies; those after the first crash are not run. */
  ghost predicate SequentialRecord(tasks: map<Id, SubTask>, agent: string, outcome: Id -> Outcome, r: seq<Assignment>) {
    && |r| == |tasks.Keys| && (forall i, j :: 0 <= i < j < |r| ==> r[i].taskId != r[j].taskId)
    && forall i :: 0 <= i < |r| ==>
                     && r[i].taskId in tasks
                     && var planned := Assignment(r[i].taskId, agent, tasks[r[i].taskId].goal, Planned, None, None);
                     r[i] == if CrashBefore(r, outcome, i) then planned
                     else RunInSequence(planned, outcome(r[i].taskId))
  }

  /** An earlier task of the sequence crashes. */
  predicate CrashBefore(planned: seq<Assignment>, outcome: Id -> Outcome, i: nat) {
    exists k :: 0 <= k < i && k < |planned| && outcome(planned[k].taskId).Crashes?
  }

  function RanIds(done: seq<Assignment>): (r: set<Id>)
    ensures forall a :: a in r <==> exists i :: 0 <= i < |done| && done[i].taskId == a
  {
    set i | 0 <= i < |done| :: done[i].taskId
  }

  /** In the end a task that was pending is marked running if it was run and skipped if not. */
  predicate Final(tasks: map<Id, SubTask>, ran: set<Id>, statuses: Statuses) {
    && statuses.Keys == tasks.Keys
    && forall a :: a in tasks ==>
                     statuses[a] == if tasks[a].status != Pending then tasks[a].status else if a in ran then Running
                     else Skipped
  }

  /** Tasks that were pending, have not run, and whose dependencies have all succeeded. */
  ghost predicate MayRun(tasks: map<Id, SubTask>, outcome: Id -> Outcome, completed: set<Id>, ready: seq<Id>) {
    forall a :: a in ready ==>
                  && a in tasks && tasks[a].status == Pending && a !in completed
                  && forall d :: d in tasks[a].deps ==> d in completed && Succeeded(outcome, d)
  }

  /** What holds between two layers. */
  ghost predicate Between(tasks: map<Id, SubTask>, agents: seq<string>, outcome: Id -> Outcome, completed: set<Id>,
                          statuses: Statuses, done: seq<Assignment>) {
    && completed <= tasks.Keys && Tracks(tasks, outcome, completed, completed, statuses)
    && Justified(tasks, outcome, completed) && GoodRecord(tasks, agents, outcome, completed, done)
  }

  lemma RanIsCompleted(tasks: map<Id, SubTask>, agents: seq<string>, outcome: Id -> Outcome, completed: set<Id>,
                       done: seq<Assignment>)
    requires GoodRecord(tasks, agents, outcome, completed, done)
    ensures RanIds(done) == completed
  {
  }

  lemma FinalAfterSkip(tasks: map<Id, SubTask>, outcome: Id -> Outcome, completed: set<Id>, before: Statuses,
                       statuses: Statuses)
    requires Keyed(tasks) && Tracks(tasks, outcome, completed, completed, before) && statuses.Keys == tasks.Keys
    requires forall a :: a in tasks ==> statuses[a] == if before[a] == Pending then Skipped else before[a]
    ensures Final(tasks, completed, statuses)
  {
    forall a | a in tasks
      ensures statuses[a] == if tasks[a].status != Pending then tasks[a].status
                             else if a in completed then Running
                             else Skipped
    {
      assert before[a] == StatusNow(tasks[a], outcome, completed, completed);
    }
  }

  lemma FinalWhenAllRan(tasks: map<Id, SubTask>, outcome: Id -> Outcome, completed: set<Id>, statuses: Statuses)
    requires Keyed(tasks) && Tracks(tasks, outcome, completed, completed, statuses)
             && Justified(tasks, outcome, completed)
    requires completed <= tasks.Keys && |completed| >= |tasks.Keys|
    ensures RunSet(tasks, outcome, completed) && Final(tasks, completed, statuses)
  {
    SmallerSet(completed, tasks.Keys);
    FinalAfterSkip(tasks, outcome, completed, statuses, statuses);
  }

  lemma JustifiedMore(tasks: map<Id, SubTask>, outcome: Id -> Outcome, completed: set<Id>, ready: seq<Id>)
    requires Justified(tasks, outcome, completed) && MayRun(tasks, outcome, completed, ready)
             && completed <= tasks.Keys && ready != []
    ensures var completed' := completed + IdSet(ready);
            && Justified(tasks, outcome, completed') && completed < completed' <= tasks.Keys
            && |completed| < |completed'| <= |tasks.Keys|
  {
    var completed' := completed + IdSet(ready);
    assert ready[0] in completed' && ready[0] !in completed;
    SmallerSet(completed, completed');
    SmallerSet(completed', tasks.Keys);
  }

  /** One planned assignment per task of a layer, round robin over the agents. */
  predicate PlannedFor(tasks: map<Id, SubTask>, agents: seq<string>, ready: seq<Id>, planned: seq<Assignment>) {
    && agents != [] && |planned| == |ready|
    && forall j :: 0 <= j < |ready| ==>
                     ready[j] in tasks && planned[j] == Assignment(ready[j], AgentFor(agents, j),
                                                                   tasks[ready[j]].goal, Planned, None, None)
  }

  lemma PlannedNext(tasks: map<Id, SubTask>, agents: seq<string>, ready: seq<Id>, planned: seq<Assignment>, j: nat)
    requires j < |ready| && ready[j] in tasks && PlannedFor(tasks, agents, ready[..j], planned)
    ensures PlannedFor(tasks, agents, ready[..j + 1],
                       planned + [Assignment(ready[j], AgentFor(agents, j), tasks[ready[j]].goal, Planned, None, None)])
  {
  }

  function AgentFor(agents: seq<string>, j: nat): (agent: string)
    requires agents != []
    ensures agent in agents
  {
    agents[j % |agents|]
  }

  lemma ReadyMayRun(tasks: map<Id, SubTask>, outcome: Id -> Outcome, completed: set<Id>, statuses: Statuses,
                    ready: seq<Id>, ids: seq<Id>)
    requires Keyed(tasks) && Tracks(tasks, outcome, completed, completed, statuses)
    requires forall a :: a in ids <==> a in tasks
    requires ready == Ready(tasks, ids, statuses, completed)
    ensures MayRun(tasks, outcome, completed, ready)
    ensures ready == [] && Justified(tasks, outcome, completed) ==> RunSet(tasks, outcome, completed)
  {
    forall a | a in tasks && IsReady(tasks, statuses, completed, a)
      ensures a in ready && forall d :: d in tasks[a].deps ==> Succeeded(outcome, d)
    {
      assert statuses[a] == StatusNow(tasks[a], outcome, completed, completed);
    }
    if ready == [] && Justified(tasks, outcome, completed) {
      forall a | && a in tasks && tasks[a].status == Pending
                 && forall d :: d in tasks[a].deps ==> d in completed && Succeeded(outcome, d)
        ensures a in completed
      {
        assert statuses[a] == StatusNow(tasks[a], outcome, completed, completed);
        assert !IsReady(tasks, statuses, completed, a);
      }
    }
  }

  lemma LayerStarts(tasks: map<Id, SubTask>, agents: seq<string>, outcome: Id -> Outcome, ready: seq<Id>,
                    completed: set<Id>, statuses: Statuses)
    requires agents != [] && Tracks(tasks, outcome, completed, completed, statuses)
    ensures IdSet(ready[..0]) == {} && PlannedFor(tasks, agents, ready[..0], [])
    ensures Tracks(tasks, outcome, completed + IdSet(ready[..0]), completed, statuses)
  {
    assert completed + IdSet(ready[..0]) == completed;
  }

  lemma StartedNext(tasks: map<Id, SubTask>, outcome: Id -> Outcome, ready: seq<Id>, completed: set<Id>,
                    statuses: Statuses, j: nat)
    requires j < |ready| && ready[j] in tasks && tasks[ready[j]].status == Pending && Keyed(tasks)
    requires Tracks(tasks, outcome, completed + IdSet(ready[..j]), completed, statuses)
    ensures Tracks(tasks, outcome, completed + IdSet(ready[..j + 1]), completed, statuses[ready[j] := Running])
  {
    hide Tracks, Keyed;
    TrackStart(tasks, outcome, completed + IdSet(ready[..j]), completed, statuses, ready[j]);
    IdSetNext(ready, j);
    assert completed + IdSet(ready[..j + 1]) == completed + IdSet(ready[..j]) + {ready[j]};
  }

  lemma NothingEnded(completed: set<Id>, ready: seq<Id>)
    ensures completed + IdSet(ready[..0]) == completed
  {
  }

  lemma PlannedLength(tasks: map<Id, SubTask>, agents: seq<string>, ready: seq<Id>, planned: seq<Assignment>)
    requires PlannedFor(tasks, agents, ready, planned)
    ensures |planned| == |ready|
  {
  }

  /** The plan is of a task that may run now. */
  predicate ReadyPlan(tasks: map<Id, SubTask>, agents: seq<string>, outcome: Id -> Outcome, completed: set<Id>,
                      plan: Assignment) {
    var a := plan.taskId;
    && a in tasks && a !in completed && plan.agentId in agents && plan.task == tasks[a].goal
    && forall d :: d in tasks[a].deps ==> d in completed && Succeeded(outcome, d)
  }

  lemma PlanReady(tasks: map<Id, SubTask>, agents: seq<string>, outcome: Id -> Outcome, completed: set<Id>,
                  ready: seq<Id>, planned: seq<Assignment>, j: nat)
    requires PlannedFor(tasks, agents, ready, planned) && Distinct(ready) && j < |planned|
    requires MayRun(tasks, outcome, completed, ready)
    ensures j < |ready| && planned[j].taskId == ready[j] && agents != [] && planned[j].agentId == AgentFor(agents, j)
    ensures ReadyPlan(tasks, agents, outcome, completed + IdSet(ready[..j]), planned[j])
  {
    IdSetNext(ready, j);
  }

  /** The coordinator has each record under its task's id. */
  predicate Filed(assignments: map<Id, Assignment>, done: seq<Assignment>) {
    forall i :: 0 <= i < |done| ==> done[i].taskId in assignments && assignments[done[i].taskId] == done[i]
  }

  /** What a layer adds to the record: its tasks in order, each by its agent, round robin. */
  predicate LayerRecord(tasks: map<Id, SubTask>, agents: seq<string>, ready: seq<Id>, done: seq<Assignment>,
                        done': seq<Assignment>) {
    && |done'| == |done| + |ready| && done'[..|done|] == done && agents != []
    && forall j :: 0 <= j < |ready| ==>
                     done'[|done| + j].taskId == ready[j] && done'[|done| + j].agentId == AgentFor(agents, j)
  }

  lemma NoLayerRecord(tasks: map<Id, SubTask>, agents: seq<string>, ready: seq<Id>, planned: seq<Assignment>,
                      done: seq<Assignment>)
    requires PlannedFor(tasks, agents, ready, planned)
    ensures LayerRecord(tasks, agents, ready[..0], done, done)
  {
  }

  lemma LayerRecordNext(tasks: map<Id, SubTask>, agents: seq<string>, ready: seq<Id>, done: seq<Assignment>,
                        before: seq<Assignment>, after: seq<Assignment>, j: nat)
    requires j < |ready| && LayerRecord(tasks, agents, ready[..j], done, before)
    requires |after| == |before| + 1 && after[..|before|] == before
    requires after[|before|].taskId == ready[j] && after[|before|].agentId == AgentFor(agents, j)
    ensures LayerRecord(tasks, agents, ready[..j + 1], done, after)
  {
    forall k | 0 <= k < j + 1
      ensures after[|done| + k].taskId == ready[..j + 1][k] && after[|done| + k].agentId == AgentFor(agents, k)
    {
      if k < j {
        assert after[|done| + k] == before[|done| + k] && ready[..j][k] == ready[k];
      }
    }
  }

  /** The agents take turns. */
  lemma RoundRobin(agents: seq<string>, j: nat)
    requires agents != []
    ensures j < |agents| ==> AgentFor(agents, j) == agents[j]
    ensures AgentFor(agents, j + |agents|) == AgentFor(agents, j)
  {
    OneRound(j, |agents|);
  }

  lemma OneRound(j: nat, n: nat)
    requires n > 0
    ensures (j + n) % n == j % n
  {
    var q, q', r, r' := j / n, (j + n) / n, j % n, (j + n) % n;
    assert n * q' + r' == n * q + n + r;
    if q' > q + 1 {
      assert n * (q' - q - 1) == n * q' - n * q - n;
      AtLeast(n, q' - q - 1);
    } else if q' < q + 1 {
      assert n * (q + 1 - q') == n * q + n - n * q';
      AtLeast(n, q + 1 - q');
    }
  }

  lemma {:induction false} AtLeast(n: nat, d: nat)
    requires d > 0
    ensures n * d >= n
  {
    if d > 1 {
      AtLeast(n, d - 1);
      assert n * d == n * (d - 1) + n;
    }
  }

  lemma FiledNext(tasks: map<Id, SubTask>, agents: seq<string>, outcome: Id -> Outcome, completed: set<Id>,
                  assignments: map<Id, Assignment>, done: seq<Assignment>, one: Assignment)
    requires GoodRecord(tasks, agents, outcome, completed, done) && one.taskId !in completed
    requires Filed(assignments, done)
    ensures Filed(assignments[one.taskId := one], done + [one])
  {
  }

  lemma StillFiled(tasks: map<Id, SubTask>, agents: seq<string>, outcome: Id -> Outcome, completed: set<Id>,
                   before: map<Id, Assignment>, after: map<Id, Assignment>, done: seq<Assignment>, ready: seq<Id>)
    requires GoodRecord(tasks, agents, outcome, completed, done) && MayRun(tasks, outcome, completed, ready)
    requires Filed(before, done) && before.Keys <= after.Keys
    requires forall a :: a in before && a !in ready ==> after[a] == before[a]
    ensures Filed(after, done)
  {
    forall i | 0 <= i < |done| ensures done[i].taskId !in ready {
      assert done[i].taskId in completed;
    }
  }

  lemma BetweenParts(tasks: map<Id, SubTask>, agents: seq<string>, outcome: Id -> Outcome, completed: set<Id>,
                     statuses: Statuses, done: seq<Assignment>, ready: seq<Id>)
    requires Between(tasks, agents, outcome, completed, statuses, done) && MayRun(tasks, outcome, completed, ready)
    ensures forall a :: a in ready ==> a in tasks && tasks[a].status == Pending
  {
  }

  lemma LayersAreReported(tasks: map<Id, SubTask>, agents: seq<string>, outcome: Id -> Outcome,
                          done: seq<Assignment>)
    requires GoodRecord(tasks, agents, outcome, RanIds(done), done)
    ensures forall i :: 0 <= i < |done| ==> Reports(done[i], outcome(done[i].taskId))
  {
  }

  /** Every task up to the first crash is reported, and those behind it are as they were planned. */
  predicate SequentialReports(outcome: Id -> Outcome, r: seq<Assignment>) {
    forall i :: 0 <= i < |r| ==>
                  if CrashBefore(r, outcome, i) then r[i].status == Planned && r[i].result.None? && r[i].error.None?
                  else ReportsInSequence(r[i], outcome(r[i].taskId))
  }

  lemma SequenceIsReported(tasks: map<Id, SubTask>, agent: string, outcome: Id -> Outcome, r: seq<Assignment>)
    requires SequentialRecord(tasks, agent, outcome, r)
    ensures SequentialReports(outcome, r)
  {
    hide CrashBefore;
  }

  /** The position of the first task with this id, or the length. */
  function FirstOf(list: seq<SubTask>, a: Id, from: nat): (k: nat)
    requires from <= |list|
    ensures from <= k <= |list| && (k < |list| ==> list[k].id == a)
    ensures forall i :: from <= i < k ==> list[i].id != a
    decreases |list| - from
  {
    if from == |list| || list[from].id == a then from else FirstOf(list, a, from + 1)
  }

  /** The ids stand in the order in which they first occur in the list. */
  predicate FirstOrder(list: seq<SubTask>, ids: seq<Id>) {
    && (forall p :: 0 <= p < |ids| ==> FirstOf(list, ids[p], 0) < |list|)
    && (forall p, q :: 0 <= p < q < |ids| ==> FirstOf(list, ids[p], 0) < FirstOf(list, ids[q], 0))
  }

  lemma NothingOrdered(list: seq<SubTask>)
    ensures FirstOrder(list[..0], [])
  {
  }

  lemma FirstOfPrefix(list: seq<SubTask>, n: nat, a: Id)
    requires n < |list|
    ensures FirstOf(list[..n], a, 0) < n ==> FirstOf(list[..n + 1], a, 0) == FirstOf(list[..n], a, 0)
    ensures FirstOf(list[..n], a, 0) == n && list[n].id == a ==> FirstOf(list[..n + 1], a, 0) == n
  {
    var k, k' := FirstOf(list[..n], a, 0), FirstOf(list[..n + 1], a, 0);
    assert forall i :: 0 <= i < n ==> list[..n][i] == list[i] == list[..n + 1][i];
    assert list[..n + 1][n] == list[n];
    if k < n {
      assert list[..n + 1][k].id == a;
    }
  }

  /** One more task of the list: its id comes last if it is new. */
  lemma FirstOrderNext(list: seq<SubTask>, n: nat, ids: seq<Id>)
    requires n < |list| && FirstOrder(list[..n], ids)
    ensures FirstOrder(list[..n + 1], ids)
    ensures FirstOf(list[..n], list[n].id, 0) == n ==> FirstOrder(list[..n + 1], ids + [list[n].id])
  {
    forall p | 0 <= p < |ids| ensures FirstOf(list[..n + 1], ids[p], 0) == FirstOf(list[..n], ids[p], 0) {
      FirstOfPrefix(list, n, ids[p]);
    }
    FirstOfPrefix(list, n, list[n].id);
  }

  /** The last task with this id is this one. */
  predicate LastOf(list: seq<SubTask>, a: Id, task: SubTask) {
    exists i :: 0 <= i < |list| && LastWith(list, i, a) && task == list[i]
  }

  /** One more task of the list, after it has been filed under its id. */
  lemma LastOfNext(list: seq<SubTask>, n: nat, a: Id, task: SubTask)
    requires n < |list|
    requires if a == list[n].id then task == list[n] else LastOf(list[..n], a, task)
    ensures LastOf(list[..n + 1], a, task)
  {
    if a == list[n].id {
      assert LastWith(list[..n + 1], n, a);
    } else {
      var i :| 0 <= i < n && LastWith(list[..n], i, a) && task == list[..n][i];
      assert LastWith(list[..n + 1], i, a);
    }
  }

  predicate LastWith(list: seq<SubTask>, i: nat, a: Id) {
    i < |list| && list[i].id == a && forall j :: i < j < |list| ==> list[j].id != a
  }
}
