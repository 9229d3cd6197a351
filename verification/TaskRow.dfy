/**
 The task row of one trace as a transition system. Any number of processes deal, approve, reconcile, run,
 cancel and force-release it; one step is one SQL statement, the start or end of a handler, a poll for
 cancellation or a crash. A statement that raises may or may not have taken effect. The trace id is unique
 in the table and rows are never deleted.
 */
module TaskRow {
  import opened Options
  import opened AgentState
  import opened Harness
  import opened TaskStatuses
  import SideEffects

  type Fault = SideEffects.Fault

  datatype Kind = ForApproval | ForReconciliation

  /** A decision as stored: the request or call it answers, and its text. */
  datatype Answer = Answer(id: string, text: string)

  /** The part of the row's data that decides about resuming; checkpoints are numbered. */
  datatype RunData = RunData(
    pendingApproval: Option<string>,
    pendingCall: Option<string>,
    checkpoint: Option<nat>,
    resuming: bool,
    approval: Option<Answer>,
    ruling: Option<Answer>)

  datatype Row = Row(status: TaskStatus, data: RunData)

  /** How a handler ends: with a result, with an exception, or cancelled from outside. */
  datatype Ending = Returns(result: AgentLoopResult) | Raises | TaskIsCancelled

  /** Where a process is with this row. `Dealing` has the data of the run it wants to start and, for an
      endpoint, what to roll back to. */
  datatype Phase =
    | Deciding(kind: Kind, answer: Answer, seen: Row)
    | Dealing(data: RunData, back: Option<(Kind, RunData)>)
    | RollingBack(kind: Kind, original: RunData)
    | Handling(data: RunData, cancelSeen: bool)
    | Releasing(status: TaskStatus)

  /** `pauses` is a history of what runs have written to the row with their checkpoints, and `last` the checkpoint
      of the last one that has written. */
  datatype State = State(row: Option<Row>, processes: map<int, Phase>, pauses: map<nat, RunData>, last: Option<nat>)

  datatype Step =
    | Create(w: int, data: RunData, fault: Fault)
    | ReadRow(w: int, kind: Kind, answer: Answer)
    | ClaimRow(w: int, fault: Fault)
    | RefuseDeal(w: int)
    | LockRow(w: int, fault: Fault)
    | Rollback(w: int, fault: Fault)
    | PollCancel(w: int)
    | Persist(w: int, data: RunData, fault: Fault)
    | EndHandler(w: int, ending: Ending)
    | ReleaseRow(w: int, fault: Fault)
    | Crash(w: int)
    | CancelTask(fault: Fault)
    | ForceRelease(fault: Fault)

  const NOTHING := State(None, map[], map[], None)

  function WaitingFor(kind: Kind): TaskStatus {
    if kind == ForApproval then WAITING_APPROVAL else WAITING_RECONCILIATION
  }

  function PendingId(d: RunData, kind: Kind): Option<string> {
    if kind == ForApproval then d.pendingApproval else d.pendingCall
  }

  function Given(d: RunData, kind: Kind): Option<Answer> {
    if kind == ForApproval then d.approval else d.ruling
  }

  function Resume(d: RunData, kind: Kind, a: Answer): RunData {
    if kind == ForApproval then d.(resuming := true, approval := Some(a)) else d.(resuming := true, ruling := Some(a))
  }

  /** The data of a run that has not started yet. */
  predicate NewData(d: RunData) {
    d.checkpoint.None? && d.pendingApproval.None? && d.pendingCall.None?
  }

  /** The endpoint's checks on the row it read: the decision answers what the data waits for, and there is
      a checkpoint. */
  predicate Matches(row: Row, kind: Kind, a: Answer) {
    PendingId(row.data, kind) == Some(a.id) && row.data.checkpoint.Some?
  }

  /** The same decision was claimed before, and its run has not started. */
  predicate Recovering(row: Row, kind: Kind, a: Answer) {
    row.status == INIT && row.data.resuming && Given(row.data, kind) == Some(a)
  }

  function StatusOf(ending: Ending, cancelSeen: bool): TaskStatus {
    match ending
    case Returns(result) => FinalStatus(cancelSeen, result)
    case Raises => TaskStatus.FAILED
    case TaskIsCancelled => TaskStatus.CANCELLED
  }

  predicate InPhase(s: State, w: int) {
    w in s.processes
  }

  predicate Enabled(s: State, step: Step) {
    match step
    case Create(w, data, _) => !InPhase(s, w) && NewData(data)
    case ReadRow(w, kind, a) =>
      !InPhase(s, w) && s.row.Some? && Matches(s.row.value, kind, a)
      && (s.row.value.status == WaitingFor(kind) || Recovering(s.row.value, kind, a))
    case ClaimRow(w, _) => InPhase(s, w) && s.processes[w].Deciding?
    case RefuseDeal(w) => InPhase(s, w) && s.processes[w].Dealing?
    case LockRow(w, _) => InPhase(s, w) && s.processes[w].Dealing?
    case Rollback(w, _) => InPhase(s, w) && s.processes[w].RollingBack?
    case PollCancel(w) => InPhase(s, w) && s.processes[w].Handling?
    case Persist(w, _, _) => InPhase(s, w) && s.processes[w].Handling?
    case EndHandler(w, _) => InPhase(s, w) && s.processes[w].Handling?
    case ReleaseRow(w, _) => InPhase(s, w) && s.processes[w].Releasing?
    case Crash(w) => InPhase(s, w)
    case CancelTask(_) => true
    case ForceRelease(_) => true
  }

  // ---- The statements ----

  predicate HasStatus(row: Option<Row>, st: TaskStatus) {
    row.Some? && row.value.status == st
  }

  function Insert(row: Option<Row>, data: RunData): Option<Row> {
    if row.None? then Some(Row(INIT, data)) else row
  }

  function Lock(row: Option<Row>): Option<Row> {
    if HasStatus(row, INIT) then Some(row.value.(status := PROCESSING)) else row
  }

  function Claim(row: Option<Row>, kind: Kind, data: RunData): Option<Row> {
    if HasStatus(row, WaitingFor(kind)) then Some(Row(INIT, data)) else row
  }

  function Unclaim(row: Option<Row>, kind: Kind, back: RunData): Option<Row> {
    if HasStatus(row, INIT) then Some(Row(WaitingFor(kind), back)) else row
  }

  function Release(row: Option<Row>, st: TaskStatus): Option<Row> {
    if HasStatus(row, PROCESSING) || HasStatus(row, CANCEL_REQUESTED) then Some(row.value.(status := st)) else row
  }

  function Cancel(row: Option<Row>): Option<Row> {
    if row.None? then row
    else
      match row.value.status
      case PROCESSING => Some(row.value.(status := CANCEL_REQUESTED))
      case INIT => Some(row.value.(status := TaskStatus.CANCELLED))
      case WAITING_APPROVAL => Some(row.value.(status := TaskStatus.CANCELLED))
      case WAITING_RECONCILIATION => Some(row.value.(status := TaskStatus.CANCELLED))
      case _ => row
  }

  function Force(row: Option<Row>): Option<Row> {
    if row.None? then row else Some(row.value.(status := TaskStatus.FAILED))
  }

  /** A statement that raises before it runs leaves the row. */
  function Exec(row: Option<Row>, row': Option<Row>, fault: Fault): Option<Row> {
    if fault == SideEffects.RaisedBefore then row else row'
  }

  function Moved(s: State, w: int, p: Phase): State {
    s.(processes := s.processes[w := p])
  }

  function Gone(s: State, w: int): State {
    s.(processes := s.processes - {w})
  }

  /** A failed deal of an endpoint rolls the claim back; a fresh one just ends. */
  function DealFailed(s: State, w: int, back: Option<(Kind, RunData)>): State {
    if back.Some? then Moved(s, w, RollingBack(back.value.0, back.value.1)) else Gone(s, w)
  }

  function Apply(s: State, step: Step): State
    requires Enabled(s, step)
  {
    match step
    case Create(w, data, fault) =>
      var s' := s.(row := Exec(s.row, Insert(s.row, data), fault));
      if fault.NoFault? then Moved(s', w, Dealing(data, None)) else s'
    case ReadRow(w, kind, a) =>
      var row := s.row.value;
      if row.status == WaitingFor(kind) then Moved(s, w, Deciding(kind, a, row))
      else Moved(s, w, Dealing(Resume(row.data, kind, a), Some((kind, row.data))))
    case ClaimRow(w, fault) =>
      var p := s.processes[w];
      var data := Resume(p.seen.data, p.kind, p.answer);
      var s' := s.(row := Exec(s.row, Claim(s.row, p.kind, data), fault));
      if fault.NoFault? && HasStatus(s.row, WaitingFor(p.kind))
      then Moved(s', w, Dealing(data, Some((p.kind, p.seen.data))))
      else Gone(s', w)
    case RefuseDeal(w) => DealFailed(s, w, s.processes[w].back)
    case LockRow(w, fault) =>
      var s' := s.(row := Exec(s.row, Lock(s.row), fault));
      if !fault.NoFault? then Gone(s', w)
      else if HasStatus(s.row, INIT) then Moved(s', w, Handling(s.processes[w].data, false))
      else DealFailed(s', w, s.processes[w].back)
    case Rollback(w, fault) =>
      var p := s.processes[w];
      Gone(s.(row := Exec(s.row, Unclaim(s.row, p.kind, p.original), fault)), w)
    case PollCancel(w) =>
      if HasStatus(s.row, CANCEL_REQUESTED) then Moved(s, w, s.processes[w].(cancelSeen := true)) else s
    case Persist(w, data, fault) =>
      if fault == SideEffects.RaisedBefore || s.row.None? then s
      else
        var pauses := if data.checkpoint.Some? then s.pauses[data.checkpoint.value := data] else s.pauses;
        s.(row := Some(s.row.value.(data := data)), pauses := pauses, last := data.checkpoint)
    case EndHandler(w, ending) => Moved(s, w, Releasing(StatusOf(ending, s.processes[w].cancelSeen)))
    case ReleaseRow(w, fault) => Gone(s.(row := Exec(s.row, Release(s.row, s.processes[w].status), fault)), w)
    case Crash(w) => Gone(s, w)
    case CancelTask(fault) => s.(row := Exec(s.row, Cancel(s.row), fault))
    case ForceRelease(fault) => s.(row := Exec(s.row, Force(s.row), fault))
  }

  function Run(s: State, steps: seq<Step>): Option<State> {
    if steps == [] then Some(s)
    else
      var before := Run(s, steps[..|steps| - 1]);
      if before.Some? && Enabled(before.value, steps[|steps| - 1]) then Some(Apply(before.value, steps[|steps| - 1]))
      else None
  }

  function Actor(step: Step): Option<int> {
    if step.CancelTask? || step.ForceRelease? then None else Some(step.w)
  }

  predicate SameAt(s: State, s': State, w: int) {
    (w in s'.processes <==> w in s.processes) && (w in s.processes ==> s'.processes[w] == s.processes[w])
  }

  /** A step moves its own process only. */
  lemma OthersStay(s: State, step: Step)
    requires Enabled(s, step)
    ensures forall w :: Some(w) != Actor(step) ==> SameAt(s, Apply(s, step), w)
  {
    hide FinalStatus, Lock, Cancel, Release, Force, Insert, Unclaim, Claim, Resume;
  }

  // ---- At most one worker ----

  predicate Holds(s: State, w: int) {
    w in s.processes && (s.processes[w].Handling? || s.processes[w].Releasing?)
  }

  predicate Held(st: TaskStatus) {
    st == PROCESSING || st == CANCEL_REQUESTED
  }

  ghost predicate OneHolder(s: State) {
    && (forall w, w' :: Holds(s, w) && Holds(s, w') ==> w == w')
    && (forall w :: Holds(s, w) ==> s.row.Some? && (Held(s.row.value.status) || Terminal(s.row.value.status)))
    && (forall w :: Holds(s, w) && s.processes[w].Releasing? ==> Returnable(s.processes[w].status))
  }

  /** Only the lock makes a holder, and a holder stays on the row until it releases it. */
  lemma HolderOf(s: State, step: Step, w: int)
    requires OneHolder(s) && Enabled(s, step) && Holds(Apply(s, step), w)
    ensures var s' := Apply(s, step);
            && (Holds(s, w) || (step.LockRow? && step.w == w && HasStatus(s.row, INIT)))
            && s'.row.Some? && (Held(s'.row.value.status) || Terminal(s'.row.value.status))
            && (s'.processes[w].Releasing? ==> Returnable(s'.processes[w].status))
  {
    hide FinalStatus, Resume;
    assert step.ReleaseRow? ==> Holds(s, step.w);
  }

  lemma StepKeepsOneHolder(s: State, step: Step)
    requires OneHolder(s) && Enabled(s, step)
    ensures OneHolder(Apply(s, step))
  {
    hide Apply, Enabled;
    var s' := Apply(s, step);
    forall w | Holds(s', w)
      ensures Holds(s, w) || (step.LockRow? && step.w == w && HasStatus(s.row, INIT))
      ensures s'.row.Some? && (Held(s'.row.value.status) || Terminal(s'.row.value.status))
      ensures s'.processes[w].Releasing? ==> Returnable(s'.processes[w].status)
    {
      HolderOf(s, step, w);
    }
  }

  /** Over every run at most one process runs the handler of the trace or is about to release it, and none
      does while the row is new or waiting. */
  lemma {:induction false} SingleWorker(steps: seq<Step>)
    requires Run(NOTHING, steps).Some?
    ensures OneHolder(Run(NOTHING, steps).value)
    ensures var s := Run(NOTHING, steps).value;
            s.row.Some? && (s.row.value.status == INIT || Waiting(s.row.value.status)) ==> forall w :: !Holds(s, w)
    decreases |steps|
  {
    if steps != [] {
      SingleWorker(steps[..|steps| - 1]);
      StepKeepsOneHolder(Run(NOTHING, steps[..|steps| - 1]).value, steps[|steps| - 1]);
    }
  }

  // ---- Finished rows ----

  ghost predicate Finished(s: State) {
    s.row.Some? && Terminal(s.row.value.status)
  }

  lemma StepKeepsFinished(s: State, step: Step)
    requires Finished(s) && Enabled(s, step)
    ensures Finished(Apply(s, step))
    ensures forall w :: w in Apply(s, step).processes && Apply(s, step).processes[w].Handling? ==>
                          w in s.processes && s.processes[w].Handling?
  {
  }

  /** From any state with a finished row, the row never leaves the finished statuses, and no handler
      starts any more: whoever handles it later did so from the beginning. */
  lemma {:induction false} FinishedForever(s: State, steps: seq<Step>)
    requires Finished(s) && Run(s, steps).Some?
    ensures var s' := Run(s, steps).value;
            && Finished(s')
            && forall w :: w in s'.processes && s'.processes[w].Handling? ==>
                             w in s.processes && s.processes[w].Handling?
    decreases |steps|
  {
    if steps != [] {
      FinishedForever(s, steps[..|steps| - 1]);
      StepKeepsFinished(Run(s, steps[..|steps| - 1]).value, steps[|steps| - 1]);
    }
  }

  // ---- Cancellation ----

  /** The cancellation cannot get lost any more: the row is finished, or it still asks for cancellation and
      nobody is about to release it as waiting. */
  ghost predicate CancelKept(s: State) {
    && s.row.Some?
    && (Terminal(s.row.value.status)
        || (s.row.value.status == CANCEL_REQUESTED
            && forall w :: Holds(s, w) ==>
                             if s.processes[w].Handling? then s.processes[w].cancelSeen
                             else !Waiting(s.processes[w].status)))
  }

  lemma StepKeepsCancel(s: State, step: Step)
    requires OneHolder(s) && CancelKept(s) && Enabled(s, step)
    ensures CancelKept(Apply(s, step))
  {
    assert step.ReleaseRow? ==> Holds(s, step.w);
    assert step.EndHandler? ==> Holds(s, step.w);
  }

  /** A cancellation that the running handler has seen is never lost. */
  lemma {:induction false} SeenCancelIsKept(s: State, steps: seq<Step>)
    requires OneHolder(s) && CancelKept(s) && Run(s, steps).Some?
    ensures OneHolder(Run(s, steps).value) && CancelKept(Run(s, steps).value)
    decreases |steps|
  {
    if steps != [] {
      SeenCancelIsKept(s, steps[..|steps| - 1]);
      StepKeepsOneHolder(Run(s, steps[..|steps| - 1]).value, steps[|steps| - 1]);
      StepKeepsCancel(Run(s, steps[..|steps| - 1]).value, steps[|steps| - 1]);
    }
  }

  /** From this state some run brings the row back to waiting. */
  ghost predicate CanBeLost(s: State) {
    exists steps :: Loses(s, steps)
  }

  ghost predicate Loses(s: State, steps: seq<Step>) {
    var s' := Run(s, steps);
    s'.Some? && s'.value.row.Some? && Waiting(s'.value.row.value.status)
  }

  /** An accepted cancellation is safe exactly if the handler has seen it and nobody is about to release the row
      as waiting: then no run loses it, and otherwise one does. */
  lemma CancelKeptIff(s: State)
    requires OneHolder(s) && HasStatus(s.row, CANCEL_REQUESTED)
    ensures CancelKept(s) <==> !CanBeLost(s)
  {
    if CancelKept(s) {
      forall steps ensures !Loses(s, steps) {
        if Run(s, steps).Some? {
          SeenCancelIsKept(s, steps);
        }
      }
    } else {
      var w :|
        Holds(s, w) && if s.processes[w].Handling? then !s.processes[w].cancelSeen else Waiting(s.processes[w].status);
      CancelIsLost(s, w);
    }
  }

  lemma RunMore(s: State, steps: seq<Step>, s': State, step: Step)
    requires Run(s, steps) == Some(s') && Enabled(s', step)
    ensures Run(s, steps + [step]) == Some(Apply(s', step))
  {
    hide Enabled, Apply;
    assert (steps + [step])[..|steps|] == steps;
  }

  lemma NoSteps(s: State)
    ensures Run(s, []) == Some(s) && forall k :: FreshRun(k, [])
  {
  }

  lemma CancelIsLost(s: State, w: int)
    requires HasStatus(s.row, CANCEL_REQUESTED) && Holds(s, w)
    requires if s.processes[w].Handling? then !s.processes[w].cancelSeen else Waiting(s.processes[w].status)
    ensures CanBeLost(s)
  {
    hide Run;
    NoSteps(s);
    var pause, ended, before := EndHandler(w, Returns(PAUSE)), s, [];
    if s.processes[w].Handling? {
      RunMore(s, [], s, pause);
      ended, before := Apply(s, pause), [] + [pause];
    }
    ReleaseLoses(s, before, ended, w);
  }

  lemma ReleaseLoses(s: State, steps: seq<Step>, s': State, w: int)
    requires Run(s, steps) == Some(s') && HasStatus(s'.row, CANCEL_REQUESTED)
    requires Holds(s', w) && s'.processes[w].Releasing? && Waiting(s'.processes[w].status)
    ensures CanBeLost(s)
  {
    hide FinalStatus;
    RunMore(s, steps, s', ReleaseRow(w, SideEffects.NoFault));
    assert Loses(s, steps + [ReleaseRow(w, SideEffects.NoFault)]);
  }

  // ---- Which checkpoint a run resumes ----

  predicate Stored(pauses: map<nat, RunData>, d: RunData) {
    d.checkpoint.Some? ==> d.checkpoint.value in pauses
  }

  ghost predicate PhaseStored(pauses: map<nat, RunData>, p: Phase) {
    match p
    case Deciding(_, _, seen) => Stored(pauses, seen.data)
    case Dealing(data, back) => Stored(pauses, data) && (back.Some? ==> Stored(pauses, back.value.1))
    case RollingBack(_, back) => Stored(pauses, back)
    case Handling(data, _) => Stored(pauses, data)
    case Releasing(_) => true
  }

  ghost predicate AllStored(s: State) {
    && (s.row.Some? ==> Stored(s.pauses, s.row.value.data))
    && forall w :: w in s.processes ==> PhaseStored(s.pauses, s.processes[w])
  }

  lemma ActorKeepsStored(s: State, step: Step, w: int)
    requires AllStored(s) && Enabled(s, step) && Actor(step) == Some(w)
    ensures w in Apply(s, step).processes ==> PhaseStored(Apply(s, step).pauses, Apply(s, step).processes[w])
  {
    hide FinalStatus, Lock, Cancel, Release, Force, Insert, Unclaim, Claim;
    assert w in s.processes ==> PhaseStored(s.pauses, s.processes[w]);
  }

  lemma RowKeepsStored(s: State, step: Step)
    requires AllStored(s) && Enabled(s, step)
    ensures Apply(s, step).row.Some? ==> Stored(Apply(s, step).pauses, Apply(s, step).row.value.data)
    ensures forall c :: c in s.pauses ==> c in Apply(s, step).pauses
  {
    hide FinalStatus;
    if step.ClaimRow? || step.Rollback? {
      assert PhaseStored(s.pauses, s.processes[step.w]);
    }
  }

  lemma StepKeepsStored(s: State, step: Step)
    requires AllStored(s) && Enabled(s, step)
    ensures AllStored(Apply(s, step))
  {
    hide Apply, Enabled;
    RowKeepsStored(s, step);
    OthersStay(s, step);
    var s' := Apply(s, step);
    forall w | w in s'.processes ensures PhaseStored(s'.pauses, s'.processes[w]) {
      if Actor(step) == Some(w) {
        ActorKeepsStored(s, step, w);
      } else {
        assert SameAt(s, s', w) && PhaseStored(s.pauses, s.processes[w]);
      }
    }
  }

  /** Every run resumes from a checkpoint that some run of the trace has saved, but not always the last one. */
  lemma {:induction false} ResumesSavedCheckpoint(steps: seq<Step>)
    requires Run(NOTHING, steps).Some?
    ensures AllStored(Run(NOTHING, steps).value)
    decreases |steps|
  {
    if steps != [] {
      ResumesSavedCheckpoint(steps[..|steps| - 1]);
      StepKeepsStored(Run(NOTHING, steps[..|steps| - 1]).value, steps[|steps| - 1]);
    }
  }

  /** What a run writes at its end: a new checkpoint, with a new id if it waits for a decision of this kind, or
      neither. */
  predicate FreshPause(kind: Kind, pauses: map<nat, RunData>, d: RunData) {
    && (d.checkpoint.None? ==> PendingId(d, kind).None?)
    && (d.checkpoint.Some? ==> d.checkpoint.value !in pauses)
    && (PendingId(d, kind).Some? ==> forall c :: c in pauses ==> PendingId(pauses[c], kind) != PendingId(d, kind))
  }

  predicate FreshStep(kind: Kind, s: State, step: Step) {
    step.Persist? ==> FreshPause(kind, s.pauses, step.data)
  }

  /** A run in which checkpoints and the ids of this kind are never used twice. */
  predicate FreshRun(kind: Kind, steps: seq<Step>) {
    && Run(NOTHING, steps).Some?
    && (steps != [] ==>
          var init := steps[..|steps| - 1];
          && FreshRun(kind, init) && Run(NOTHING, init).Some?
          && FreshStep(kind, Run(NOTHING, init).value, steps[|steps| - 1]))
  }

  /** The data belongs to the pause that its checkpoint was saved with, whatever decision has been added. */
  predicate OfPause(kind: Kind, pauses: map<nat, RunData>, d: RunData) {
    if d.checkpoint.None? then PendingId(d, kind).None?
    else d.checkpoint.value in pauses && PendingId(pauses[d.checkpoint.value], kind) == PendingId(d, kind)
  }

  predicate PhaseOfPause(kind: Kind, pauses: map<nat, RunData>, p: Phase) {
    match p
    case Deciding(k, a, seen) => OfPause(kind, pauses, seen.data) && Matches(seen, k, a)
    case Dealing(data, back) =>
      OfPause(kind, pauses, data) && (back.Some? ==> Undo(kind, pauses, back.value.0, back.value.1))
    case RollingBack(k, back) => Undo(kind, pauses, k, back)
    case Handling(data, _) => OfPause(kind, pauses, data)
    case Releasing(_) => true
  }

  /** What a claim may be rolled back to: data that waits for a decision of the claim's kind. */
  predicate Undo(kind: Kind, pauses: map<nat, RunData>, k: Kind, back: RunData) {
    OfPause(kind, pauses, back) && PendingId(back, k).Some?
  }

  predicate SameRequest(kind: Kind, pauses: map<nat, RunData>, c: nat, c': nat) {
    && c in pauses && c' in pauses
    && PendingId(pauses[c], kind).Some? && PendingId(pauses[c], kind) == PendingId(pauses[c'], kind)
  }

  ghost predicate RequestsNameCheckpoints(kind: Kind, s: State) {
    && (s.row.Some? ==> OfPause(kind, s.pauses, s.row.value.data))
    && (forall w :: w in s.processes ==> PhaseOfPause(kind, s.pauses, s.processes[w]))
    && (forall c, c' :: SameRequest(kind, s.pauses, c, c') ==> c == c')
    && (s.row.None? ==> s.last.None?)
  }

  lemma StepKeepsNames(kind: Kind, s: State, step: Step)
    requires RequestsNameCheckpoints(kind, s) && Enabled(s, step) && FreshStep(kind, s, step)
    ensures RequestsNameCheckpoints(kind, Apply(s, step))
  {
    hide FinalStatus, Enabled, OfPause, PhaseOfPause, FreshPause, SameRequest, Apply;
    if step.Persist? {
      PersistKeepsNames(kind, s, step);
    } else {
      PhasesKeepNames(kind, s, step);
      RowKeepsNames(kind, s, step);
    }
  }

  lemma ActorKeepsNames(kind: Kind, s: State, step: Step, w: int)
    requires RequestsNameCheckpoints(kind, s) && Enabled(s, step) && !step.Persist? && Actor(step) == Some(w)
    ensures w in Apply(s, step).processes ==> PhaseOfPause(kind, s.pauses, Apply(s, step).processes[w])
  {
    hide FinalStatus, Lock, Cancel, Release, Force, Insert, Unclaim, Claim;
    assert w in s.processes ==> PhaseOfPause(kind, s.pauses, s.processes[w]);
  }

  lemma HistoryStays(s: State, step: Step)
    requires Enabled(s, step) && !step.Persist?
    ensures Apply(s, step).pauses == s.pauses && Apply(s, step).last == s.last
  {
    hide FinalStatus, Lock, Cancel, Release, Force, Insert, Unclaim, Claim, Resume;
  }

  lemma PhasesKeepNames(kind: Kind, s: State, step: Step)
    requires RequestsNameCheckpoints(kind, s) && Enabled(s, step) && !step.Persist?
    ensures var s' := Apply(s, step);
            && s'.pauses == s.pauses && s'.last == s.last
            && forall w :: w in s'.processes ==> PhaseOfPause(kind, s.pauses, s'.processes[w])
  {
    hide Apply, PhaseOfPause, Enabled, OfPause, SameRequest;
    HistoryStays(s, step);
    OthersStay(s, step);
    var s' := Apply(s, step);
    forall w | w in s'.processes ensures PhaseOfPause(kind, s.pauses, s'.processes[w]) {
      if Actor(step) == Some(w) {
        ActorKeepsNames(kind, s, step, w);
      } else {
        assert SameAt(s, s', w);
      }
    }
  }

  lemma RowKeepsNames(kind: Kind, s: State, step: Step)
    requires RequestsNameCheckpoints(kind, s) && Enabled(s, step) && !step.Persist?
    ensures Apply(s, step).row.Some? ==> OfPause(kind, s.pauses, Apply(s, step).row.value.data)
    ensures Apply(s, step).row.None? ==> s.row.None?
  {
    hide FinalStatus;
    if step.ClaimRow? || step.Rollback? {
      assert PhaseOfPause(kind, s.pauses, s.processes[step.w]);
    }
  }

  lemma PersistKeepsNames(kind: Kind, s: State, step: Step)
    requires RequestsNameCheckpoints(kind, s) && Enabled(s, step) && FreshStep(kind, s, step) && step.Persist?
    ensures RequestsNameCheckpoints(kind, Apply(s, step))
  {
    var s' := Apply(s, step);
    forall w | w in s.processes ensures PhaseOfPause(kind, s'.pauses, s.processes[w]) {
      assert PhaseOfPause(kind, s.pauses, s.processes[w]);
    }
    forall c, c' | SameRequest(kind, s'.pauses, c, c') ensures c == c' {
      assert SameRequest(kind, s.pauses, c, c') || c == c';
    }
  }

  lemma {:induction false} FreshRunNames(kind: Kind, steps: seq<Step>)
    requires FreshRun(kind, steps)
    ensures Run(NOTHING, steps).Some? && RequestsNameCheckpoints(kind, Run(NOTHING, steps).value)
    decreases |steps|
  {
    if steps != [] {
      FreshRunNames(kind, steps[..|steps| - 1]);
      StepKeepsNames(kind, Run(NOTHING, steps[..|steps| - 1]).value, steps[|steps| - 1]);
    }
  }

  /** An id of a request or of a pending call names one checkpoint. */
  lemma SameRequestSameCheckpoint(kind: Kind, s: State, d: RunData, e: RunData)
    requires RequestsNameCheckpoints(kind, s)
    requires OfPause(kind, s.pauses, d) && OfPause(kind, s.pauses, e) && PendingId(d, kind).Some?
    ensures d.checkpoint == e.checkpoint <==> PendingId(d, kind) == PendingId(e, kind)
  {
    if PendingId(d, kind) == PendingId(e, kind) {
      assert SameRequest(kind, s.pauses, d.checkpoint.value, e.checkpoint.value);
    }
  }

  /** A claim resumes the checkpoint that the row holds when it is claimed exactly if the row still waits for the
      request or the call that is answered, which the statement does not look at. */
  lemma ClaimResumesRowIff(steps: seq<Step>, w: int)
    requires Run(NOTHING, steps).Some?
    requires var s := Run(NOTHING, steps).value;
             && w in s.processes && s.processes[w].Deciding? && FreshRun(s.processes[w].kind, steps)
             && HasStatus(s.row, WaitingFor(s.processes[w].kind))
    ensures var s := Run(NOTHING, steps).value;
            var p, s' := s.processes[w], Apply(s, ClaimRow(w, SideEffects.NoFault));
            && s'.processes[w].Dealing? && s'.row == Some(Row(INIT, s'.processes[w].data))
            && (s'.processes[w].data.checkpoint == s.row.value.data.checkpoint
                <==> PendingId(s.row.value.data, p.kind) == Some(p.answer.id))
  {
    var s := Run(NOTHING, steps).value;
    var p := s.processes[w];
    FreshRunNames(p.kind, steps);
    assert PhaseOfPause(p.kind, s.pauses, p);
    SameRequestSameCheckpoint(p.kind, s, p.seen.data, s.row.value.data);
  }

  /** The same at the lock, where a handler starts with the data of its claim: it runs the checkpoint that the
      row holds exactly if the row still waits for the same request or call. */
  lemma LockRunsRowIff(kind: Kind, steps: seq<Step>, w: int)
    requires FreshRun(kind, steps)
    requires var s := Run(NOTHING, steps).value;
             && w in s.processes && s.processes[w].Dealing? && PendingId(s.processes[w].data, kind).Some?
             && HasStatus(s.row, INIT)
    ensures var s := Run(NOTHING, steps).value;
            var s' := Apply(s, LockRow(w, SideEffects.NoFault));
            && s'.processes[w].Handling?
            && (s'.processes[w].data.checkpoint == s'.row.value.data.checkpoint
                <==> PendingId(s.row.value.data, kind) == PendingId(s.processes[w].data, kind))
  {
    FreshRunNames(kind, steps);
    var s := Run(NOTHING, steps).value;
    assert PhaseOfPause(kind, s.pauses, s.processes[w]);
    SameRequestSameCheckpoint(kind, s, s.processes[w].data, s.row.value.data);
  }

  // ---- When the row holds the last checkpoint ----

  /** The row holds the checkpoint that was saved last. */
  predicate Current(s: State) {
    s.row.Some? ==> s.row.value.data.checkpoint == s.last
  }

  /** A claim of a row that by now waits for something else. */
  predicate StaleClaim(s: State, step: Step) {
    && step.ClaimRow? && step.fault != SideEffects.RaisedBefore && InPhase(s, step.w) && s.processes[step.w].Deciding?
    && var p := s.processes[step.w];
    HasStatus(s.row, WaitingFor(p.kind)) && PendingId(s.row.value.data, p.kind) != Some(p.answer.id)
  }

  /** A claim taken back from a row that by now has another claim. */
  predicate StaleRollback(s: State, step: Step) {
    && step.Rollback? && step.fault != SideEffects.RaisedBefore && HasStatus(s.row, INIT)
    && InPhase(s, step.w) && s.processes[step.w].RollingBack?
    && var p := s.processes[step.w];
    PendingId(s.row.value.data, p.kind) != PendingId(p.original, p.kind)
  }

  /** A step takes the last checkpoint from the row exactly if it is a stale claim or a stale rollback. */
  lemma LastCheckpointLostIff(steps: seq<Step>, step: Step)
    requires FreshRun(ForApproval, steps) && FreshRun(ForReconciliation, steps)
    requires var s := Run(NOTHING, steps).value; Current(s) && Enabled(s, step)
    ensures var s := Run(NOTHING, steps).value;
            !Current(Apply(s, step)) <==> StaleClaim(s, step) || StaleRollback(s, step)
  {
    hide Run, FreshRun, FinalStatus, OfPause, SameRequest;
    FreshRunNames(ForApproval, steps);
    FreshRunNames(ForReconciliation, steps);
    var s := Run(NOTHING, steps).value;
    if step.ClaimRow? && HasStatus(s.row, WaitingFor(s.processes[step.w].kind)) {
      var p := s.processes[step.w];
      assert PhaseOfPause(p.kind, s.pauses, p);
      SameRequestSameCheckpoint(p.kind, s, p.seen.data, s.row.value.data);
    } else if step.Rollback? && HasStatus(s.row, INIT) {
      var p := s.processes[step.w];
      assert PhaseOfPause(p.kind, s.pauses, p);
      SameRequestSameCheckpoint(p.kind, s, p.original, s.row.value.data);
    }
  }

  predicate NeverStale(steps: seq<Step>)
    requires Run(NOTHING, steps).Some?
  {
    steps != [] ==>
      var init, step := steps[..|steps| - 1], steps[|steps| - 1];
      NeverStale(init) && !StaleClaim(Run(NOTHING, init).value, step) && !StaleRollback(Run(NOTHING, init).value, step)
  }

  /** Without such steps the row holds the last checkpoint all along, and so every run goes on from it. */
  lemma {:induction false} LastCheckpointKept(steps: seq<Step>)
    requires FreshRun(ForApproval, steps) && FreshRun(ForReconciliation, steps) && NeverStale(steps)
    ensures Current(Run(NOTHING, steps).value)
    decreases |steps|
  {
    if steps != [] {
      LastCheckpointKept(steps[..|steps| - 1]);
      LastCheckpointLostIff(steps[..|steps| - 1], steps[|steps| - 1]);
    }
  }

  // ---- Two runs that show what is not promised ----

  const NO_DATA := RunData(None, None, None, false, None, None)
  const PAUSE := AgentLoopResult(false, None, Some(APPROVAL_REQUIRED), 1, None, None)

  function PauseFor(kind: Kind): AgentLoopResult {
    if kind == ForApproval then PAUSE else PAUSE.(stopReason := Some(EXECUTION_IN_DOUBT))
  }

  lemma Next(steps: seq<Step>, s: State, step: Step) returns (more: seq<Step>)
    requires Run(NOTHING, steps) == Some(s) && Enabled(s, step)
    ensures steps <= more && Run(NOTHING, more) == Some(Apply(s, step))
    ensures forall k :: FreshRun(k, steps) && FreshStep(k, s, step) ==> FreshRun(k, more)
  {
    more := steps + [step];
    assert more[..|steps|] == steps;
  }

  /** A deal that wins the lock, saves its checkpoint and pauses. */
  lemma RunUntilPause(kind: Kind, steps: seq<Step>, s: State, w: int, data: RunData)
    returns (more: seq<Step>, s': State)
    requires Run(NOTHING, steps) == Some(s) && HasStatus(s.row, INIT)
    requires InPhase(s, w) && s.processes[w].Dealing? && data.checkpoint.Some?
    ensures steps <= more && Run(NOTHING, more) == Some(s')
    ensures s'.row == Some(Row(WaitingFor(kind), data)) && s'.processes == s.processes - {w}
    ensures s'.pauses == s.pauses[data.checkpoint.value := data] && s'.last == data.checkpoint
    ensures forall k :: FreshRun(k, steps) && FreshPause(k, s.pauses, data) ==> FreshRun(k, more)
  {
    hide Run, FreshRun, Cancel, Claim, Unclaim, Force;
    var none := SideEffects.NoFault;
    more := Next(steps, s, LockRow(w, none));
    s' := Apply(s, LockRow(w, none));
    more := Next(more, s', Persist(w, data, none));
    s' := Apply(s', Persist(w, data, none));
    more := Next(more, s', EndHandler(w, Returns(PauseFor(kind))));
    s' := Apply(s', EndHandler(w, Returns(PauseFor(kind))));
    more := Next(more, s', ReleaseRow(w, none));
    s' := Apply(s', ReleaseRow(w, none));
  }

  lemma FirstPause(kind: Kind, data: RunData) returns (steps: seq<Step>, s: State)
    requires data.checkpoint.Some?
    ensures Run(NOTHING, steps) == Some(s) && forall k :: FreshRun(k, steps)
    ensures s == State(Some(Row(WaitingFor(kind), data)), map[], map[data.checkpoint.value := data], data.checkpoint)
  {
    hide Run, FreshRun;
    NoSteps(NOTHING);
    var none := SideEffects.NoFault;
    steps := Next([], NOTHING, Create(0, NO_DATA, none));
    steps, s := RunUntilPause(kind, steps, Apply(NOTHING, Create(0, NO_DATA, none)), 0, data);
  }

  /** A cancellation can be lost: it arrives while the handler runs, and the handler pauses for approval
      before it has polled. The row waits for approval as if nobody had cancelled. */
  lemma CancelCanBeLost(data: RunData) returns (asked: seq<Step>, steps: seq<Step>)
    ensures asked <= steps && Run(NOTHING, asked).Some? && Run(NOTHING, steps).Some?
    ensures HasStatus(Run(NOTHING, asked).value.row, CANCEL_REQUESTED)
    ensures HasStatus(Run(NOTHING, steps).value.row, WAITING_APPROVAL)
  {
    hide Run, FreshRun;
    NoSteps(NOTHING);
    var none := SideEffects.NoFault;
    asked := Next([], NOTHING, Create(0, NO_DATA, none));
    var s := Apply(NOTHING, Create(0, NO_DATA, none));
    asked := Next(asked, s, LockRow(0, none));
    s := Apply(s, LockRow(0, none));
    asked := Next(asked, s, CancelTask(none));
    s := Apply(s, CancelTask(none));
    steps := Next(asked, s, EndHandler(0, Returns(PAUSE)));
    s := Apply(s, EndHandler(0, Returns(PAUSE)));
    steps := Next(steps, s, ReleaseRow(0, none));
  }

  /** A stale answer, an approval or a ruling, brings an old checkpoint back: the endpoint reads the row, a
      second endpoint resolves the same request and the run pauses again with a newer checkpoint, then the
      first one claims the row, since the claim only looks at the status, and runs the old checkpoint. */
  lemma StaleAnswer(kind: Kind, older: RunData, newer: RunData, a: Answer)
    returns (paused: seq<Step>, steps: seq<Step>)
    requires older.checkpoint.Some? && PendingId(older, kind) == Some(a.id) && newer.checkpoint.Some?
    ensures paused <= steps && Run(NOTHING, paused).Some? && Run(NOTHING, steps).Some?
    ensures Run(NOTHING, paused).value.row == Some(Row(WaitingFor(kind), newer))
    ensures var s := Run(NOTHING, steps).value;
            1 in s.processes && s.processes[1] == Handling(Resume(older, kind, a), false)
    ensures forall k :: FreshPause(k, map[older.checkpoint.value := older], newer) ==> FreshRun(k, steps)
  {
    hide Run, FreshRun, FinalStatus, Cancel, Release, Unclaim, Force, Insert;
    var none := SideEffects.NoFault;
    var s: State;
    paused, s := FirstPause(kind, older);
    paused := Next(paused, s, ReadRow(1, kind, a));
    s := Apply(s, ReadRow(1, kind, a));
    paused := Next(paused, s, ReadRow(2, kind, a));
    s := Apply(s, ReadRow(2, kind, a));
    paused := Next(paused, s, ClaimRow(2, none));
    s := Apply(s, ClaimRow(2, none));
    paused, s := RunUntilPause(kind, paused, s, 2, newer);
    steps := Next(paused, s, ClaimRow(1, none));
    s := Apply(s, ClaimRow(1, none));
    steps := Next(steps, s, LockRow(1, none));
  }
}
