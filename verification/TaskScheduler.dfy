/**
 The scheduler and the two resume endpoints, statement by statement, as processes of the transition system
 of TaskRow. Others may act before every statement; what a statement raises, how a handler ends and what
 the concurrency check and the ledger say is left open.
 */
module TaskScheduling {
  import opened Options
  import opened TaskStatuses
  import opened TaskRow
  import SideEffects

  datatype DealReply = Started | ConcurrencyLimit | AlreadyProcessing | DealRaised

  datatype Reply =
    | Resumed
    | NotFound
    | BadRequest
    | MissingCheckpoint
    | NotWaiting
    | AlreadyResolved
    | LedgerRefused
    | NotScheduled(why: DealReply)
    | EndpointRaised

  predicate By(step: Step, me: int) {
    match step
    case CancelTask(_) => false
    case ForceRelease(_) => false
    case _ => step.w == me
  }

  /** The process is where it was. */
  ghost predicate SamePhase(me: int, s: State, s': State) {
    (me in s.processes <==> me in s'.processes) && (me in s.processes ==> s'.processes[me] == s.processes[me])
  }

  /** The row had this value at some point of the run. */
  ghost predicate WasRow(steps: seq<Step>, from: nat, row: Option<Row>) {
    exists n :: from <= n <= |steps| && Run(NOTHING, steps[..n]).Some? && Run(NOTHING, steps[..n]).value.row == row
  }

  lemma WasRowLater(steps: seq<Step>, more: seq<Step>, from: nat, row: Option<Row>)
    requires WasRow(steps, from, row) && steps <= more
    ensures WasRow(more, from, row)
  {
    var n :| from <= n <= |steps| && Run(NOTHING, steps[..n]).Some? && Run(NOTHING, steps[..n]).value.row == row;
    assert more[..n] == steps[..n];
  }

  /** The last step that this process has taken. */
  function LastOwn(history: seq<Step>, me: int): Option<Step> {
    if history == [] then None
    else if By(history[|history| - 1], me) then Some(history[|history| - 1])
    else LastOwn(history[..|history| - 1], me)
  }

  /** A refused deal ends with the rollback of its claim, and nothing else does. */
  predicate RolledBackIff(reply: Reply, last: Option<Step>, me: int) {
    && (reply.NotScheduled? <==> last.Some? && last.value.Rollback?)
    && (reply == Resumed ==> last == Some(LockRow(me, SideEffects.NoFault)))
    && (reply == AlreadyResolved ==> last == Some(ClaimRow(me, SideEffects.NoFault)))
  }

  class TaskTable {
    var s: State
    ghost var history: seq<Step>

    ghost predicate Valid()
      reads this
    {
      Run(NOTHING, history) == Some(s)
    }

    constructor ()
      ensures Valid() && s == NOTHING
    {
      s, history := NOTHING, [];
    }

    method Take(step: Step)
      requires Valid() && Enabled(s, step)
      modifies this
      ensures Valid() && history == old(history) + [step] && s == Apply(old(s), step)
      ensures forall w :: LastOwn(history, w) == if By(step, w) then Some(step) else LastOwn(old(history), w)
    {
      s, history := Apply(s, step), history + [step];
      assert history[..|history| - 1] == old(history);
    }

    method Interfere(me: int)
      requires Valid()
      modifies this
      ensures Valid() && old(history) <= history && SamePhase(me, old(s), s)
      ensures LastOwn(history, me) == LastOwn(old(history), me)
    {
      var steps: seq<Step> := *;
      for i := 0 to |steps|
        invariant Valid() && old(history) <= history && SamePhase(me, old(s), s)
        invariant LastOwn(history, me) == LastOwn(old(history), me)
      {
        if !By(steps[i], me) && Enabled(s, steps[i]) {
          Take(steps[i]);
        }
      }
    }

    /** `_run_with_guard` up to the start of the wrapper. For an endpoint the row exists, so that the insert
        changes nothing. It answers `Started` exactly if this process now runs the handler. A query or
        statement that raises ends the process where it is: nothing is rolled back. */
    method RunWithGuard(me: int, data: RunData, back: Option<(Kind, RunData)>) returns (r: DealReply)
      requires Valid()
      requires if back.Some? then me in s.processes && s.processes[me] == Dealing(data, back)
               else me !in s.processes && NewData(data)
      modifies this
      ensures Valid() && old(history) <= history
      ensures r == Started <==> me in s.processes && s.processes[me].Handling?
      ensures r == Started ==> s.processes[me] == Handling(data, false)
      ensures r != Started ==>
                if back.Some? && r != DealRaised
                then me in s.processes && s.processes[me] == RollingBack(back.value.0, back.value.1)
                else me !in s.processes
      ensures r == Started || r == AlreadyProcessing ==> LastOwn(history, me) == Some(LockRow(me, SideEffects.NoFault))
      ensures r == DealRaised && back.Some? ==>
                LastOwn(history, me).Some? && (LastOwn(history, me).value.Crash? || LastOwn(history, me).value.LockRow?)
      ensures r == ConcurrencyLimit ==>
                LastOwn(history, me) == if back.Some? then Some(RefuseDeal(me)) else LastOwn(old(history), me)
    {
      hide TaskRow.Run, FinalStatus;
      var raises: bool, limit: bool, fault: Fault := *, *, *;
      Interfere(me);
      if raises {
        if back.Some? {
          Take(Crash(me));
        }
        return DealRaised;
      }
      if limit {
        if back.Some? {
          Take(RefuseDeal(me));
        }
        return ConcurrencyLimit;
      }
      if back.None? {
        Take(Create(me, data, fault));
        if fault != SideEffects.NoFault {
          return DealRaised;
        }
      }
      Interfere(me);
      fault := *;
      var locked := HasStatus(s.row, INIT);
      Take(LockRow(me, fault));
      r := if fault != SideEffects.NoFault then DealRaised else if locked then Started else AlreadyProcessing;
    }

    /** The wrapper: whatever the handler does and however it ends, the process gives the row up. Unless the
        release has failed, the row is then finished or waits for a decision. */
    method TaskWrapper(me: int) returns (fault: Fault)
      requires Valid() && me in s.processes && s.processes[me].Handling?
      modifies this
      ensures Valid() && old(history) <= history && me !in s.processes
      ensures fault != SideEffects.RaisedBefore ==> s.row.Some? && Returnable(s.row.value.status)
      ensures LastOwn(history, me) == Some(ReleaseRow(me, fault))
    {
      var work: int := *;
      while work > 0
        invariant Valid() && old(history) <= history && me in s.processes && s.processes[me].Handling?
      {
        Interfere(me);
        var polls: bool, data: RunData, lost: Fault := *, *, *;
        Take(if polls then PollCancel(me) else Persist(me, data, lost));
        work := work - 1;
      }
      Interfere(me);
      var ending: Ending := *;
      Take(EndHandler(me, ending));
      Interfere(me);
      SingleWorker(history);
      assert Holds(s, me);
      fault := *;
      Take(ReleaseRow(me, fault));
    }

    /** The second half of both endpoints: claim the row unless an earlier claim is being recovered, deal, and
        roll the claim back if the deal is refused. If the deal or the query for the last event raises, the claim
        stays. */
    method ClaimAndDeal(me: int, kind: Kind, a: Answer, row: Row) returns (reply: Reply)
      requires Valid() && me in s.processes
      requires if row.status == INIT then s.processes[me] == Dealing(Resume(row.data, kind, a), Some((kind, row.data)))
               else s.processes[me] == Deciding(kind, a, row)
      modifies this
      ensures Valid() && old(history) <= history
      ensures reply == Resumed || reply == EndpointRaised || reply.NotScheduled?
              || (reply == AlreadyResolved && row.status != INIT)
      ensures if reply == Resumed
              then me in s.processes && s.processes[me] == Handling(Resume(row.data, kind, a), false)
              else me !in s.processes
      ensures RolledBackIff(reply, LastOwn(history, me), me)
    {
      hide TaskRow.Run, FinalStatus;
      if row.status != INIT {
        Interfere(me);
        var fault: Fault := *;
        var affected := HasStatus(s.row, WaitingFor(kind));
        Take(ClaimRow(me, fault));
        if fault != SideEffects.NoFault {
          return EndpointRaised;
        }
        if !affected {
          return AlreadyResolved;
        }
      }
      var raises: bool := *;
      if raises {
        Interfere(me);
        Take(Crash(me));
        return EndpointRaised;
      }
      var dealt := RunWithGuard(me, Resume(row.data, kind, a), Some((kind, row.data)));
      if dealt != Started && dealt != DealRaised {
        Interfere(me);
        var fault: Fault := *;
        Take(Rollback(me, fault));
      }
      reply := if dealt == Started then Resumed else if dealt == DealRaised then EndpointRaised
      else NotScheduled(dealt);
    }

    method ReadTheRow(me: int) returns (seen: Option<Row>)
      requires Valid()
      modifies this
      ensures Valid() && old(history) <= history && SamePhase(me, old(s), s)
      ensures LastOwn(history, me) == LastOwn(old(history), me)
      ensures seen == s.row && WasRow(history, |old(history)|, seen)
    {
      Interfere(me);
      seen := s.row;
      assert history[..|history|] == history;
    }

    /** A decision that fits the row that was read: the ledger is asked about a ruling, then the row is claimed. */
    method ResumeRow(me: int, kind: Kind, a: Answer, row: Row) returns (reply: Reply)
      requires Valid() && me !in s.processes && s.row == Some(row) && Enabled(s, ReadRow(me, kind, a))
      modifies this
      ensures Valid() && old(history) <= history
      ensures reply == Resumed || reply == EndpointRaised || reply.NotScheduled? || reply.LedgerRefused?
              || (reply == AlreadyResolved && row.status != INIT)
      ensures if reply == Resumed
              then me in s.processes && s.processes[me] == Handling(Resume(row.data, kind, a), false)
              else me !in s.processes
      ensures reply.LedgerRefused? ==> kind == ForReconciliation
      ensures RolledBackIff(reply, LastOwn(history, me), me)
    {
      hide TaskRow.Run, FinalStatus;
      Take(ReadRow(me, kind, a));
      var refused: bool := *;
      if kind == ForReconciliation && refused {
        Interfere(me);
        Take(Crash(me));
        return LedgerRefused;
      }
      reply := ClaimAndDeal(me, kind, a, row);
    }

    /** `resolve_approval` and `resolve_reconciliation`. The run is resumed only by a decision on what the row
        that was read waits for, with exactly the data that was read; a process that answers anything else
        keeps no claim. */
    method ResolvePending(me: int, kind: Kind, a: Answer) returns (reply: Reply, seen: Option<Row>)
      requires Valid() && me !in s.processes
      modifies this
      ensures Valid() && old(history) <= history
      ensures WasRow(history, |old(history)|, seen)
      ensures reply == NotFound <==> seen.None?
      ensures reply == BadRequest <==> seen.Some? && PendingId(seen.value.data, kind) != Some(a.id)
      ensures reply == MissingCheckpoint <==>
              seen.Some? && PendingId(seen.value.data, kind) == Some(a.id) && seen.value.data.checkpoint.None?
      ensures reply == NotWaiting <==>
              seen.Some? && Matches(seen.value, kind, a) && seen.value.status != WaitingFor(kind)
              && seen.value.status != INIT
      ensures seen.Some? && Matches(seen.value, kind, a) && seen.value.status == INIT
              && !Recovering(seen.value, kind, a) ==>
                reply == AlreadyResolved
      ensures if reply == Resumed
              then me in s.processes && s.processes[me] == Handling(Resume(seen.value.data, kind, a), false)
              else me !in s.processes
      ensures reply.LedgerRefused? ==> kind == ForReconciliation
      ensures seen.Some? && Matches(seen.value, kind, a)
              && (seen.value.status == WaitingFor(kind) || Recovering(seen.value, kind, a)) ==>
                RolledBackIff(reply, LastOwn(history, me), me)
    {
      hide TaskRow.Run, WasRow, FinalStatus;
      seen := ReadTheRow(me);
      ghost var read := history;
      if seen.None? {
        return NotFound, seen;
      }
      var row := seen.value;
      if PendingId(row.data, kind) != Some(a.id) {
        return BadRequest, seen;
      }
      if row.data.checkpoint.None? {
        return MissingCheckpoint, seen;
      }
      if row.status != WaitingFor(kind) && row.status != INIT {
        return NotWaiting, seen;
      }
      if row.status == INIT && !Recovering(row, kind, a) {
        return AlreadyResolved, seen;
      }
      reply := ResumeRow(me, kind, a, row);
      WasRowLater(read, history, |old(history)|, seen);
    }
  }
}
