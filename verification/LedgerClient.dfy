/**
 The ledger as its clients see it: a database shared with other workers, whose statements are steps of
 the transition system of SideEffects, and the methods of `DBToolExecutionLedger` on top of it.

 Other workers and people may act before every statement; what a statement raises and which steps the others
 take is left open. A worker of the team, whoever it is, puts on the log only what the discipline allows: for
 the worker that runs this is checked at every statement, for the others it is relied on. Workers outside
 the team may do anything.
 */
module LedgerClient {
  import opened Options
  import opened ExecutionLedger
  import opened SideEffects
  import opened Discipline
  import opened AgentState

  datatype SqlReply<T> = Raised | Answer(value: T)

  datatype HandlerReply =
    | Returned(content: string)
    | RaisedNotFound(name: string)
    | RaisedToolError(message: string)
    | RaisedOther(message: string)
    | RaisedCancelled

  /** One attempt of a handler; only time-outs and connection errors are retried. */
  datatype Attempt = Finished(reply: HandlerReply) | Retryable(message: string)

  datatype PlannerAnswer = Replies(message: AssistantReply) | RepliesNothing | PlannerRaises | CancelledBefore

  /** Why a run may not go on: a stop is requested, a constraint is violated, its time is over, or the user has
      cancelled it. */
  datatype Objection = STOP_REQUESTED | VIOLATED | LATE | CANCELLED_BY_USER

  /** What a worker hears from the outside: the goals of a plan, what the planner answers to a goal and a transcript,
      that a run may not go on, that the user has stopped it before a call, that validation refuses a call, how an
      attempt of a handler ended, that a claim was granted, that the row was there already, or that a statement about
      a row raised. */
  datatype News =
    | PlanProposed(trace: string, goals: seq<string>)
    | PlannerAnswered(trace: string, goal: string, transcript: seq<Message>, answer: PlannerAnswer)
    | Objected(trace: string, objection: Objection)
    | StopSeen(trace: string, call: ToolCall)
    | CallRefused(trace: string, call: ToolCall, text: string)
    | AttemptEnded(trace: string, call: ToolCall, attempt: Attempt)
    | ClaimGranted(key: Key)
    | RowFound(key: Key)
    | StatementRaised(key: Key)

  /** The world at one time. */
  datatype Moment = Moment(table: Table, log: seq<Event>, told: seq<News>)

  predicate HeardAt(n: News, a: Moment, b: Moment, i: int) {
    |a.told| <= i < |b.told| && b.told[i] == n
  }

  /** The worker has heard this between two moments. */
  predicate Heard(n: News, a: Moment, b: Moment) {
    exists i :: 0 <= i < |b.told| && HeardAt(n, a, b, i)
  }

  lemma HeardLonger(n: News, a: Moment, b: Moment, a': Moment, b': Moment)
    requires |a'.told| <= |a.told| && b.told <= b'.told && Heard(n, a, b)
    ensures Heard(n, a', b')
  {
    var i :| 0 <= i < |b.told| && HeardAt(n, a, b, i);
    assert HeardAt(n, a', b', i);
  }

  lemma HeardNew(n: News, a: Moment, b: Moment, news: seq<News>)
    requires b.told == a.told + news
    ensures Heard(n, a, b) <==> n in news
  {
    if n in news {
      var i :| 0 <= i < |news| && news[i] == n;
      assert HeardAt(n, a, b, |a.told| + i);
    }
  }

  /** What a worker may rely on when only others act: the table grows, its claim stays, and every new
      log entry is somebody else's. */
  ghost predicate Undisturbed(me: int, s: State, s': State) {
    && Grows(s.table, s'.table)
    && (me in s.claims <==> me in s'.claims)
    && (me in s.claims ==> s'.claims[me] == s.claims[me])
    && OthersOnly(me, s.log, s'.log)
  }

  ghost predicate OthersOnly(me: int, log: seq<Event>, log': seq<Event>) {
    log <= log' && forall i :: |log| <= i < |log'| ==> !OwnedBy(log'[i], me)
  }

  lemma OthersOnlyTransitive(me: int, a: seq<Event>, b: seq<Event>, c: seq<Event>)
    requires OthersOnly(me, a, b) && OthersOnly(me, b, c)
    ensures OthersOnly(me, a, c)
  {
  }

  lemma UndisturbedTransitive(me: int, s: State, s': State, s'': State)
    requires Undisturbed(me, s, s') && Undisturbed(me, s', s'')
    ensures Undisturbed(me, s, s'')
  {
    GrowsTransitive(s.table, s'.table, s''.table);
  }

  predicate By(step: Step, me: int) {
    match step
    case InsertRow(w, _, _, _, _) => w == me
    case StartClaimed(w) => w == me
    case StartFree(w, _, _) => w == me
    case FinishClaim(w, _, _) => w == me
    case Abandon(w) => w == me
    case Resolve(_, _, _, _) => false
    case AskApproval(w, _, _, _) => w == me
    case Decide(_, _) => false
    case ConsumeApproval(w, _, _, _) => w == me
  }

  lemma OthersStep(retry: nat, s: State, step: Step, me: int)
    requires Enabled(retry, s, step) && !By(step, me)
    ensures Undisturbed(me, s, Apply(retry, s, step))
  {
    StepGrows(retry, s, step);
  }

  /** The shared database and outside world. `history` records the run that led to the state, `told` what the outside
      has told the workers that run here. */
  class World {
    var s: State
    var history: seq<Step>
    var told: seq<News>
    const retry: nat
    const law: Law

    ghost predicate Valid()
      reads `s, `history
    {
      Run(retry, history) == Some(s) && Lawful(law, s.log)
    }

    constructor (retry: nat, law: Law)
      ensures Valid() && this.retry == retry && this.law == law && s == EMPTY
    {
      this.retry, this.law := retry, law;
      s, history, told := EMPTY, [], [];
    }

    function Now(): Moment
      reads this
    {
      Moment(s.table, s.log, told)
    }

    /** Whether the outside says so. */
    method Hears(n: News) returns (yes: bool)
      requires Valid()
      modifies `told
      ensures Valid()
      ensures told == old(told) + if yes then [n] else []
    {
      yes := *;
      if yes {
        told := told + [n];
      }
    }

    /** The goals of a plan, none if there is no plan. */
    method AskForPlan(trace: string) returns (goals: seq<string>)
      requires Valid()
      modifies `told
      ensures Valid()
      ensures told == old(told) + [PlanProposed(trace, goals)]
    {
      goals := *;
      told := told + [PlanProposed(trace, goals)];
    }

    /** What the planner answers to a goal and a transcript. */
    method AskPlanner(trace: string, goal: string, transcript: seq<Message>, always: bool)
      returns (answer: PlannerAnswer)
      requires Valid()
      modifies `told
      ensures Valid() && (always ==> !answer.RepliesNothing?)
      ensures told == old(told) + [PlannerAnswered(trace, goal, transcript, answer)]
    {
      answer :| always ==> !answer.RepliesNothing?;
      told := told + [PlannerAnswered(trace, goal, transcript, answer)];
    }

    /** Why validation refuses the call, if it does. */
    method Validate(trace: string, call: ToolCall) returns (refusal: Option<string>)
      requires Valid()
      modifies `told
      ensures Valid()
      ensures told == old(told) + if refusal.Some? then [CallRefused(trace, call, refusal.value)] else []
    {
      refusal := *;
      if refusal.Some? {
        told := told + [CallRefused(trace, call, refusal.value)];
      }
    }

    /** How an attempt of the handler ends. */
    method AwaitHandler(trace: string, call: ToolCall) returns (attempt: Attempt)
      requires Valid()
      modifies `told
      ensures Valid()
      ensures told == old(told) + [AttemptEnded(trace, call, attempt)]
    {
      attempt := *;
      told := told + [AttemptEnded(trace, call, attempt)];
    }

    method Take(step: Step)
      requires Valid() && Enabled(retry, s, step) && StepAllowed(law, s, step)
      modifies `s, `history
      ensures Valid() && history == old(history) + [step]
      ensures s == Apply(retry, old(s), step)
      ensures Grows(old(s.table), s.table)
    {
      StepGrows(retry, s, step);
      AllowedStepIsLawful(law, retry, s, step);
      s, history := Apply(retry, s, step), history + [step];
      assert history[..|history| - 1] == old(history);
    }

    /** Over every run of the team, whatever the others do: at most once, and nothing without approval. */
    lemma TeamIsSafe()
      requires Valid()
      ensures AtMostOnce(law, retry, s) && GateHolds(law, s.log)
    {
      TeamAtMostOnce(law, retry, history);
      LawfulGate(law, s.log);
    }

    /** The worker dies, or the process does, after any of the steps taken so far: what it has done until then
        stays, a claim it holds included. */
    method StopAt(n: nat)
      requires Valid() && n <= |history|
      modifies `s, `history
      ensures Valid() && history == old(history)[..n]
      ensures Run(retry, history) == Some(s)
    {
      OutcomeWrittenOnce(retry, history, n);
      LawfulPrefix(law, Run(retry, history[..n]).value.log, s.log);
      s, history := Run(retry, history[..n]).value, history[..n];
    }

    /** An id for a request: nobody has asked under it. */
    method NewRequestId() returns (id: string)
      requires Valid()
      ensures FreshRequest(s.log, |s.log|, id)
    {
      ghost var witnessed := FreshIdExists(s.log);
      id :| FreshRequest(s.log, |s.log|, id);
    }

    /** The request for a frozen batch becomes known. */
    method Ask(me: int, trace: string, id: string, calls: seq<ToolCall>)
      requires Valid() && FreshRequest(s.log, |s.log|, id)
      modifies `s, `history
      ensures Valid() && old(history) <= history
      ensures s == old(s).(log := old(s).log + [Asked(me, trace, id, calls)])
    {
      Take(AskApproval(me, trace, id, calls));
    }

    /** Others take any steps they can. */
    method Interfere(me: int)
      requires Valid()
      modifies `s, `history
      ensures Valid() && old(history) <= history
      ensures Undisturbed(me, old(s), s)
    {
      var steps: seq<Step> := *;
      for i := 0 to |steps|
        invariant Valid() && old(history) <= history
        invariant Undisturbed(me, old(s), s)
      {
        if !By(steps[i], me) && Enabled(retry, s, steps[i]) && StepAllowed(law, s, steps[i]) {
          ghost var before := s;
          OthersStep(retry, s, steps[i], me);
          Take(steps[i]);
          UndisturbedTransitive(me, old(s), before, s);
        }
      }
    }

    static function InsertNews(key: Key, r: SqlReply<bool>): News {
      if r.Raised? then StatementRaised(key) else if r.value then ClaimGranted(key) else RowFound(key)
    }

    /** What a worker hears when a statement about a row raises, and nothing otherwise. */
    static function RaiseNews(key: Key, raised: bool): seq<News> {
      if raised then [StatementRaised(key)] else []
    }

    /** `INSERT IGNORE`, with the number of affected rows as its answer. */
    method Insert(me: int, trace: string, call: ToolCall, account: int) returns (r: SqlReply<bool>)
      requires Valid() && me !in s.claims
      modifies this
      ensures Valid() && old(history) <= history
      ensures Grows(old(s.table), s.table) && OthersOnly(me, old(s.log), s.log)
      ensures r == Answer(true) <==> me in s.claims
      ensures r == Answer(true) ==> s.claims[me] == Claim(trace, call, account, 0)
      ensures r == Answer(false) ==> CallKey(trace, call) in s.table
      ensures told == old(told) + [InsertNews(CallKey(trace, call), r)]
    {
      Interfere(me);
      var fault: Fault := *;
      var isNew := CallKey(trace, call) !in s.table;
      ghost var before := s;
      Take(InsertRow(me, trace, call, account, fault));
      GrowsTransitive(old(s.table), before.table, s.table);
      r := if fault == NoFault then Answer(isNew) else Raised;
      told := told + [InsertNews(CallKey(trace, call), r)];
    }

    method SelectRow(me: int, key: Key, account: int) returns (r: SqlReply<Option<Row>>)
      requires Valid()
      modifies this
      ensures Valid() && old(history) <= history
      ensures Undisturbed(me, old(s), s)
      ensures r.Answer? ==> r.value == Select(s.table, key, account)
      ensures told == old(told) + RaiseNews(key, r.Raised?)
    {
      Interfere(me);
      var raises: bool := *;
      r := if raises then Raised else Answer(Select(s.table, key, account));
      told := told + RaiseNews(key, raises);
    }

    /** The guarded `UPDATE` of complete and fail, by the holder of the claim. */
    method Finish(me: int, o: Outcome) returns (r: SqlReply<bool>)
      requires Valid() && me in s.claims && s.claims[me].attempts > 0 && GoodOutcome(o)
      modifies this
      ensures Valid() && old(history) <= history
      ensures Grows(old(s.table), s.table) && OthersOnly(me, old(s.log), s.log)
      ensures me !in s.claims
      ensures r == Answer(true) ==> HasOutcome(s.table, old(ClaimKey(s.claims[me])), old(s.claims[me].account), o)
      ensures r == Answer(false) ==> !Updates(s.table, old(ClaimKey(s.claims[me])), old(s.claims[me].account))
      ensures told == old(told) + RaiseNews(old(ClaimKey(s.claims[me])), r.Raised?)
    {
      Interfere(me);
      var fault: Fault := *;
      var c := s.claims[me];
      var updates := Updates(s.table, ClaimKey(c), c.account);
      ghost var before := s;
      Take(FinishClaim(me, o, fault));
      GrowsTransitive(old(s.table), before.table, s.table);
      r := if fault == NoFault then Answer(updates) else Raised;
      told := told + RaiseNews(ClaimKey(c), r.Raised?);
    }

    /** The guarded `UPDATE` of a human ruling. */
    method Rule(me: int, key: Key, account: int, o: Outcome) returns (r: SqlReply<bool>)
      requires Valid() && GoodOutcome(o)
      modifies this
      ensures Valid() && old(history) <= history
      ensures Undisturbed(me, old(s), s)
      ensures r == Answer(true) ==> HasOutcome(s.table, key, account, o)
      ensures r == Answer(false) ==> !Updates(s.table, key, account)
      ensures told == old(told) + RaiseNews(key, r.Raised?)
    {
      Interfere(me);
      var fault: Fault := *;
      var updates := Updates(s.table, key, account);
      ghost var before := s;
      Take(Resolve(key, account, o, fault));
      UndisturbedTransitive(me, old(s), before, s);
      r := if fault == NoFault then Answer(updates) else Raised;
      told := told + RaiseNews(key, r.Raised?);
    }

    /** The handler of the claimed call starts. */
    method StartHandler(me: int)
      requires Valid() && me in s.claims && s.claims[me].attempts <= retry
      requires MayLog(law, s.log, |s.log|, Started(me, s.claims[me].trace, s.claims[me].call, true))
      modifies `s, `history
      ensures Valid() && old(history) <= history
      ensures Grows(old(s.table), s.table)
      ensures me in s.claims
      ensures var c := old(s.claims[me]);
              && s.claims[me] == c.(attempts := c.attempts + 1)
              && LoggedOnce(me, Started(me, c.trace, c.call, true), old(s.log), s.log)
    {
      ghost var e := Started(me, s.claims[me].trace, s.claims[me].call, true);
      Interfere(me);
      ghost var before := s;
      MayLogLater(law, old(s.log), s.log, |old(s.log)|, |s.log|, e);
      Take(StartClaimed(me));
      GrowsTransitive(old(s.table), before.table, s.table);
    }

    /** The handler of a call that needs no ledger starts. */
    method StartFreely(me: int, trace: string, call: ToolCall)
      requires Valid() && me !in s.claims && MayLog(law, s.log, |s.log|, Started(me, trace, call, false))
      modifies `s, `history
      ensures Valid() && old(history) <= history
      ensures Grows(old(s.table), s.table) && me !in s.claims
      ensures LoggedOnce(me, Started(me, trace, call, false), old(s.log), s.log)
    {
      Interfere(me);
      ghost var before := s;
      MayLogLater(law, old(s.log), s.log, |old(s.log)|, |s.log|, Started(me, trace, call, false));
      Take(StartFree(me, trace, call));
      GrowsTransitive(old(s.table), before.table, s.table);
    }

    /** The worker drops its claim without an outcome: the call stays `running`. */
    method DropClaim(me: int)
      requires Valid() && me in s.claims
      modifies `s, `history
      ensures Valid() && old(history) <= history
      ensures Grows(old(s.table), s.table) && OthersOnly(me, old(s.log), s.log)
      ensures me !in s.claims
    {
      Interfere(me);
      ghost var before := s;
      Take(Abandon(me));
      GrowsTransitive(old(s.table), before.table, s.table);
    }

    /** An approve decision that a person has made on these frozen calls is consumed. */
    method RecordApproval(me: int, trace: string, d: ApprovalDecision, calls: seq<ToolCall>)
      requires Valid() && me !in s.claims && d.approve
      requires AnsweredBefore(law, s.log, |s.log|, trace, d, calls)
      modifies `s, `history
      ensures Valid() && old(history) <= history
      ensures Grows(old(s.table), s.table) && me !in s.claims
      ensures LoggedOnce(me, Approved(me, trace, d, calls), old(s.log), s.log)
    {
      Interfere(me);
      ghost var before := s;
      AnsweredLater(law, old(s.log), s.log, |old(s.log)|, |s.log|, trace, d, calls);
      Take(ConsumeApproval(me, trace, d, calls));
      GrowsTransitive(old(s.table), before.table, s.table);
    }
  }

  /** `e` is the only own entry that was added, and the last one. */
  ghost predicate LoggedOnce(me: int, e: Event, log: seq<Event>, log': seq<Event>) {
    log < log' && log'[|log'| - 1] == e && OthersOnly(me, log, log'[..|log'| - 1])
  }

  predicate HasOutcome(t: Table, key: Key, account: int, o: Outcome) {
    key in t && t[key].account == account && t[key].status == o.status && t[key].result == o.result
    && t[key].error == o.error
  }

  datatype LedgerClaim =
    | Claimed
    | AlreadyCompleted(result: string)
    | AlreadyFailed(error: string)
    | InDoubt
    | ClaimError(message: string)

  datatype ClaimFault = LEDGER_DOWN | ROW_GONE | ID_REUSED

  function ClaimText(fault: ClaimFault): string {
    match fault
    case LEDGER_DOWN => "tool execution ledger is unavailable"
    case ROW_GONE => "tool execution claim disappeared"
    case ID_REUSED => "tool_call_id was reused with different tool name or arguments"
  }

  /** How complete, fail and resolve end. Everything but `Done` is a raised ledger error. */
  datatype LedgerReply =
    | Done
    | Unavailable
    | LostOwnership
    | RecordMissing
    | DifferentOutcome
    | BadDecision

  const DEFAULT_FAILURE := "human reconciliation marked execution as failed"

  /** The outcome a ruling asks for, or None when the ruling is malformed. */
  function Ruling(decision: string, resultContent: Option<string>, errorMessage: Option<string>): (o: Option<Outcome>)
    ensures o.Some? ==> GoodOutcome(o.value)
  {
    if decision == "completed" then
      if resultContent.None? then None else Some(Outcome(Completed, resultContent, None))
    else if decision == "failed" then
      var e := if errorMessage.None? || errorMessage.value == "" then DEFAULT_FAILURE else errorMessage.value;
      Some(Outcome(Failed, None, Some(e)))
    else None
  }

  /** "completed" asks for a completed row with the given content and needs one; "failed" asks for a failed row with the
      given text, or a default one for none; anything else asks for nothing. */
  lemma RulingAsks(decision: string, resultContent: Option<string>, errorMessage: Option<string>)
    ensures var o := Ruling(decision, resultContent, errorMessage);
            && (o.None? <==> !(decision == "failed" || (decision == "completed" && resultContent.Some?)))
            && (decision == "completed" && o.Some? ==> o.value == Outcome(Completed, resultContent, None))
            && (decision == "failed" ==>
                  && o.value.status == Failed && o.value.result.None? && o.value.error.Some?
                  && o.value.error.value != ""
                  && (errorMessage.Some? && errorMessage.value != "" ==> o.value.error == errorMessage))
  {
    assert |"completed"| != |"failed"|;
  }

  /** The comparison of a repeated ruling with the stored row. */
  predicate SameOutcome(row: Row, o: Outcome) {
    row.status == o.status && if o.status == Completed then row.result == o.result else row.error == o.error
  }

  lemma ClaimHasRow(retry: nat, history: seq<Step>, me: int)
    requires Run(retry, history).Some? && me in Run(retry, history).value.claims
    ensures var s := Run(retry, history).value;
            ClaimKey(s.claims[me]) in s.table && s.table[ClaimKey(s.claims[me])].account == s.claims[me].account
  {
    ReachableInv(retry, history);
    assert ClaimOk(retry, Run(retry, history).value, Run(retry, history).value.claims[me]);
  }

  lemma OutcomeThere(retry: nat, history: seq<Step>, key: Key)
    requires Run(retry, history).Some? && key in Run(retry, history).value.table
    ensures var row := Run(retry, history).value.table[key];
            (row.status == Completed ==> row.result.Some?) && (row.status == Failed ==> row.error.Some?)
  {
    ReachableInv(retry, history);
  }

  /** What a worker has heard of the claim of a row. */
  lemma ClaimHeard(key: Key, a: Moment, b: Moment, inserted: SqlReply<bool>)
    requires b.told == a.told + [World.InsertNews(key, inserted)]
    ensures Heard(ClaimGranted(key), a, b) <==> inserted == Answer(true)
    ensures inserted.Raised? ==> Heard(StatementRaised(key), a, b)
  {
    HeardNew(ClaimGranted(key), a, b, [World.InsertNews(key, inserted)]);
    HeardNew(StatementRaised(key), a, b, [World.InsertNews(key, inserted)]);
  }

  lemma RowHeard(key: Key, a: Moment, b: Moment, raised: bool)
    requires b.told == a.told + [World.InsertNews(key, Answer(false))] + World.RaiseNews(key, raised)
    ensures !Heard(ClaimGranted(key), a, b) && Heard(RowFound(key), a, b)
    ensures raised ==> Heard(StatementRaised(key), a, b)
  {
    var news := [RowFound(key)] + World.RaiseNews(key, raised);
    assert b.told == a.told + news;
    HeardNew(ClaimGranted(key), a, b, news);
    HeardNew(RowFound(key), a, b, news);
    HeardNew(StatementRaised(key), a, b, news);
  }

  lemma RowThatFits(t: Table, key: Key, account: int, call: ToolCall)
    requires key in t
    ensures ForeignRow(t, key, account) <==> Select(t, key, account).None?
    ensures Select(t, key, account).Some? ==>
              var row := Select(t, key, account).value;
              RowFits(t, key, account, call, row.tool == call.name && row.digest == call.arguments)
    ensures Select(t, key, account).Some? ==> t[key] == Select(t, key, account).value && t[key].account == account
  {
  }

  lemma InTableLater(key: Key, t: Table, t': Table)
    requires key in t && Grows(t, t')
    ensures key in t' && t'[key].account == t[key].account
  {
  }

  class DBToolExecutionLedger {
    const database: World
    const account: int

    constructor (database: World, account: int)
      ensures this.database == database && this.account == account
    {
      this.database, this.account := database, account;
    }

    method ClaimCall(me: int, trace: string, call: ToolCall) returns (r: LedgerClaim)
      requires database.Valid() && me !in database.s.claims
      modifies database
      ensures database.Valid() && old(database.history) <= database.history
      ensures Grows(old(database.s.table), database.s.table)
      ensures OthersOnly(me, old(database.s.log), database.s.log)
      ensures r == Claimed <==> me in database.s.claims
      ensures r == Claimed ==> database.s.claims[me] == Claim(trace, call, account, 0)
      ensures old(database.told) <= database.told
      ensures r.Claimed? <==> Heard(ClaimGranted(CallKey(trace, call)), old(database.Now()), database.Now())
      ensures !r.Claimed? ==> ClaimRefused(trace, call, account, r, old(database.Now()), database.Now())
      ensures !r.Claimed? && !r.ClaimError? ==> Answers(database.s.table, CallKey(trace, call), account, call, r)
    {
      hide SideEffects.Run, Lawful, Grows, Heard, ForeignRow, RowFits, World.InsertNews, World.RaiseNews, OthersOnly,
        ClaimText;
      ghost var start, key := database.Now(), CallKey(trace, call);
      var inserted := database.Insert(me, trace, call, account);
      ClaimHeard(key, start, database.Now(), inserted);
      if inserted.Raised? {
        return ClaimError(ClaimText(LEDGER_DOWN));
      }
      if inserted.value {
        return Claimed;
      }
      ghost var table, log := database.s.table, database.s.log;
      var answer := database.SelectRow(me, CallKey(trace, call), account);
      GrowsTransitive(old(database.s.table), table, database.s.table);
      OthersOnlyTransitive(me, old(database.s.log), log, database.s.log);
      RowHeard(key, start, database.Now(), answer.Raised?);
      InTableLater(key, table, database.s.table);
      RowThatFits(database.s.table, key, account, call);
      if answer.Raised? {
        return ClaimError(ClaimText(LEDGER_DOWN));
      }
      if answer.value.None? {
        return ClaimError(ClaimText(ROW_GONE));
      }
      var row := answer.value.value;
      if row.tool != call.name || row.digest != call.arguments {
        return ClaimError(ClaimText(ID_REUSED));
      }
      OutcomeThere(database.retry, database.history, key);
      match row.status
      case Completed => r := AlreadyCompleted(row.result.value);
      case Failed => r := AlreadyFailed(row.error.value);
      case Running => r := InDoubt;
    }

    /** `complete` and `fail`. */
    method FinishCall(me: int, o: Outcome) returns (r: LedgerReply)
      requires database.Valid() && me in database.s.claims && database.s.claims[me].attempts > 0 && GoodOutcome(o)
      modifies database
      ensures database.Valid() && old(database.history) <= database.history
      ensures Grows(old(database.s.table), database.s.table)
      ensures OthersOnly(me, old(database.s.log), database.s.log)
      ensures me !in database.s.claims
      ensures r == Done || r == Unavailable || r == LostOwnership
      ensures r == Done ==>
                HasOutcome(database.s.table, old(ClaimKey(database.s.claims[me])), old(database.s.claims[me].account),
                           o)
      ensures old(database.told) <= database.told
      ensures r == Unavailable <==>
              Heard(StatementRaised(old(ClaimKey(database.s.claims[me]))), old(database.Now()), database.Now())
      ensures r == LostOwnership ==> SettledRow(database.s.table, old(ClaimKey(database.s.claims[me])))
    {
      hide SideEffects.Run, Lawful, Grows, Heard;
      ghost var start, key, table := database.Now(), ClaimKey(database.s.claims[me]), database.s.table;
      ClaimHasRow(database.retry, database.history, me);
      var affected := database.Finish(me, o);
      InTableLater(key, table, database.s.table);
      HeardNew(StatementRaised(key), start, database.Now(), World.RaiseNews(key, affected.Raised?));
      r := if affected.Raised? then Unavailable else if affected.value then Done else LostOwnership;
    }

    /** A human ruling. It ends with `Done` only if the row has the outcome asked for, whether this call
        or an earlier one wrote it, and with `DifferentOutcome` only if the row has another one. */
    method Resolve(me: int, trace: string, callId: string, decision: string,
                   resultContent: Option<string>, errorMessage: Option<string>) returns (r: LedgerReply)
      requires database.Valid()
      modifies database
      ensures database.Valid() && old(database.history) <= database.history
      ensures Undisturbed(me, old(database.s), database.s)
      ensures r == BadDecision <==> Ruling(decision, resultContent, errorMessage).None?
      ensures r != BadDecision && r != Unavailable ==>
                var row := Select(database.s.table, Key(trace, callId), account);
                var o := Ruling(decision, resultContent, errorMessage).value;
                && (r == Done <==> row.Some? && SameOutcome(row.value, o))
                && (r == DifferentOutcome <==> row.Some? && !SameOutcome(row.value, o))
                && (r == RecordMissing <==> row.None?)
      ensures old(database.told) <= database.told
      ensures r == Unavailable <==>
              Heard(StatementRaised(Key(trace, callId)), old(database.Now()), database.Now())
      ensures r != LostOwnership
    {
      hide SideEffects.Run, Lawful, Heard, Ruling;
      var ruling := Ruling(decision, resultContent, errorMessage);
      if ruling.None? {
        HeardNew(StatementRaised(Key(trace, callId)), database.Now(), database.Now(), []);
        return BadDecision;
      }
      var o, key := ruling.value, Key(trace, callId);
      ghost var start := database.Now();
      var affected := database.Rule(me, key, account, o);
      ghost var news := World.RaiseNews(key, affected.Raised?);
      HeardNew(StatementRaised(key), start, database.Now(), news);
      if affected.Raised? {
        return Unavailable;
      }
      if affected.value {
        return Done;
      }
      ghost var before := database.s;
      var answer := database.SelectRow(me, key, account);
      UndisturbedTransitive(me, old(database.s), before, database.s);
      news := news + World.RaiseNews(key, answer.Raised?);
      assert database.told == start.told + news;
      HeardNew(StatementRaised(key), start, database.Now(), news);
      if answer.Raised? {
        return Unavailable;
      }
      if answer.value.None? {
        return RecordMissing;
      }
      r := if SameOutcome(answer.value.value, o) then Done else DifferentOutcome;
    }
  }

  /** The row has an outcome. */
  predicate SettledRow(t: Table, key: Key) {
    key in t && t[key].status != Running
  }

  predicate ForeignRow(t: Table, key: Key, account: int) {
    key in t && t[key].account != account
  }

  /** The row was claimed under this account, with this tool and these arguments or with others. */
  predicate RowFits(t: Table, key: Key, account: int, call: ToolCall, fits: bool) {
    key in t && t[key].account == account && (fits <==> t[key].tool == call.name && t[key].digest == call.arguments)
  }

  /** Why a claim was not granted: a statement raised, the row is somebody else's, or it was there already and says
      what is answered. A row in doubt may get its outcome later. */
  predicate ClaimRefused(trace: string, call: ToolCall, account: int, r: LedgerClaim, a: Moment, b: Moment) {
    var key, t := CallKey(trace, call), b.table;
    match r
    case Claimed => false
    case ClaimError(text) =>
      || (text == ClaimText(LEDGER_DOWN) && Heard(StatementRaised(key), a, b))
      || (text == ClaimText(ROW_GONE) && Heard(RowFound(key), a, b) && ForeignRow(t, key, account))
      || (text == ClaimText(ID_REUSED) && Heard(RowFound(key), a, b) && RowFits(t, key, account, call, false))
    case AlreadyCompleted(_) => Heard(RowFound(key), a, b) && Answers(t, key, account, call, r)
    case AlreadyFailed(_) => Heard(RowFound(key), a, b) && Answers(t, key, account, call, r)
    case InDoubt => Heard(RowFound(key), a, b) && RowFits(t, key, account, call, true)
  }

  /** What a claim that is not granted says about the call's row. */
  predicate Answers(t: Table, key: Key, account: int, call: ToolCall, r: LedgerClaim) {
    && key in t && t[key].account == account && t[key].tool == call.name && t[key].digest == call.arguments
    && match r
       case AlreadyCompleted(c) => t[key].status == Completed && t[key].result == Some(c)
       case AlreadyFailed(e) => t[key].status == Failed && t[key].error == Some(e)
       case InDoubt => t[key].status == Running
       case _ => true
  }
}
