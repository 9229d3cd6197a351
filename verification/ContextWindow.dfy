/**
 Cutting the middle out of a message list that is over its token limit. The first system message and the
 most recent messages stay, and an assistant message takes the results of its calls along.
 */
module ContextWindow {
  import opened Options
  import opened SideEffects
  import opened AgentState

  /** The encoder and the JSON text of tool calls are parameters. */
  datatype TokenCounter = TokenCounter(encode: string -> nat, json: seq<ToolCall> -> string)

  function Count(t: TokenCounter, text: string): nat {
    if text == "" then 0 else t.encode(text)
  }

  function MessageTokens(t: TokenCounter, m: Message): (n: nat)
    ensures n >= 4
  {
    Count(t, m.content) + (if m.Assistant? && m.calls != [] then Count(t, t.json(m.calls)) else 0) + 4
  }

  /** Tool calls are paid for by their text, on top of the content. */
  lemma CallsCount(t: TokenCounter, content: string, calls: seq<ToolCall>)
    ensures MessageTokens(t, Assistant(content, calls))
         == MessageTokens(t, Assistant(content, [])) + (if calls == [] then 0 else Count(t, t.json(calls)))
    ensures MessageTokens(t, Assistant(content, [])) == MessageTokens(t, User(content)) == Count(t, content) + 4
  {
  }

  function CountMessages(t: TokenCounter, ms: seq<Message>): nat {
    if ms == [] then 0 else CountMessages(t, ms[..|ms| - 1]) + MessageTokens(t, ms[|ms| - 1])
  }

  lemma {:induction false} CountConcat(t: TokenCounter, a: seq<Message>, b: seq<Message>)
    ensures CountMessages(t, a + b) == CountMessages(t, a) + CountMessages(t, b)
    decreases |b|
  {
    if b == [] {
      assert a + b == a;
    } else {
      CountConcat(t, a, b[..|b| - 1]);
      assert (a + b)[..|a + b| - 1] == a + b[..|b| - 1];
    }
  }

  // ---- Index sets ----

  /** The messages at these positions, in order. */
  function Select(ms: seq<Message>, kept: set<int>): seq<Message> {
    if ms == [] then []
    else
      var n := |ms| - 1;
      Select(ms[..n], kept) + if n in kept then [ms[n]] else []
  }

  function Cost(t: TokenCounter, ms: seq<Message>, kept: set<int>): nat {
    CountMessages(t, Select(ms, kept))
  }

  /** Counting overlapping groups separately counts at least what is kept. */
  lemma {:induction false} CostUnion(t: TokenCounter, ms: seq<Message>, a: set<int>, b: set<int>)
    ensures Cost(t, ms, a + b) <= Cost(t, ms, a) + Cost(t, ms, b)
    decreases |ms|
  {
    if ms != [] {
      var n := |ms| - 1;
      CostUnion(t, ms[..n], a, b);
      CostStep(t, ms, a);
      CostStep(t, ms, b);
      CostStep(t, ms, a + b);
    }
  }

  lemma CostStep(t: TokenCounter, ms: seq<Message>, kept: set<int>)
    requires ms != []
    ensures Cost(t, ms, kept) == Cost(t, ms[..|ms| - 1], kept)
                                 + if |ms| - 1 in kept then MessageTokens(t, ms[|ms| - 1]) else 0
  {
    var n := |ms| - 1;
    CountConcat(t, Select(ms[..n], kept), if n in kept then [ms[n]] else []);
    if n in kept {
      assert [ms[n]][..0] == [];
      assert CountMessages(t, [ms[n]]) == MessageTokens(t, ms[n]);
    }
  }

  lemma {:induction false} CostSubset(t: TokenCounter, ms: seq<Message>, a: set<int>, b: set<int>)
    requires a <= b
    ensures Cost(t, ms, a) <= Cost(t, ms, b)
    decreases |ms|
  {
    if ms != [] {
      CostSubset(t, ms[..|ms| - 1], a, b);
      CostStep(t, ms, a);
      CostStep(t, ms, b);
    }
  }

  // ---- Groups ----

  /** The last tool message with this call id. */
  function LastResult(ms: seq<Message>, id: string): (r: Option<nat>)
    ensures r.Some? ==> r.value < |ms| && ms[r.value].Tool? && ms[r.value].id == id
    ensures forall j :: (if r.Some? then r.value < j else 0 <= j) && j < |ms| && ms[j].Tool? ==> ms[j].id != id
  {
    if ms == [] then None
    else
      var n := |ms| - 1;
      if ms[n].Tool? && ms[n].id == id then Some(n)
      else
        var r := LastResult(ms[..n], id);
        assert forall j :: 0 <= j < n ==> ms[..n][j] == ms[j];
        r
  }

  function ResultsOf(ms: seq<Message>, calls: seq<ToolCall>): (r: set<int>)
    ensures forall j :: j in r ==> 0 <= j < |ms| && ms[j].Tool?
  {
    set k | 0 <= k < |calls| && calls[k].id != "" && LastResult(ms, calls[k].id).Some? ::
      LastResult(ms, calls[k].id).value
  }

  /** A message and, for an assistant message, the last result of each of its calls. */
  function Group(ms: seq<Message>, i: nat): (r: set<int>)
    requires i < |ms|
    ensures i in r && forall j :: j in r ==> 0 <= j < |ms|
  {
    {i} + if ms[i].Assistant? then ResultsOf(ms, ms[i].calls) else {}
  }

  /** The lowest of a set of positions. */
  function Lowest(s: set<int>, from: nat, below: nat): (r: nat)
    requires exists j :: j in s && from <= j < below
    ensures r in s && from <= r < below && forall j :: j in s && from <= j ==> r <= j
    decreases below - from
  {
    if from in s then from else Lowest(s, from + 1, below)
  }

  /** The positions kept by the walk from `i` down to the front. */
  function Walk(t: TokenCounter, ms: seq<Message>, budget: int, i: int, used: nat, kept: set<int>): set<int>
    requires i < |ms|
    decreases i + 1
  {
    if i < 0 || used >= budget then kept
    else if i in kept then Walk(t, ms, budget, i - 1, used, kept)
    else
      var group := Group(ms, i);
      var cost := Cost(t, ms, group);
      if used + cost > budget then kept
      else Walk(t, ms, budget, Lowest(group, 0, |ms|) - 1, used + cost, kept + group)
  }

  /** The tool message has an assistant message with its call among those kept. */
  predicate HasPair(ms: seq<Message>, kept: set<int>, i: nat)
    requires i < |ms| && ms[i].Tool?
  {
    exists j :: j in kept && 0 <= j < |ms| && ms[j].Assistant? && Calls(ms[j], ms[i].id)
  }

  predicate Calls(m: Message, id: string)
    requires m.Assistant?
  {
    exists k :: 0 <= k < |m.calls| && m.calls[k].id == id
  }

  function WithoutOrphans(ms: seq<Message>, kept: set<int>): set<int> {
    set i | i in kept && (0 <= i < |ms| && ms[i].Tool? && ms[i].id != "" ==> HasPair(ms, kept, i))
  }

  /** The first system message if any, and all others. */
  function SplitMessages(ms: seq<Message>): (r: (seq<Message>, seq<Message>))
    ensures |r.0| <= 1 && |r.0| + |r.1| == |ms|
    ensures forall m :: m in r.0 ==> m.System?
  {
    if ms == [] then ([], [])
    else if ms[0].System? then ([ms[0]], ms[1..])
    else
      var rest := SplitMessages(ms[1..]);
      (rest.0, [ms[0]] + rest.1)
  }

  /** What stays of the messages other than the first system message. */
  function KeptOthers(t: TokenCounter, others: seq<Message>, budget: int): seq<Message> {
    Select(others, KeptPositions(t, others, budget))
  }

  function Truncated(t: TokenCounter, ms: seq<Message>, maxTokens: int): seq<Message> {
    var (system, others) := SplitMessages(ms);
    var budget := maxTokens - CountMessages(t, system);
    if budget <= 0 then system else system + KeptOthers(t, others, budget)
  }

  function KeptPositions(t: TokenCounter, others: seq<Message>, budget: int): set<int> {
    WithoutOrphans(others, Walk(t, others, budget, |others| - 1, 0, {}))
  }

  // ---- What holds for every message list ----

  /** A kept assistant message comes with the last results of its calls. */
  ghost predicate GroupsWhole(ms: seq<Message>, kept: set<int>) {
    && (forall i :: i in kept ==> 0 <= i < |ms|)
    && (forall i :: i in kept && ms[i].Assistant? ==> ResultsOf(ms, ms[i].calls) <= kept)
  }

  lemma {:induction false} WalkKeepsGroups(t: TokenCounter, ms: seq<Message>, budget: int, i: int, used: nat,
                                           kept: set<int>)
    requires i < |ms| && GroupsWhole(ms, kept) && Cost(t, ms, kept) <= used <= budget
    ensures var r := Walk(t, ms, budget, i, used, kept);
            GroupsWhole(ms, r) && Cost(t, ms, r) <= budget
    decreases i + 1
  {
    hide Cost, Select, CountMessages, LastResult;
    if i >= 0 && used < budget {
      if i in kept {
        WalkKeepsGroups(t, ms, budget, i - 1, used, kept);
      } else {
        var group := Group(ms, i);
        var cost := Cost(t, ms, group);
        if used + cost <= budget {
          CostUnion(t, ms, kept, group);
          WalkKeepsGroups(t, ms, budget, Lowest(group, 0, |ms|) - 1, used + cost, kept + group);
        }
      }
    }
  }

  lemma {:induction false} NothingCosts(t: TokenCounter, ms: seq<Message>)
    ensures Select(ms, {}) == []
    decreases |ms|
  {
    if ms != [] {
      NothingCosts(t, ms[..|ms| - 1]);
    }
  }

  predicate IsSubsequence(a: seq<Message>, b: seq<Message>) {
    a == [] || (b != [] && (IsSubsequence(a, b[..|b| - 1])
                            || (a[|a| - 1] == b[|b| - 1] && IsSubsequence(a[..|a| - 1], b[..|b| - 1]))))
  }

  lemma {:induction false} SelectKeepsOrder(ms: seq<Message>, kept: set<int>)
    ensures IsSubsequence(Select(ms, kept), ms)
    decreases |ms|
  {
    if ms != [] {
      SelectKeepsOrder(ms[..|ms| - 1], kept);
      var s := Select(ms[..|ms| - 1], kept);
      assert s + [] == s;
      assert (s + [ms[|ms| - 1]])[..|s|] == s;
    }
  }

  /** For any messages and any limit: what is kept is in order, a kept assistant message keeps the last result
      of each of its calls, a kept tool message with an id has its assistant message, and the result fits
      the limit if and only if the first system message does. */
  lemma TruncationSound(t: TokenCounter, ms: seq<Message>, maxTokens: int)
    ensures var (system, others) := SplitMessages(ms);
            var kept := KeptPositions(t, others, maxTokens - CountMessages(t, system));
            && IsSubsequence(Select(others, kept), others)
            && GroupsWhole(others, kept)
            && (forall i :: i in kept && others[i].Tool? && others[i].id != "" ==> HasPair(others, kept, i))
            && (CountMessages(t, Truncated(t, ms, maxTokens)) <= maxTokens <==> CountMessages(t, system) <= maxTokens)
  {
    hide Walk, Select, MessageTokens, SplitMessages;
      var (system, others) := SplitMessages(ms);
    var budget := maxTokens - CountMessages(t, system);
    var walked := Walk(t, others, budget, |others| - 1, 0, {});
    WalkFromEnd(t, others, budget);
    SelectKeepsOrder(others, WithoutOrphans(others, walked));
    CleanupKeepsGroups(others, walked);
    CostSubset(t, others, WithoutOrphans(others, walked), walked);
    CountConcat(t, system, Select(others, WithoutOrphans(others, walked)));
  }

  lemma WalkFromEnd(t: TokenCounter, others: seq<Message>, budget: int)
    ensures var walked := Walk(t, others, budget, |others| - 1, 0, {});
            GroupsWhole(others, walked) && (budget > 0 ==> Cost(t, others, walked) <= budget)
  {
    NothingCosts(t, others);
    if budget >= 0 {
      WalkKeepsGroups(t, others, budget, |others| - 1, 0, {});
    }
  }

  lemma CleanupKeepsGroups(ms: seq<Message>, walked: set<int>)
    requires GroupsWhole(ms, walked)
    ensures var kept := WithoutOrphans(ms, walked);
            && GroupsWhole(ms, kept)
            && forall i :: i in kept && ms[i].Tool? && ms[i].id != "" ==> HasPair(ms, kept, i)
  {
    var kept := WithoutOrphans(ms, walked);
    forall i, j | i in kept && ms[i].Assistant? && j in ResultsOf(ms, ms[i].calls) ensures j in kept {
      assert Calls(ms[i], ms[j].id);
      assert HasPair(ms, walked, j);
    }
    forall i | i in kept && ms[i].Tool? && ms[i].id != "" ensures HasPair(ms, kept, i) {
      var j :| j in walked && 0 <= j < |ms| && ms[j].Assistant? && Calls(ms[j], ms[i].id);
      assert j in kept;
    }
  }

  // ---- Paired transcripts ----

  /** No two calls of the transcript share an id, and none has an empty id. */
  ghost predicate FreshIds(ms: seq<Message>) {
    && (forall i :: 0 <= i < |ms| && ms[i].Assistant? ==>
                      UniqueIds(ms[i].calls) && forall k :: 0 <= k < |ms[i].calls| ==> ms[i].calls[k].id != "")
    && (forall i, j, id :: 0 <= i < j < |ms| && ms[i].Assistant? && ms[j].Assistant? && Calls(ms[i], id) ==>
                             !Calls(ms[j], id))
  }

  /** The assistant message at `i` is directly followed by its answers. */
  predicate Answered(ms: seq<Message>, i: nat)
    requires i < |ms| && ms[i].Assistant?
  {
    && i + |ms[i].calls| < |ms|
    && forall k :: i < k <= i + |ms[i].calls| ==> ms[k].Tool? && ms[k].id == ms[i].calls[k - i - 1].id
  }

  /** The tool message at `k` is one of the answers to the assistant message at `i`. */
  predicate AnswerOf(ms: seq<Message>, i: nat, k: nat) {
    i < k < |ms| && ms[i].Assistant? && k <= i + |ms[i].calls| && ms[k].Tool? && ms[k].id == ms[i].calls[k - i - 1].id
  }

  ghost predicate WellPaired(ms: seq<Message>) {
    && (forall i: nat :: i < |ms| && ms[i].Assistant? ==> Answered(ms, i))
    && (forall k: nat :: k < |ms| && ms[k].Tool? ==> exists i: nat :: AnswerOf(ms, i, k))
  }

  /** The messages of the first group answer its first message. */
  lemma HeadGroup(ms: seq<Message>)
    requires Paired(ms) && ms != []
    ensures !ms[0].Tool? && GroupSize(ms) <= |ms| && Paired(ms[GroupSize(ms)..])
    ensures ms[0].Assistant? ==> Answered(ms, 0)
    ensures forall k: nat :: 0 < k < GroupSize(ms) ==> AnswerOf(ms, 0, k) && ms[k].Tool?
  {
    var n := GroupSize(ms);
    assert forall k: nat :: 0 < k < n ==> ms[k] == ms[1..n][k - 1];
  }

  lemma ShiftAnswered(ms: seq<Message>, n: nat, i: nat)
    requires n <= i < |ms| && ms[i].Assistant? && Answered(ms[n..], i - n)
    ensures Answered(ms, i)
  {
    forall k | i < k <= i + |ms[i].calls| ensures ms[k].Tool? && ms[k].id == ms[i].calls[k - i - 1].id {
      assert ms[k] == ms[n..][k - n];
    }
  }

  lemma {:induction false} PairedAnswered(ms: seq<Message>, i: nat)
    requires Paired(ms) && i < |ms| && ms[i].Assistant?
    ensures Answered(ms, i)
    decreases |ms|
  {
    HeadGroup(ms);
    var n := GroupSize(ms);
    if i >= n {
      PairedAnswered(ms[n..], i - n);
      ShiftAnswered(ms, n, i);
    }
  }

  lemma {:induction false} PairedAnswers(ms: seq<Message>, k: nat) returns (i: nat)
    requires Paired(ms) && k < |ms| && ms[k].Tool?
    ensures AnswerOf(ms, i, k)
    decreases |ms|
  {
    hide Paired, AnsweredBy;
    HeadGroup(ms);
    var n := GroupSize(ms);
    if k < n {
      i := 0;
    } else {
      i := PairedAnswers(ms[n..], k - n);
      i := i + n;
    }
  }

  /** A paired transcript by positions. */
  lemma PairedPositions(ms: seq<Message>)
    requires Paired(ms)
    ensures WellPaired(ms)
  {
    forall i: nat | i < |ms| && ms[i].Assistant? ensures Answered(ms, i) {
      PairedAnswered(ms, i);
    }
    forall k: nat | k < |ms| && ms[k].Tool? ensures exists i: nat :: AnswerOf(ms, i, k) {
      var i := PairedAnswers(ms, k);
    }
  }

  /** The part of a paired transcript from a message that is not a tool message. */
  lemma {:induction false} PairedFrom(ms: seq<Message>, b: nat)
    requires Paired(ms) && b <= |ms| && (b < |ms| ==> !ms[b].Tool?)
    ensures Paired(ms[b..])
    decreases |ms|
  {
    if 0 < b {
      HeadGroup(ms);
      var n := GroupSize(ms);
      PairedFrom(ms[n..], b - n);
      assert ms[n..][b - n..] == ms[b..];
    }
  }

  function Range(a: int, n: int): (r: set<int>)
    ensures forall k :: k in r <==> a <= k < n
    decreases n - a
  {
    if a >= n then {} else {a} + Range(a + 1, n)
  }

  lemma SameCaller(ms: seq<Message>, i: nat, j: nat, id: string)
    requires FreshIds(ms) && i < |ms| && j < |ms| && ms[i].Assistant? && ms[j].Assistant? && Calls(ms[i], id)
             && Calls(ms[j], id)
    ensures i == j
  {
  }

  /** With fresh ids a tool message answers one call. */
  lemma SameAnswer(ms: seq<Message>, i: nat, k: nat, j: nat, r: nat)
    requires FreshIds(ms) && AnswerOf(ms, i, k) && AnswerOf(ms, j, r) && ms[k].id == ms[r].id
    ensures k == r
  {
    var id := ms[k].id;
    assert ms[i].calls[k - i - 1].id == id && ms[j].calls[r - j - 1].id == id;
    SameCaller(ms, i, j, id);
    assert UniqueIds(ms[i].calls);
  }

  /** With fresh ids the last result of a call is its answer. */
  lemma AnswerIsLast(ms: seq<Message>, i: nat, k: nat)
    requires WellPaired(ms) && FreshIds(ms) && i < |ms| && ms[i].Assistant? && k < |ms[i].calls|
    ensures LastResult(ms, ms[i].calls[k].id) == Some(i + 1 + k) && i + 1 + k < |ms|
  {
    var at := i + 1 + k;
    assert Answered(ms, i) && ms[at].Tool?;
    var r := LastResult(ms, ms[i].calls[k].id).value;
    var j: nat :| AnswerOf(ms, j, r);
    SameAnswer(ms, i, at, j, r);
  }

  lemma GroupOf(ms: seq<Message>, i: nat)
    requires WellPaired(ms) && FreshIds(ms) && i < |ms|
    ensures Group(ms, i) <= Range(i, |ms|) && Lowest(Group(ms, i), 0, |ms|) == i
  {
    if ms[i].Assistant? {
      forall k: nat | k < |ms[i].calls|
        ensures LastResult(ms, ms[i].calls[k].id) == Some(i + 1 + k) && i + 1 + k < |ms|
      {
        AnswerIsLast(ms, i, k);
      }
    }
  }

  /** The tokens the walk counts down to a position; the answers of a batch count twice. */
  function Used(t: TokenCounter, ms: seq<Message>, i: nat): nat
    requires i <= |ms|
    decreases |ms| - i
  {
    if i == |ms| then 0 else Cost(t, ms, Group(ms, i)) + Used(t, ms, i + 1)
  }

  lemma CostOfMember(t: TokenCounter, ms: seq<Message>, kept: set<int>, i: nat)
    requires i < |ms| && i in kept
    ensures Cost(t, ms, kept) >= 4
    decreases |ms|
  {
    CostStep(t, ms, kept);
    if i < |ms| - 1 {
      CostOfMember(t, ms[..|ms| - 1], kept, i);
    }
  }

  /** One step of the walk on a paired transcript: it stops at a group that does not fit, or goes on with the
      position before it. */
  lemma WalkStep(t: TokenCounter, ms: seq<Message>, budget: int, i: nat)
    requires WellPaired(ms) && FreshIds(ms) && i < |ms|
    ensures Used(t, ms, i) > Used(t, ms, i + 1)
    ensures Walk(t, ms, budget, i, Used(t, ms, i + 1), Range(i + 1, |ms|)) ==
            if Used(t, ms, i) > budget then Range(i + 1, |ms|)
            else Walk(t, ms, budget, i - 1, Used(t, ms, i), Range(i, |ms|))
  {
    var group := Group(ms, i);
    GroupOf(ms, i);
    CostOfMember(t, ms, group, i);
    assert Range(i + 1, |ms|) + group == Range(i, |ms|);
    assert i !in Range(i + 1, |ms|);
  }

  /** On a paired transcript the walk keeps a suffix, cut where the counted tokens first exceed the budget. */
  lemma {:induction false} WalkKeepsSuffix(t: TokenCounter, ms: seq<Message>, budget: int, i: int) returns (c: nat)
    requires WellPaired(ms) && FreshIds(ms) && -1 <= i < |ms| && Used(t, ms, i + 1) <= budget
    ensures CutAt(t, ms, budget, c)
    ensures Walk(t, ms, budget, i, Used(t, ms, i + 1), Range(i + 1, |ms|)) == Range(c, |ms|)
    decreases i + 1
  {
    hide Cost, Select, CountMessages, FreshIds;
    c := i + 1;
    if i >= 0 {
      WalkStep(t, ms, budget, i);
      if Used(t, ms, i) <= budget {
        c := WalkKeepsSuffix(t, ms, budget, i - 1);
      }
    }
  }

  /** The lowest position down to which everything fits. */
  predicate CutAt(t: TokenCounter, ms: seq<Message>, budget: int, c: nat) {
    c <= |ms| && Used(t, ms, c) <= budget && (c > 0 ==> Used(t, ms, c - 1) > budget)
  }

  /** The first position from `c` on that is not a tool message. */
  function Boundary(ms: seq<Message>, c: nat): (b: nat)
    requires c <= |ms|
    ensures c <= b <= |ms| && (forall k :: c <= k < b ==> ms[k].Tool?) && (b < |ms| ==> !ms[b].Tool?)
    decreases |ms| - c
  {
    if c == |ms| || !ms[c].Tool? then c else Boundary(ms, c + 1)
  }

  lemma CleanupOfSuffix(ms: seq<Message>, c: nat)
    requires WellPaired(ms) && FreshIds(ms) && c <= |ms|
    ensures WithoutOrphans(ms, Range(c, |ms|)) == Range(Boundary(ms, c), |ms|)
  {
    var b, kept := Boundary(ms, c), Range(c, |ms|);
    forall k: nat | c <= k < |ms| && ms[k].Tool?
      ensures ms[k].id != "" && (HasPair(ms, kept, k) <==> b <= k)
    {
      var i: nat :| AnswerOf(ms, i, k);
      assert Calls(ms[i], ms[k].id);
      assert Answered(ms, i);
      if b <= k {
        assert i in kept;
      } else {
        forall j | j in kept && 0 <= j < |ms| && ms[j].Assistant? ensures !Calls(ms[j], ms[k].id) {
          assert i < j;
        }
      }
    }
  }

  lemma {:induction false} SelectSuffix(ms: seq<Message>, b: nat)
    requires b <= |ms|
    ensures Select(ms, Range(b, |ms|)) == ms[b..]
    decreases |ms|
  {
    if b < |ms| {
      var n := |ms| - 1;
      SelectSuffix(ms[..n], b);
      SameSelection(ms[..n], Range(b, n), Range(b, |ms|));
    } else {
      NothingSelected(ms, Range(b, |ms|));
    }
  }

  lemma {:induction false} SameSelection(ms: seq<Message>, a: set<int>, b: set<int>)
    requires forall k :: 0 <= k < |ms| ==> (k in a <==> k in b)
    ensures Select(ms, a) == Select(ms, b)
    decreases |ms|
  {
    if ms != [] {
      SameSelection(ms[..|ms| - 1], a, b);
    }
  }

  lemma {:induction false} NothingSelected(ms: seq<Message>, kept: set<int>)
    requires forall k :: 0 <= k < |ms| ==> k !in kept
    ensures Select(ms, kept) == []
    decreases |ms|
  {
    if ms != [] {
      NothingSelected(ms[..|ms| - 1], kept);
    }
  }

  /** Splitting off the first system message keeps a transcript paired. */
  lemma {:induction false} SplitPaired(ms: seq<Message>)
    requires Paired(ms)
    ensures Paired(SplitMessages(ms).1)
    decreases |ms|
  {
    if ms != [] && !ms[0].System? {
      var n := GroupSize(ms);
      HeadGroup(ms);
      SplitPaired(ms[n..]);
      SplitAfter(ms, n);
    }
  }

  lemma {:induction false} SplitAfter(ms: seq<Message>, n: nat)
    requires n <= |ms| && forall k :: 0 <= k < n ==> !ms[k].System?
    ensures SplitMessages(ms).1 == ms[..n] + SplitMessages(ms[n..]).1
    decreases n
  {
    if n > 0 {
      SplitAfter(ms[1..], n - 1);
      assert ms[1..][n - 1..] == ms[n..];
      assert ms[..n] == [ms[0]] + ms[1..][..n - 1];
    } else {
      assert ms[n..] == ms;
    }
  }

  lemma KeptIsSuffix(t: TokenCounter, others: seq<Message>, budget: nat) returns (c: nat)
    requires Paired(others) && FreshIds(others)
    ensures CutAt(t, others, budget, c)
    ensures KeptOthers(t, others, budget) == others[Boundary(others, c)..]
  {
    hide Walk, Select, CountMessages, WithoutOrphans, Paired, FreshIds;
    PairedPositions(others);
    c := WalkKeepsSuffix(t, others, budget, |others| - 1);
    assert Range(|others|, |others|) == {};
    CleanupOfSuffix(others, c);
    SelectSuffix(others, Boundary(others, c));
  }

  lemma PairedAfterSystem(system: seq<Message>, rest: seq<Message>, r: seq<Message>)
    requires Paired(rest) && |system| <= 1 && (forall m :: m in system ==> m.System?) && r == system + rest
    ensures Paired(r)
  {
    if system != [] {
      assert r[1..] == rest && r[0] in system;
    } else {
      assert r == rest;
    }
  }

  /** On a paired transcript without repeated ids, what is kept is the part after the cut, rounded up to the
      start of a batch. */
  lemma PairedTruncation(t: TokenCounter, ms: seq<Message>, maxTokens: int) returns (c: nat)
    requires Paired(ms) && FreshIds(SplitMessages(ms).1)
    requires maxTokens > CountMessages(t, SplitMessages(ms).0)
    ensures CutAt(t, SplitMessages(ms).1, maxTokens - CountMessages(t, SplitMessages(ms).0), c)
    ensures Truncated(t, ms, maxTokens) == SplitMessages(ms).0 + SplitMessages(ms).1[Boundary(SplitMessages(ms).1, c)..]
  {
    hide Truncated, CutAt, CountMessages, SplitMessages, Boundary, FreshIds;
    SplitPaired(ms);
    c := TruncatedSuffix(t, ms, SplitMessages(ms).0, SplitMessages(ms).1, maxTokens);
  }

  lemma TruncatedSuffix(t: TokenCounter, ms: seq<Message>, system: seq<Message>, others: seq<Message>, maxTokens: int)
    returns (c: nat)
    requires SplitMessages(ms) == (system, others) && Paired(others) && FreshIds(others)
             && maxTokens > CountMessages(t, system)
    ensures CutAt(t, others, maxTokens - CountMessages(t, system), c)
    ensures Truncated(t, ms, maxTokens) == system + others[Boundary(others, c)..]
  {
    hide Walk, Select, CountMessages, SplitMessages, Truncated, Paired, FreshIds;
    TruncatedAs(t, ms, maxTokens);
    c := KeptIsSuffix(t, others, maxTokens - CountMessages(t, system));
  }

  lemma TruncatedAs(t: TokenCounter, ms: seq<Message>, maxTokens: int)
    requires maxTokens > CountMessages(t, SplitMessages(ms).0)
    ensures Truncated(t, ms, maxTokens) ==
            SplitMessages(ms).0 + KeptOthers(t, SplitMessages(ms).1, maxTokens - CountMessages(t, SplitMessages(ms).0))
  {
    hide Walk, Select, CountMessages, SplitMessages, KeptPositions, KeptOthers;
  }

  /** So truncation of a paired transcript without repeated ids gives a paired transcript, at any limit. */
  lemma TruncationKeepsPairs(t: TokenCounter, ms: seq<Message>, maxTokens: int)
    requires Paired(ms) && FreshIds(SplitMessages(ms).1)
    ensures Paired(Truncated(t, ms, maxTokens))
  {
    hide Select, Walk, CountMessages, SplitMessages, KeptPositions, FreshIds;
    var budget := maxTokens - CountMessages(t, SplitMessages(ms).0);
    if budget <= 0 {
      PairedAfterSystem(SplitMessages(ms).0, [], SplitMessages(ms).0);
    } else {
      SplitPaired(ms);
      KeptPaired(t, SplitMessages(ms).1, budget);
      PairedAfterSystem(SplitMessages(ms).0, KeptOthers(t, SplitMessages(ms).1, budget), Truncated(t, ms, maxTokens));
    }
  }

  lemma KeptPaired(t: TokenCounter, others: seq<Message>, budget: nat)
    requires Paired(others) && FreshIds(others)
    ensures Paired(KeptOthers(t, others, budget))
  {
    hide Select, Walk, CountMessages, FreshIds, KeptPositions, KeptOthers, Used;
    var c := KeptIsSuffix(t, others, budget);
    PairedFrom(others, Boundary(others, c));
  }

  // ---- The methods ----

  /** The first `i` messages are split; the rest goes to the others once a system message is found. */
  ghost predicate SplitSoFar(ms: seq<Message>, i: nat, system: seq<Message>, others: seq<Message>)
    requires i <= |ms|
  {
    var rest := SplitMessages(ms[i..]);
    SplitMessages(ms) == if system == [] then (rest.0, others + rest.1) else (system, others + ms[i..])
  }

  lemma SplitNext(ms: seq<Message>, i: nat, system: seq<Message>, others: seq<Message>)
    requires i < |ms| && SplitSoFar(ms, i, system, others)
    ensures if ms[i].System? && system == [] then SplitSoFar(ms, i + 1, system + [ms[i]], others)
            else SplitSoFar(ms, i + 1, system, others + [ms[i]])
  {
    var rest := ms[i + 1..];
    assert ms[i..] == [ms[i]] + rest && ms[i..][1..] == rest;
    if system != [] {
      assert others + ([ms[i]] + rest) == others + [ms[i]] + rest;
    } else if ms[i].System? {
      assert system + [ms[i]] == [ms[i]];
    } else {
      assert others + ([ms[i]] + SplitMessages(rest).1) == others + [ms[i]] + SplitMessages(rest).1;
    }
  }

  lemma SplitStart(ms: seq<Message>)
    ensures SplitSoFar(ms, 0, [], [])
  {
    assert ms[0..] == ms && [] + SplitMessages(ms).1 == SplitMessages(ms).1;
  }

  lemma SplitEnd(ms: seq<Message>, system: seq<Message>, others: seq<Message>)
    requires SplitSoFar(ms, |ms|, system, others)
    ensures SplitMessages(ms) == (system, others)
  {
    assert ms[|ms|..] == [] && others + [] == others;
  }

  class ContextWindowManager {
    const counter: TokenCounter

    constructor (counter: TokenCounter)
      ensures this.counter == counter
    {
      this.counter := counter;
    }

    method Split(ms: seq<Message>) returns (system: seq<Message>, others: seq<Message>)
      ensures (system, others) == SplitMessages(ms)
    {
      system, others := [], [];
      SplitStart(ms);
      for i := 0 to |ms|
        invariant SplitSoFar(ms, i, system, others)
      {
        SplitNext(ms, i, system, others);
        if ms[i].System? && system == [] {
          system := system + [ms[i]];
        } else {
          others := others + [ms[i]];
        }
      }
      SplitEnd(ms, system, others);
    }

    /** The reverse index from call ids to the positions of their last results. */
    method IndexResults(ms: seq<Message>) returns (index: map<string, nat>)
      ensures forall id :: id in index <==> id != "" && LastResult(ms, id).Some?
      ensures forall id :: id in index ==> LastResult(ms, id) == Some(index[id])
    {
      index := map[];
      for i := 0 to |ms|
        invariant forall id :: id in index <==> id != "" && LastResult(ms[..i], id).Some?
        invariant forall id :: id in index ==> LastResult(ms[..i], id) == Some(index[id])
      {
        assert ms[..i + 1][..i] == ms[..i];
        if ms[i].Tool? && ms[i].id != "" {
          index := index[ms[i].id := i];
        }
      }
      assert ms[..|ms|] == ms;
    }

    method GroupAt(ms: seq<Message>, index: map<string, nat>, i: nat) returns (group: set<int>)
      requires i < |ms|
      requires forall id :: id in index <==> id != "" && LastResult(ms, id).Some?
      requires forall id :: id in index ==> LastResult(ms, id) == Some(index[id])
      ensures group == Group(ms, i)
    {
      group := {i};
      if ms[i].Assistant? {
        var calls := ms[i].calls;
        for k := 0 to |calls|
          invariant group == {i} + ResultsOf(ms, calls[..k])
        {
          ResultsNext(ms, calls, k);
          if calls[k].id in index {
            group := group + {index[calls[k].id]};
          }
        }
        assert calls[..|calls|] == calls;
      }
    }

    /** The walk from the most recent message to the front. */
    method KeepRecent(ms: seq<Message>, budget: nat) returns (kept: set<int>)
      ensures kept == Walk(counter, ms, budget, |ms| - 1, 0, {})
    {
      var index := IndexResults(ms);
      var i, used: nat := |ms| - 1, 0;
      kept := {};
      while i >= 0 && used < budget
        invariant i < |ms|
        invariant Walk(counter, ms, budget, i, used, kept) == Walk(counter, ms, budget, |ms| - 1, 0, {})
        decreases i + 1
      {
        if i in kept {
          i := i - 1;
        } else {
          var group := GroupAt(ms, index, i);
          var groupTokens := CountMessages(counter, Select(ms, group));
          if used + groupTokens > budget {
            break;
          }
          kept := kept + group;
          used := used + groupTokens;
          i := Lowest(group, 0, |ms|) - 1;
        }
      }
    }

    /** Drops tool messages whose assistant message is gone. */
    method DropOrphans(ms: seq<Message>, walked: set<int>) returns (kept: set<int>)
      requires forall i :: i in walked ==> 0 <= i < |ms|
      ensures kept == WithoutOrphans(ms, walked)
    {
      kept := walked;
      for i := 0 to |ms|
        invariant forall j :: j in kept <==> j in walked && (j < i ==> j in WithoutOrphans(ms, walked))
      {
        if i in kept && ms[i].Tool? && ms[i].id != "" {
          AssistantsStay(ms, walked, kept, i);
          if !HasPair(ms, kept, i) {
            kept := kept - {i};
          }
        }
      }
      assert forall j :: j in WithoutOrphans(ms, walked) ==> j in walked;
      assert forall j :: j in kept <==> j in WithoutOrphans(ms, walked);
    }

    method TruncateMiddle(ms: seq<Message>, maxTokens: int) returns (r: seq<Message>)
      ensures r == Truncated(counter, ms, maxTokens)
    {
      hide Walk, Select, SplitMessages;
      var system, others := Split(ms);
      var budget := maxTokens - CountMessages(counter, system);
      if budget <= 0 {
        return system;
      }
      var walked := KeepRecent(others, budget);
      NothingCosts(counter, others);
      WalkKeepsGroups(counter, others, budget, |others| - 1, 0, {});
      var kept := DropOrphans(others, walked);
      r := system + Select(others, kept);
    }

    /** Without a summariser, messages over the limit are truncated and others left alone. */
    method CompactIfNeeded(ms: seq<Message>, effectiveLimit: int) returns (r: seq<Message>)
      ensures CountMessages(counter, ms) <= effectiveLimit || ms == [] ==> r == ms
      ensures CountMessages(counter, ms) > effectiveLimit && ms != [] ==> r == Truncated(counter, ms, effectiveLimit)
      ensures CountMessages(counter, r) <= effectiveLimit <==>
              CountMessages(counter, SplitMessages(ms).0) <= effectiveLimit
    {
      SplitFits(counter, ms);
      if ms == [] || CountMessages(counter, ms) <= effectiveLimit {
        return ms;
      }
      r := TruncateMiddle(ms, effectiveLimit);
      TruncationSound(counter, ms, effectiveLimit);
    }
  }

  lemma ResultsNext(ms: seq<Message>, calls: seq<ToolCall>, k: nat)
    requires k < |calls|
    ensures ResultsOf(ms, calls[..k + 1]) ==
            ResultsOf(ms, calls[..k])
            + if calls[k].id != "" && LastResult(ms, calls[k].id).Some? then {LastResult(ms, calls[k].id).value} else {}
  {
    assert calls[..k + 1] == calls[..k] + [calls[k]];
    assert forall j :: 0 <= j < k ==> calls[..k + 1][j] == calls[..k][j];
  }

  /** Only tool messages are dropped, so that it does not matter in which order. */
  lemma AssistantsStay(ms: seq<Message>, walked: set<int>, kept: set<int>, i: nat)
    requires i < |ms| && ms[i].Tool? && forall j :: j in walked ==> 0 <= j < |ms|
    requires forall j :: j in kept <==> j in walked && (j < i ==> j in WithoutOrphans(ms, walked))
    ensures HasPair(ms, kept, i) == HasPair(ms, walked, i)
  {
    assert forall j :: j in walked && ms[j].Assistant? ==> j in kept;
  }

  /** The first system message alone costs no more than all messages. */
  lemma {:induction false} SplitFits(t: TokenCounter, ms: seq<Message>)
    ensures CountMessages(t, SplitMessages(ms).0) <= CountMessages(t, ms)
    decreases |ms|
  {
    if ms != [] {
      CountConcat(t, [ms[0]], ms[1..]);
      assert [ms[0]] + ms[1..] == ms;
      if !ms[0].System? {
        SplitFits(t, ms[1..]);
      }
    }
  }
}
