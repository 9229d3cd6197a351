/**
 The message tree of one trace: rows with a sequence number and a parent number, and a head row with the
 current leaf and the next number. The trace has one writer. A parent or the head may name a number without
 a row (a backtrack may go anywhere); such a number is called dangling.
 */
module MessageTree {
  import opened Options

  datatype Row = Row(seqNo: int, parent: Option<int>, role: string, content: string)

  datatype Head = Head(headSeq: int, nextSeq: int)

  /** The dictionary of rows by number: the last row with the number. */
  function Find(rows: seq<Row>, s: int): (r: Option<Row>)
    ensures r.Some? ==> r.value in rows && r.value.seqNo == s
    ensures r.None? ==> forall i :: 0 <= i < |rows| ==> rows[i].seqNo != s
  {
    if rows == [] then None
    else if rows[|rows| - 1].seqNo == s then Some(rows[|rows| - 1])
    else
      var r := Find(rows[..|rows| - 1], s);
      assert rows == rows[..|rows| - 1] + [rows[|rows| - 1]];
      r
  }

  function Numbers(rows: seq<Row>): set<int> {
    set i | 0 <= i < |rows| :: rows[i].seqNo
  }

  /** The numbers from the root to `s` along parents. It ends at a dangling number, which it includes, and at
      a number met before. */
  function Trail(rows: seq<Row>, s: Option<int>, visited: set<int>): seq<int>
    decreases Numbers(rows) - visited
  {
    if s.None? || s.value in visited then []
    else
      var r := Find(rows, s.value);
      if r.None? then [s.value]
      else
        assert s.value in Numbers(rows);
        Trail(rows, r.value.parent, visited + {s.value}) + [s.value]
  }

  /** The number at a position of a trail comes after its parent, and only the root has none or no row. */
  predicate LinkAt(rows: seq<Row>, p: seq<int>, i: nat) {
    && i < |p|
    && var r := Find(rows, p[i]);
    if i == 0 then r.Some? ==> r.value.parent.None?
    else r.Some? && r.value.parent == Some(p[i - 1])
  }

  /** The trail of a number, without looking for cycles. */
  ghost predicate IsTrail(rows: seq<Row>, s: Option<int>, p: seq<int>) {
    && (s.None? <==> p == [])
    && (s.Some? ==> p[|p| - 1] == s.value)
    && forall i: nat :: i < |p| ==> LinkAt(rows, p, i)
  }

  /** The rows of a trail. */
  function Lines(rows: seq<Row>, p: seq<int>): seq<Row> {
    if p == [] then []
    else
      var r := Find(rows, p[|p| - 1]);
      Lines(rows, p[..|p| - 1]) + if r.Some? then [r.value] else []
  }

  function HeadOf(head: Option<Head>): Option<int> {
    if head.None? || head.value.headSeq == 0 then None else Some(head.value.headSeq)
  }

  /** The main path: the rows from the root to the head. */
  function MainPath(rows: seq<Row>, head: Option<Head>): seq<Row> {
    Lines(rows, Trail(rows, HeadOf(head), {}))
  }

  // ---- No cycles ----

  /** A rank for every row, above the rank of its parent. */
  ghost predicate Ranked(rows: seq<Row>, rank: map<int, real>) {
    forall i :: 0 <= i < |rows| ==>
                  && rows[i].seqNo in rank
                  && (rows[i].parent.Some? && Find(rows, rows[i].parent.value).Some? ==>
                        rows[i].parent.value in rank && rank[rows[i].parent.value] < rank[rows[i].seqNo])
  }

  lemma RankOfParent(rows: seq<Row>, rank: map<int, real>, s: int)
    requires Ranked(rows, rank) && Find(rows, s).Some?
    ensures s in rank
    ensures var p := Find(rows, s).value.parent;
            p.Some? && Find(rows, p.value).Some? ==> p.value in rank && rank[p.value] < rank[s]
  {
    var i :| 0 <= i < |rows| && rows[i] == Find(rows, s).value;
  }

  /** In a ranked tree the walk never meets a number twice. */
  lemma {:induction false} TrailIsTrail(rows: seq<Row>, rank: map<int, real>, s: Option<int>, visited: set<int>)
    requires Ranked(rows, rank)
    requires s.Some? && Find(rows, s.value).Some? ==>
               forall v :: v in visited ==> v in rank && rank[s.value] < rank[v]
    requires forall v :: v in visited ==> Find(rows, v).Some?
    ensures s.None? || s.value !in visited
    ensures IsTrail(rows, s, Trail(rows, s, visited))
    decreases Numbers(rows) - visited
  {
    if s.Some? {
      var r := Find(rows, s.value);
      if r.Some? {
        RankOfParent(rows, rank, s.value);
        assert s.value in Numbers(rows);
        TrailIsTrail(rows, rank, r.value.parent, visited + {s.value});
        TrailAppend(rows, s.value, Trail(rows, r.value.parent, visited + {s.value}));
      } else {
        assert LinkAt(rows, [s.value], 0);
      }
    }
  }

  /** A trail of the parent of a row makes a trail of the row. */
  lemma TrailAppend(rows: seq<Row>, s: int, p: seq<int>)
    requires Find(rows, s).Some? && IsTrail(rows, Find(rows, s).value.parent, p)
    ensures IsTrail(rows, Some(s), p + [s]) && Lines(rows, p + [s]) == Lines(rows, p) + [Find(rows, s).value]
  {
    var q := p + [s];
    forall i: nat | i < |q| ensures LinkAt(rows, q, i) {
      assert i < |p| ==> LinkAt(rows, p, i);
    }
    assert q[..|p|] == p;
  }

  lemma {:induction false} TrailUnique(rows: seq<Row>, s: Option<int>, p: seq<int>, p': seq<int>)
    requires IsTrail(rows, s, p) && IsTrail(rows, s, p')
    ensures p == p'
    decreases |p|
  {
    if s.Some? {
      var n, n' := |p| - 1, |p'| - 1;
      assert LinkAt(rows, p, n) && LinkAt(rows, p', n');
      assert p == p[..n] + [s.value] && p' == p'[..n'] + [s.value];
      if n > 0 && n' > 0 {
        TrailPrefix(rows, s, p, n);
        TrailPrefix(rows, s, p', n');
        TrailUnique(rows, Some(p[n - 1]), p[..n], p'[..n']);
      }
    }
  }

  /** Every prefix of a trail is the trail of its last number. */
  lemma TrailPrefix(rows: seq<Row>, s: Option<int>, p: seq<int>, k: nat)
    requires IsTrail(rows, s, p) && 0 < k <= |p|
    ensures IsTrail(rows, Some(p[k - 1]), p[..k])
  {
    forall i: nat | i < k ensures LinkAt(rows, p[..k], i) {
      assert LinkAt(rows, p, i);
    }
  }

  /** Only the root of a trail can dangle; ranks rise along it. */
  lemma {:induction false} TrailRises(rows: seq<Row>, rank: map<int, real>, s: Option<int>, p: seq<int>, i: nat, j: nat)
    requires Ranked(rows, rank) && IsTrail(rows, s, p) && i <= j < |p|
    ensures 0 < j ==> Find(rows, p[j]).Some? && p[j] in rank
    ensures i < j && Find(rows, p[i]).Some? ==> p[i] in rank && rank[p[i]] < rank[p[j]]
    ensures i < j ==> p[i] != p[j]
    decreases j
  {
    assert LinkAt(rows, p, j);
    if 0 < j {
      RankOfParent(rows, rank, p[j]);
      if i < j - 1 {
        TrailRises(rows, rank, s, p, i, j - 1);
      }
    }
  }

  // ---- The two ways the table changes ----

  function Reparent(rows: seq<Row>, x: int, parent: int): (r: seq<Row>)
    ensures |r| == |rows|
    ensures forall i :: 0 <= i < |r| ==>
                          r[i] == if rows[i].seqNo == x then rows[i].(parent := Some(parent)) else rows[i]
  {
    seq(|rows|, i requires 0 <= i < |rows| => if rows[i].seqNo == x then rows[i].(parent := Some(parent)) else rows[i])
  }

  lemma FindInsert(rows: seq<Row>, r: Row, s: int)
    ensures Find(rows + [r], s) == if s == r.seqNo then Some(r) else Find(rows, s)
  {
    assert (rows + [r])[..|rows|] == rows;
  }

  lemma {:induction false} FindReparent(rows: seq<Row>, x: int, parent: int, s: int)
    ensures Find(Reparent(rows, x, parent), s) ==
            if s == x && Find(rows, s).Some? then Some(Find(rows, s).value.(parent := Some(parent))) else Find(rows, s)
    decreases |rows|
  {
    if rows != [] {
      var n := |rows| - 1;
      FindReparent(rows[..n], x, parent, s);
      assert Reparent(rows, x, parent)[..n] == Reparent(rows[..n], x, parent);
    }
  }

  lemma TrailInsert(rows: seq<Row>, r: Row, s: Option<int>, p: seq<int>)
    requires IsTrail(rows, s, p) && r.seqNo !in p
    ensures IsTrail(rows + [r], s, p) && Lines(rows + [r], p) == Lines(rows, p)
  {
    forall i: nat | i < |p| ensures LinkAt(rows + [r], p, i) && Find(rows + [r], p[i]) == Find(rows, p[i]) {
      assert LinkAt(rows, p, i);
      FindInsert(rows, r, p[i]);
    }
    SameLines(rows, rows + [r], p);
  }

  lemma TrailReparent(rows: seq<Row>, x: int, parent: int, s: Option<int>, p: seq<int>)
    requires IsTrail(rows, s, p) && x !in p
    ensures IsTrail(Reparent(rows, x, parent), s, p) && Lines(Reparent(rows, x, parent), p) == Lines(rows, p)
  {
    var rows' := Reparent(rows, x, parent);
    forall i: nat | i < |p| ensures LinkAt(rows', p, i) && Find(rows', p[i]) == Find(rows, p[i]) {
      assert LinkAt(rows, p, i);
      FindReparent(rows, x, parent, p[i]);
    }
    SameLines(rows, rows', p);
  }

  lemma {:induction false} SameLines(rows: seq<Row>, rows': seq<Row>, p: seq<int>)
    requires forall i :: 0 <= i < |p| ==> Find(rows', p[i]) == Find(rows, p[i])
    ensures Lines(rows', p) == Lines(rows, p)
    decreases |p|
  {
    if p != [] {
      SameLines(rows, rows', p[..|p| - 1]);
    }
  }

  // ---- Valid trees ----

  predicate UniqueNumbers(rows: seq<Row>) {
    forall i, j :: 0 <= i < j < |rows| ==> rows[i].seqNo != rows[j].seqNo
  }

  predicate Below(rows: seq<Row>, next: int) {
    forall i :: 0 <= i < |rows| ==> 0 < rows[i].seqNo < next && (rows[i].parent.Some? ==> rows[i].parent.value < next)
  }

  ghost predicate ValidTree(rows: seq<Row>, head: Option<Head>, rank: map<int, real>) {
    && Ranked(rows, rank) && UniqueNumbers(rows)
    && (head.None? ==> rows == [])
    && (head.Some? ==>
          Below(rows, head.value.nextSeq) && head.value.headSeq < head.value.nextSeq && 1 <= head.value.nextSeq)
  }

  lemma {:induction false} TrailBelow(rows: seq<Row>, next: int, s: Option<int>, p: seq<int>)
    requires Below(rows, next) && IsTrail(rows, s, p) && (s.Some? ==> s.value < next)
    ensures forall i :: 0 <= i < |p| ==> p[i] < next
  {
    forall i: nat | i < |p| ensures p[i] < next {
      if i < |p| - 1 {
        assert LinkAt(rows, p, i + 1);
        assert Find(rows, p[i + 1]).value in rows;
      }
    }
  }

  /** A new row with the next number, above its parent in rank. */
  lemma RankedInsert(rows: seq<Row>, rank: map<int, real>, r: Row, q: real)
    requires Ranked(rows, rank) && Below(rows, r.seqNo)
    requires r.parent.Some? ==> r.parent.value < r.seqNo
    requires r.parent.Some? && Find(rows, r.parent.value).Some? ==> r.parent.value in rank && rank[r.parent.value] < q
    ensures Ranked(rows + [r], rank[r.seqNo := q])
  {
    var rows', rank' := rows + [r], rank[r.seqNo := q];
    forall i | 0 <= i < |rows'| && rows'[i].parent.Some? && Find(rows', rows'[i].parent.value).Some?
      ensures rows'[i].parent.value in rank' && rank'[rows'[i].parent.value] < rank'[rows'[i].seqNo]
    {
      FindInsert(rows, r, rows'[i].parent.value);
    }
  }

  lemma RankedReparent(rows: seq<Row>, rank: map<int, real>, x: int, parent: int)
    requires Ranked(rows, rank) && x in rank && parent in rank && rank[parent] < rank[x]
    ensures Ranked(Reparent(rows, x, parent), rank)
  {
    var rows' := Reparent(rows, x, parent);
    forall i | 0 <= i < |rows'| && rows'[i].parent.Some? && Find(rows', rows'[i].parent.value).Some?
      ensures rows'[i].parent.value in rank && rank[rows'[i].parent.value] < rank[rows'[i].seqNo]
    {
      FindReparent(rows, x, parent, rows'[i].parent.value);
    }
  }

  /** The trail of the head: it exists, and the walk with its cycle check finds it. */
  lemma HeadTrail(rows: seq<Row>, head: Option<Head>, rank: map<int, real>) returns (p: seq<int>)
    requires ValidTree(rows, head, rank)
    ensures IsTrail(rows, HeadOf(head), p) && p == Trail(rows, HeadOf(head), {})
            && MainPath(rows, head) == Lines(rows, p)
  {
    p := Trail(rows, HeadOf(head), {});
    TrailIsTrail(rows, rank, HeadOf(head), {});
  }

  lemma MainPathOf(rows: seq<Row>, head: Option<Head>, rank: map<int, real>, p: seq<int>)
    requires ValidTree(rows, head, rank) && IsTrail(rows, HeadOf(head), p)
    ensures Trail(rows, HeadOf(head), {}) == p && MainPath(rows, head) == Lines(rows, p)
  {
    TrailIsTrail(rows, rank, HeadOf(head), {});
    TrailUnique(rows, HeadOf(head), p, Trail(rows, HeadOf(head), {}));
  }

  /** The number before a position of a trail. */
  function NumberBefore(p: seq<int>, k: nat): Option<int>
    requires k <= |p|
  {
    if k == 0 then None else Some(p[k - 1])
  }

  /** One step of a walk up the trail: a number that has not been met, its row and the number above. */
  lemma NothingOnPath(rows: seq<Row>, head: Option<Head>)
    requires head.None? || head.value.headSeq == 0 || rows == []
    ensures MainPath(rows, head) == []
  {
    if HeadOf(head).Some? {
      var h := HeadOf(head).value;
      assert Find(rows, h) == None && Trail(rows, Some(h), {}) == [h];
      assert [h][..0] == [] && Lines(rows, [h]) == [];
    }
  }

  lemma StepUp(rows: seq<Row>, rank: map<int, real>, s: Option<int>, p: seq<int>, k: nat)
    requires Ranked(rows, rank) && IsTrail(rows, s, p) && 0 < k <= |p|
    ensures p[k - 1] !in p[k..] && p[k - 1..] == [p[k - 1]] + p[k..]
    ensures var r := Find(rows, p[k - 1]);
            if r.Some? then r.value.parent == NumberBefore(p, k - 1)
                            && Lines(rows, p[..k]) == Lines(rows, p[..k - 1]) + [r.value]
            else k == 1 && Lines(rows, p[..k]) == []
  {
    forall j | k <= j < |p| ensures p[k - 1] != p[j] {
      TrailRises(rows, rank, s, p, k - 1, j);
    }
    assert LinkAt(rows, p, k - 1);
    assert p[..k][..k - 1] == p[..k - 1];
  }

  /** Where compaction starts to keep: Python's slice from `-n`. */
  function KeptStart(length: nat, n: int): nat {
    if n > 0 then if n < length then length - n else 0
    else if n == 0 then 0
    else if -n < length then -n else length
  }

  /** Row `i` is kept if it is among the last `n`; with `n == 0` every row is, and with a negative `n` all but the
      first `-n`. */
  lemma KeptIff(length: nat, n: int, i: nat)
    requires i < length
    ensures KeptStart(length, n) <= i <==> if n > 0 then length - i <= n else -n <= i
    ensures KeptStart(length, n) <= length
  {
  }

  /** The parent of a new row. */
  function ParentFor(head: Option<Head>): Option<int> {
    if head.Some? && head.value.headSeq > 0 then Some(head.value.headSeq) else None
  }

  datatype Compaction = NotNeeded | Compacted(summary: int) | KeyError | IndexError

  const SUMMARY_PREFIX := "[Context Summary]\n"

  class MessageTree {
    var rows: seq<Row>
    var head: Option<Head>
    ghost var rank: map<int, real>

    constructor ()
      ensures Valid() && rows == [] && head.None?
    {
      rows, head, rank := [], None, map[];
    }

    ghost predicate Valid()
      reads this
    {
      ValidTree(rows, head, rank)
    }

    function Path(): seq<Row>
      reads this
    {
      MainPath(rows, head)
    }

    /** `get_main_path`: it reads the main path and never gets into a cycle. */
    method GetMainPath() returns (path: seq<Row>, cycle: bool)
      requires Valid()
      ensures path == Path() && !cycle
    {
      hide Ranked, Trail, UniqueNumbers, IsTrail;
      ghost var trail := HeadTrail(rows, head, rank);
      path, cycle := [], false;
      if head.None? || head.value.headSeq == 0 || rows == [] {
        NothingOnPath(rows, head);
        return;
      }
      var s: Option<int>, visited: set<int> := Some(head.value.headSeq), {};
      ghost var k := |trail|;
      assert trail[..k] == trail;
      while s.Some?
        invariant 0 <= k <= |trail| && s == NumberBefore(trail, k)
        invariant Lines(rows, trail) == Lines(rows, trail[..k]) + path
        invariant forall v :: v in visited ==> v in trail[k..]
        decreases k
      {
        StepUp(rows, rank, HeadOf(head), trail, k);
        if s.value in visited {
          cycle := true;
          break;
        }
        visited := visited + {s.value};
        var r := Find(rows, s.value);
        if r.None? {
          break;
        }
        path := [r.value] + path;
        s := r.value.parent;
        k := k - 1;
      }
    }

    /** A number for a new row, its parent and the number after it; a first call creates the head row. */
    method AllocateSeq() returns (s: int, parent: Option<int>, next: int)
      requires Valid()
      modifies `head
      ensures Valid() && head.Some?
      ensures head == if old(head).None? then Some(Head(0, 1)) else old(head)
      ensures s == head.value.nextSeq && next == s + 1
      ensures parent == ParentFor(head) == ParentFor(old(head)) && Path() == old(Path())
    {
      if head.None? {
        head := Some(Head(0, 1));
      }
      parent := if head.value.headSeq > 0 then Some(head.value.headSeq) else None;
      s := head.value.nextSeq;
      next := s + 1;
    }

    /** `append_message`: the main path gets one longer. */
    method AppendMessage(role: string, content: string) returns (s: int)
      requires Valid()
      modifies this
      ensures Valid()
      ensures var r := Row(s, ParentFor(old(head)), role, content);
              rows == old(rows) + [r] && Path() == old(Path()) + [r]
      ensures s == (if old(head).None? then 1 else old(head).value.nextSeq) && head == Some(Head(s, s + 1))
    {
      var parent: Option<int>, next: int;
      s, parent, next := AllocateSeq();
      Insert(Row(s, parent, role, content), next);
    }

    /** The insert and the move of the head. */
    method Insert(r: Row, next: int)
      requires Valid() && head.Some? && r.seqNo == head.value.nextSeq && r.parent == ParentFor(head)
               && next == r.seqNo + 1
      modifies this
      ensures Valid() && rows == old(rows) + [r] && head == Some(Head(r.seqNo, next))
      ensures Path() == old(Path()) + [r]
    {
      ghost var rank' := Appended(rows, head.value, rank, r);
      rows, head, rank := rows + [r], Some(Head(r.seqNo, next)), rank';
    }

    /** `backtrack_head`. Any number is accepted; one on the main path cuts the path after it. */
    method BacktrackHead(target: int) returns (ok: bool)
      requires Valid()
      modifies this
      ensures Valid() && rows == old(rows) && ok == old(head).Some?
      ensures !ok ==> head == old(head)
      ensures ok ==>
                var next := old(head).value.nextSeq;
                head == Some(Head(target, (if target > next then target else next) + 1))
      ensures forall k :: 0 <= k < |old(Path())| && old(Path())[k].seqNo == target ==> Path() == old(Path())[..k + 1]
      ensures ok && Find(rows, target).None? ==> Path() == []
    {
      if head.None? {
        return false;
      }
      var next := (if target > head.value.nextSeq then target else head.value.nextSeq) + 1;
      Backtracked(rows, head.value, rank, target, next);
      head := Some(Head(target, next));
      ok := true;
    }

    /** The numbers of the main path, root first, a dangling root included. */
    method PathNumbers() returns (numbers: seq<int>)
      requires Valid()
      ensures numbers == Trail(rows, HeadOf(head), {}) && IsTrail(rows, HeadOf(head), numbers)
    {
      ghost var trail := HeadTrail(rows, head, rank);
      numbers := [];
      var s: Option<int>, visited: set<int> := HeadOf(head), {};
      ghost var k := |trail|;
      while s.Some?
        invariant 0 <= k <= |trail| && s == NumberBefore(trail, k) && numbers == trail[k..]
        invariant forall v :: v in visited ==> v in trail[k..]
        decreases k
      {
        StepUp(rows, rank, HeadOf(head), trail, k);
        if s.value in visited {
          break;
        }
        visited, numbers := visited + {s.value}, [s.value] + numbers;
        k := k - 1;
        var r := Find(rows, s.value);
        if r.None? {
          break;
        }
        s := r.value.parent;
      }
    }

    /** `compact_main_path`. A summary takes the place of the kept messages at the end of the main path: the
        head moves to it, and the kept messages hang below it, off the path. */
    method CompactMainPath(text: string, keepLastN: int) returns (r: Compaction)
      requires Valid()
      modifies this
      ensures Valid()
      ensures !r.Compacted? ==> unchanged(this)
      ensures var p := old(Trail(rows, HeadOf(head), {}));
              var k := KeptStart(|p|, keepLastN);
              && (r == NotNeeded <==> old(HeadOf(head)).None? || old(rows) == [] || |p| <= keepLastN)
              && (r == IndexError <==> r != NotNeeded && k == |p|)
              && (r == KeyError <==> r != NotNeeded && k < |p| && Find(old(rows), p[k]).None?)
              && (r.Compacted? ==>
                    && k < |p| && Find(old(rows), p[k]).Some? && r.summary == old(head).value.nextSeq
                    && var summary := Row(r.summary, Find(old(rows), p[k]).value.parent, "system", SUMMARY_PREFIX
                                          + text);
                    && rows == Reparent(old(rows) + [summary], p[k], r.summary)
                    && head == Some(Head(r.summary, r.summary + 1))
                    && Path() == Lines(old(rows), p[..k]) + [summary]
                    && IsTrail(rows, old(HeadOf(head)), p[..k] + [r.summary] + p[k..]))
    {
      if head.None? || head.value.headSeq == 0 || rows == [] {
        return NotNeeded;
      }
      var path := PathNumbers();
      if |path| <= keepLastN {
        return NotNeeded;
      }
      var k := KeptStart(|path|, keepLastN);
      if k == |path| {
        return IndexError;
      }
      if Find(rows, path[k]).None? {
        DanglingRoot(rows, rank, HeadOf(head), path, k);
        return KeyError;
      }
      var s := WriteSummary(text, path, k);
      r := Compacted(s);
    }

    /** The three writes of a compaction that keeps the trail from position `k` on. */
    method WriteSummary(text: string, path: seq<int>, k: nat) returns (s: int)
      requires Valid() && head.Some? && IsTrail(rows, HeadOf(head), path) && k < |path| && Find(rows, path[k]).Some?
      modifies this
      ensures Valid() && s == old(head).value.nextSeq && head == Some(Head(s, s + 1))
      ensures var summary := Row(s, Find(old(rows), path[k]).value.parent, "system", SUMMARY_PREFIX + text);
              && rows == Reparent(old(rows) + [summary], path[k], s)
              && Path() == Lines(old(rows), path[..k]) + [summary]
              && IsTrail(rows, old(HeadOf(head)), path[..k] + [s] + path[k..])
    {
      var anchor := Find(rows, path[k]).value.parent;
      var parent: Option<int>, next: int;
      s, parent, next := AllocateSeq();
      var summary := Row(s, anchor, "system", SUMMARY_PREFIX + text);
      ghost var rank' := CompactedTree(rows, head.value, rank, path, k, summary);
      rows := rows + [summary];
      rows := Reparent(rows, path[k], s);
      head, rank := Some(Head(s, next)), rank';
    }
  }

  /** A rank between a row and its parent. */
  function RankBetween(rows: seq<Row>, rank: map<int, real>, x: int): (q: real)
    requires Ranked(rows, rank) && Find(rows, x).Some? && x in rank
    requires var p := Find(rows, x).value.parent; p.Some? && Find(rows, p.value).Some? ==>
               p.value in rank && rank[p.value] < rank[x]
    ensures q < rank[x]
    ensures var p := Find(rows, x).value.parent; p.Some? && Find(rows, p.value).Some? ==> rank[p.value] < q
  {
    var p := Find(rows, x).value.parent;
    if p.Some? && Find(rows, p.value).Some? then (rank[p.value] + rank[x]) / 2.0 else rank[x] - 1.0
  }

  /** The number before position `k` of a trail is the parent of the number there. */
  lemma ParentTrail(rows: seq<Row>, s: Option<int>, p: seq<int>, k: nat)
    requires IsTrail(rows, s, p) && k < |p| && Find(rows, p[k]).Some?
    ensures IsTrail(rows, Find(rows, p[k]).value.parent, p[..k])
  {
    assert LinkAt(rows, p, k);
    if k > 0 {
      TrailPrefix(rows, s, p, k);
    }
  }

  /** A summary inserted above a row of the trail lengthens the trail. */
  lemma OldHeadTrail(rows: seq<Row>, rank: map<int, real>, s: Option<int>, p: seq<int>, k: nat, summary: Row,
                     rows': seq<Row>, up: seq<int>)
    requires Ranked(rows, rank) && IsTrail(rows, s, p) && k < |p| && Find(rows, p[k]).Some? && summary.seqNo !in p
    requires rows' == Reparent(rows + [summary], p[k], summary.seqNo) && IsTrail(rows', Some(summary.seqNo), up)
    ensures IsTrail(rows', s, up + p[k..])
  {
    var q := up + p[k..];
    forall i: nat | i < |q| ensures LinkAt(rows', q, i) {
      if i < |up| {
        assert LinkAt(rows', up, i);
      } else {
        ParentAfter(rows, rank, s, p, k, summary, i - |up| + k);
      }
    }
  }

  lemma ParentAfter(rows: seq<Row>, rank: map<int, real>, s: Option<int>, p: seq<int>, k: nat, summary: Row, j: nat)
    requires Ranked(rows, rank) && IsTrail(rows, s, p) && k <= j < |p| && Find(rows, p[k]).Some? && summary.seqNo !in p
    ensures var r := Find(Reparent(rows + [summary], p[k], summary.seqNo), p[j]);
            r.Some? && r.value.parent == Some(if j == k then summary.seqNo else p[j - 1])
  {
    assert LinkAt(rows, p, j);
    FindInsert(rows, summary, p[j]);
    FindReparent(rows + [summary], p[k], summary.seqNo, p[j]);
    TrailRises(rows, rank, s, p, k, j);
  }

  lemma ReparentedValid(rows: seq<Row>, head: Option<Head>, rank: map<int, real>, x: int, parent: int)
    requires ValidTree(rows, head, rank) && head.Some? && parent < head.value.nextSeq
    requires x in rank && parent in rank && rank[parent] < rank[x]
    ensures ValidTree(Reparent(rows, x, parent), head, rank)
  {
    RankedReparent(rows, rank, x, parent);
  }

  lemma CompactedValid(rows: seq<Row>, head: Head, rank: map<int, real>, x: int, summary: Row)
    returns (rank': map<int, real>)
    requires ValidTree(rows, Some(head), rank) && Find(rows, x).Some?
    requires summary.seqNo == head.nextSeq && summary.parent == Find(rows, x).value.parent
    ensures var head' := Some(Head(summary.seqNo, summary.seqNo + 1));
            ValidTree(rows + [summary], head', rank')
            && ValidTree(Reparent(rows + [summary], x, summary.seqNo), head', rank')
    ensures summary.parent.Some? ==> summary.parent.value < summary.seqNo
  {
    RankOfParent(rows, rank, x);
    assert Find(rows, x).value in rows;
    var q := RankBetween(rows, rank, x);
    Inserted(rows, head, rank, summary, q);
    rank' := rank[summary.seqNo := q];
    ReparentedValid(rows + [summary], Some(Head(summary.seqNo, summary.seqNo + 1)), rank', x, summary.seqNo);
  }

  /** The tree after a compaction that keeps the trail from position `k` on. */
  lemma CompactedTree(rows: seq<Row>, head: Head, rank: map<int, real>, p: seq<int>, k: nat, summary: Row)
    returns (rank': map<int, real>)
    requires ValidTree(rows, Some(head), rank) && IsTrail(rows, HeadOf(Some(head)), p)
    requires k < |p| && Find(rows, p[k]).Some?
    requires summary.seqNo == head.nextSeq && summary.parent == Find(rows, p[k]).value.parent
    ensures var rows' := Reparent(rows + [summary], p[k], summary.seqNo);
            var head' := Some(Head(summary.seqNo, summary.seqNo + 1));
            && ValidTree(rows', head', rank')
            && MainPath(rows', head') == Lines(rows, p[..k]) + [summary]
            && IsTrail(rows', HeadOf(Some(head)), p[..k] + [summary.seqNo] + p[k..])
  {
    rank' := CompactedValid(rows, head, rank, p[k], summary);
    TrailBelow(rows, summary.seqNo, HeadOf(Some(head)), p);
    CompactedPath(rows, rank, HeadOf(Some(head)), p, k, summary, rank');
  }

  lemma CompactedPath(rows: seq<Row>, rank: map<int, real>, s: Option<int>, p: seq<int>, k: nat, summary: Row,
                      rank': map<int, real>)
    requires Ranked(rows, rank) && Below(rows, summary.seqNo) && s.Some? && IsTrail(rows, s, p) && k < |p|
             && Find(rows, p[k]).Some?
    requires summary.seqNo !in p && summary.parent == Find(rows, p[k]).value.parent
    requires summary.parent.Some? ==> summary.parent.value < summary.seqNo
    requires var head' := Some(Head(summary.seqNo, summary.seqNo + 1));
             ValidTree(rows + [summary], head', rank')
             && ValidTree(Reparent(rows + [summary], p[k], summary.seqNo), head', rank')
    ensures var rows', head' := Reparent(rows + [summary], p[k], summary.seqNo),
                                Some(Head(summary.seqNo, summary.seqNo + 1));
            && MainPath(rows', head') == Lines(rows, p[..k]) + [summary]
            && IsTrail(rows', s, p[..k] + [summary.seqNo] + p[k..])
  {
    ParentTrail(rows, s, p, k);
    InsertedPath(rows, rank', summary, p[..k]);
    NewHeadPath(rows, rank, s, p, k, summary, rank', p[..k] + [summary.seqNo]);
    OldHeadTrail(rows, rank, s, p, k, summary, Reparent(rows + [summary], p[k], summary.seqNo),
                 p[..k] + [summary.seqNo]);
  }

  lemma NewHeadPath(rows: seq<Row>, rank: map<int, real>, s: Option<int>, p: seq<int>, k: nat, summary: Row,
                    rank': map<int, real>, up: seq<int>)
    requires Ranked(rows, rank) && IsTrail(rows, s, p) && k < |p| && summary.seqNo !in p
             && up == p[..k] + [summary.seqNo]
    requires summary.seqNo != 0 && IsTrail(rows + [summary], Some(summary.seqNo), up)
    requires ValidTree(Reparent(rows + [summary], p[k], summary.seqNo), Some(Head(summary.seqNo, summary.seqNo + 1)),
                       rank')
    ensures var rows', head' := Reparent(rows + [summary], p[k], summary.seqNo),
                                Some(Head(summary.seqNo, summary.seqNo + 1));
            MainPath(rows', head') == Lines(rows + [summary], up) && IsTrail(rows', Some(summary.seqNo), up)
  {
    SummaryTrail(rows, rank, s, p, k, summary, up);
    MainPathOf(Reparent(rows + [summary], p[k], summary.seqNo), Some(Head(summary.seqNo, summary.seqNo + 1)), rank',
               up);
  }

  lemma SummaryTrail(rows: seq<Row>, rank: map<int, real>, s: Option<int>, p: seq<int>, k: nat, summary: Row,
                     up: seq<int>)
    requires Ranked(rows, rank) && IsTrail(rows, s, p) && k < |p| && summary.seqNo !in p
             && up == p[..k] + [summary.seqNo]
    requires IsTrail(rows + [summary], Some(summary.seqNo), up)
    ensures var rows' := Reparent(rows + [summary], p[k], summary.seqNo);
            IsTrail(rows', Some(summary.seqNo), up) && Lines(rows', up) == Lines(rows + [summary], up)
  {
    forall i | 0 <= i < k ensures p[i] != p[k] {
      TrailRises(rows, rank, s, p, i, k);
    }
    TrailReparent(rows + [summary], p[k], summary.seqNo, Some(summary.seqNo), up);
  }

  /** Only the root of a trail can lack a row, and then the main path is what comes after it. */
  lemma DanglingRoot(rows: seq<Row>, rank: map<int, real>, s: Option<int>, p: seq<int>, k: nat)
    requires Ranked(rows, rank) && IsTrail(rows, s, p) && k < |p| && Find(rows, p[k]).None?
    ensures k == 0
  {
    TrailRises(rows, rank, s, p, k, k);
  }

  /** The trail of the parent of a new row has the same lines as the main path. */
  lemma UpToParent(rows: seq<Row>, head: Option<Head>, parent: Option<int>, p: seq<int>, up: seq<int>)
    requires IsTrail(rows, HeadOf(head), p) && up == (if parent.Some? then p else [])
    requires parent == ParentFor(head)
    requires forall i :: 0 <= i < |rows| ==> 0 < rows[i].seqNo
    ensures IsTrail(rows, parent, up) && Lines(rows, up) == Lines(rows, p)
  {
    if head.Some? && head.value.headSeq < 0 {
      assert LinkAt(rows, p, |p| - 1) && Find(rows, head.value.headSeq).None?;
      assert p[..0] == [];
    }
  }

  /** A new row with the next number keeps the tree valid. */
  lemma Inserted(rows: seq<Row>, head: Head, rank: map<int, real>, r: Row, q: real)
    requires ValidTree(rows, Some(head), rank) && r.seqNo == head.nextSeq
             && (r.parent.Some? ==> r.parent.value < r.seqNo)
    requires r.parent.Some? && Find(rows, r.parent.value).Some? ==> r.parent.value in rank && rank[r.parent.value] < q
    ensures ValidTree(rows + [r], Some(Head(r.seqNo, r.seqNo + 1)), rank[r.seqNo := q])
  {
    RankedInsert(rows, rank, r, q);
  }

  /** The path to a new row is the trail of its parent and the row. */
  lemma InsertedPath(rows: seq<Row>, rank: map<int, real>, r: Row, up: seq<int>)
    requires ValidTree(rows + [r], Some(Head(r.seqNo, r.seqNo + 1)), rank) && Below(rows, r.seqNo)
    requires IsTrail(rows, r.parent, up) && (r.parent.Some? ==> r.parent.value < r.seqNo)
    ensures MainPath(rows + [r], Some(Head(r.seqNo, r.seqNo + 1))) == Lines(rows, up) + [r]
    ensures IsTrail(rows + [r], Some(r.seqNo), up + [r.seqNo])
            && Lines(rows + [r], up + [r.seqNo]) == Lines(rows, up) + [r]
  {
    assert (rows + [r])[|rows|] == r;
    TrailBelow(rows, r.seqNo, r.parent, up);
    TrailInsert(rows, r, r.parent, up);
    FindInsert(rows, r, r.seqNo);
    TrailAppend(rows + [r], r.seqNo, up);
    MainPathOf(rows + [r], Some(Head(r.seqNo, r.seqNo + 1)), rank, up + [r.seqNo]);
  }

  /** A new row under the head extends the main path by itself. */
  lemma Appended(rows: seq<Row>, head: Head, rank: map<int, real>, r: Row) returns (rank': map<int, real>)
    requires ValidTree(rows, Some(head), rank) && r.seqNo == head.nextSeq
    requires r.parent == ParentFor(Some(head))
    ensures ValidTree(rows + [r], Some(Head(r.seqNo, r.seqNo + 1)), rank')
    ensures MainPath(rows + [r], Some(Head(r.seqNo, r.seqNo + 1))) == MainPath(rows, Some(head)) + [r]
  {
    var p := HeadTrail(rows, Some(head), rank);
    var up := if r.parent.Some? then p else [];
    UpToParent(rows, Some(head), r.parent, p, up);
    var q := 0.0;
    if r.parent.Some? && Find(rows, r.parent.value).Some? {
      RankOfParent(rows, rank, r.parent.value);
      q := rank[r.parent.value] + 1.0;
    }
    Inserted(rows, head, rank, r, q);
    rank' := rank[r.seqNo := q];
    InsertedPath(rows, rank', r, up);
  }

  /** A head moved to a line of the main path cuts it there; one moved to a dangling number empties it. */
  lemma Backtracked(rows: seq<Row>, head: Head, rank: map<int, real>, target: int, next: int)
    requires ValidTree(rows, Some(head), rank) && next > target && next > head.nextSeq
    ensures var head', path := Some(Head(target, next)), MainPath(rows, Some(head));
            && ValidTree(rows, head', rank)
            && (forall k :: 0 <= k < |path| && path[k].seqNo == target ==> MainPath(rows, head') == path[..k + 1])
            && (Find(rows, target).None? ==> MainPath(rows, head') == [])
  {
    var head', path := Some(Head(target, next)), MainPath(rows, Some(head));
    var p := HeadTrail(rows, Some(head), rank);
    forall k | 0 <= k < |path| && path[k].seqNo == target ensures MainPath(rows, head') == path[..k + 1] {
      var j := PathPosition(rows, p, k);
      assert Find(rows, p[j]).value in rows;
      TrailPrefix(rows, HeadOf(Some(head)), p, j + 1);
      MainPathOf(rows, head', rank, p[..j + 1]);
    }
    if Find(rows, target).None? {
      var q := if target == 0 then [] else [target];
      assert [target][..0] == [];
      assert target != 0 ==> LinkAt(rows, q, 0);
      MainPathOf(rows, head', rank, q);
    }
  }

  /** The place of a line on the trail. */
  lemma {:induction false} PathPosition(rows: seq<Row>, p: seq<int>, k: nat) returns (j: nat)
    requires k < |Lines(rows, p)|
    ensures j < |p| && p[j] == Lines(rows, p)[k].seqNo && Find(rows, p[j]).Some?
            && Lines(rows, p[..j + 1]) == Lines(rows, p)[..k + 1]
    decreases |p|
  {
    var q := p[..|p| - 1];
    if k < |Lines(rows, q)| {
      j := PathPosition(rows, q, k);
      assert p[..j + 1] == q[..j + 1];
    } else {
      j := |p| - 1;
      assert p[..j + 1] == p;
    }
  }
}
