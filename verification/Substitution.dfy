/**
 Replacing the value part of every match of an expression by a marker, reading the text from left to
 right (`re.sub` with a replacement `\1[REDACTED]`), and why doing it twice changes nothing.

 A text is always paired with the class of the character before it, because an expression may look
 one character back.
 */
module Substitution {
  import opened Options

  const MARKER := "[REDACTED]"

  /** A match at the start of a text: the length of its first group, and where the match ends. */
  datatype Span = Span(group: nat, end: nat)

  /** An expression: its match at the start of a text, if any. A value ends at a delimiter. */
  datatype Matcher = Matcher(
    find: (bool, string) -> Option<Span>,
    word: char -> bool,
    delimiter: char -> bool)

  /** The first group is followed by a nonempty value, which runs up to a delimiter. */
  ghost predicate Bounded(m: Matcher) {
    forall w, s :: m.find(w, s).Some? ==>
                     var r := m.find(w, s).value;
                     && 0 < r.group < r.end <= |s| && !m.delimiter(s[r.group])
                     && (r.end < |s| ==> m.delimiter(s[r.end]))
  }

  /** Whether there is a match depends only on the text up to the first character of the value. */
  ghost predicate Local(m: Matcher) {
    forall w, s, s' {:trigger SameStart(m, w, s, s')} ::
      SameStart(m, w, s, s') ==>
        m.find(w, s').Some? && m.find(w, s').value.group == m.find(w, s).value.group
  }

  ghost predicate SameStart(m: Matcher, w: bool, s: string, s': string) {
    && m.find(w, s).Some?
    && var g := m.find(w, s).value.group;
    g < |s| && g < |s'| && s'[..g] == s[..g] && !m.delimiter(s'[g])
  }

  /** A match that starts inside the first group of another one has the same value. */
  ghost predicate Nested(m: Matcher) {
    forall w, w', s, j: nat {:trigger Inside(m, w, w', s, j)} ::
      Inside(m, w, w', s, j) ==>
        j + m.find(w', s[j..]).value.group == m.find(w, s).value.group
  }

  ghost predicate Inside(m: Matcher, w: bool, w': bool, s: string, j: nat) {
    0 < j <= |s| && m.find(w, s).Some? && j < m.find(w, s).value.group && m.find(w', s[j..]).Some?
  }

  /** No match starts at a delimiter or at the end of the text. */
  ghost predicate Starts(m: Matcher) {
    forall w, s :: m.find(w, s).Some? ==> s != [] && !m.delimiter(s[0])
  }

  /** The marker is a whole value when a delimiter or the end of the text follows it. */
  ghost predicate TakesMarker(m: Matcher) {
    && (forall i :: 0 <= i < |MARKER| ==> !m.delimiter(MARKER[i]))
    && forall w, s {:trigger Marked(m, w, s)} ::
         Marked(m, w, s) ==> m.find(w, s).value.end == m.find(w, s).value.group + |MARKER|
  }

  ghost predicate Marked(m: Matcher, w: bool, s: string) {
    && m.find(w, s).Some?
    && var e := m.find(w, s).value.group + |MARKER|;
    && e <= |s| && s[e - |MARKER|..e] == MARKER
    && (e < |s| ==> m.delimiter(s[e]))
  }

  ghost predicate Lawful(m: Matcher) {
    Bounded(m) && Local(m) && Nested(m) && Starts(m) && TakesMarker(m)
  }

  function Replace(m: Matcher, afterWord: bool, s: string): string
    requires Bounded(m)
    decreases |s|
  {
    match m.find(afterWord, s)
    case Some(r) =>
      s[..r.group] + MARKER + Replace(m, m.word(s[r.end - 1]), s[r.end..])
    case None =>
      if s == [] then [] else [s[0]] + Replace(m, m.word(s[0]), s[1..])
  }

  /** The class of the character before position `i`. */
  function Before(m: Matcher, afterWord: bool, s: string, i: nat): bool
    requires i <= |s|
  {
    if i == 0 then afterWord else m.word(s[i - 1])
  }

  /** A match is replaced up to its value's end. */
  lemma ReplacesMatch(m: Matcher, w: bool, s: string, r: Span)
    requires Bounded(m) && m.find(w, s) == Some(r)
    ensures 0 < r.group < r.end <= |s|
    ensures Replace(m, w, s) == s[..r.group] + MARKER + Replace(m, m.word(s[r.end - 1]), s[r.end..])
  {
    var rest := Replace(m, m.word(s[r.end - 1]), s[r.end..]);
  }

  /** A text without a match anywhere stays. */
  lemma {:induction false} ReplaceNothing(m: Matcher, w: bool, s: string)
    requires Bounded(m)
    requires forall i: nat :: i <= |s| ==> m.find(Before(m, w, s, i), s[i..]).None?
    ensures Replace(m, w, s) == s
    decreases |s|
  {
    hide Bounded;
    assert s[0..] == s;
    assert m.find(Before(m, w, s, 0), s[0..]).None?;
    if s != [] {
      var w', rest := m.word(s[0]), s[1..];
      forall i: nat | i <= |rest| ensures m.find(Before(m, w', rest, i), rest[i..]).None? {
        assert rest[i..] == s[i + 1..];
        assert m.find(Before(m, w, s, i + 1), s[i + 1..]).None?;
      }
      ReplaceNothing(m, w', rest);
    }
  }

  /** Replacement in `s` gave `out`, and the first value it changed is that of a match at `j` with a
      first group of length `g`; `g == 0` when it changed nothing. */
  ghost predicate ChangedFirst(m: Matcher, w: bool, s: string, out: string, j: nat, g: nat) {
    if g == 0 then out == s
    else
      && j + g < |s| && j + g < |out| && out[..j + g] == s[..j + g] && out[j + g] == MARKER[0]
      && m.find(Before(m, w, s, j), s[j..]).Some?
      && m.find(Before(m, w, s, j), s[j..]).value.group == g
  }

  lemma ChangedHere(m: Matcher, w: bool, s: string)
    requires Bounded(m) && m.find(w, s).Some?
    ensures ChangedFirst(m, w, s, Replace(m, w, s), 0, m.find(w, s).value.group)
  {
    assert s[0..] == s;
  }

  lemma NothingChanged(m: Matcher, w: bool)
    requires Bounded(m)
    ensures ChangedFirst(m, w, [], Replace(m, w, []), 0, 0)
  {
  }

  lemma ReplaceSkips(m: Matcher, w: bool, s: string)
    requires Bounded(m) && s != [] && m.find(w, s).None?
    ensures Replace(m, w, s) == [s[0]] + Replace(m, m.word(s[0]), s[1..])
  {
  }

  lemma {:induction false} FirstChange(m: Matcher, w: bool, s: string) returns (j: nat, g: nat)
    requires Bounded(m)
    ensures ChangedFirst(m, w, s, Replace(m, w, s), j, g)
    decreases |s|
  {
    hide ChangedFirst;
    if m.find(w, s).Some? {
      j, g := 0, m.find(w, s).value.group;
      ChangedHere(m, w, s);
    } else if s == [] {
      j, g := 0, 0;
      NothingChanged(m, w);
    } else {
      j, g := FirstChange(m, m.word(s[0]), s[1..]);
      ReplaceSkips(m, w, s);
      ChangedLater(m, w, s, Replace(m, m.word(s[0]), s[1..]), j, g);
      j := j + 1;
    }
  }

  lemma ChangedLater(m: Matcher, w: bool, s: string, rest: string, i: nat, g: nat)
    requires s != [] && ChangedFirst(m, m.word(s[0]), s[1..], rest, i, g)
    ensures ChangedFirst(m, w, s, [s[0]] + rest, i + 1, g)
  {
    assert [s[0]] + s[1..] == s;
    if g > 0 {
      assert s[1..][i..] == s[i + 1..];
      assert ([s[0]] + rest)[..i + 1 + g] == [s[0]] + rest[..i + g];
      assert s[..i + 1 + g] == [s[0]] + s[1..][..i + g];
    }
  }

  /** A match at the start of the new text was one of the old text, unless it starts there. */
  lemma MatchWasThere(m: Matcher, w: bool, s: string, out: string, j: nat, g: nat)
    requires Lawful(m) && ChangedFirst(m, w, s, out, j, g) && (g > 0 ==> j > 0)
    requires m.find(w, out).Some?
    ensures m.find(w, s).Some?
  {
    if g > 0 {
      var G := m.find(w, out).value.group;
      if G >= j + g {
        var prev := Before(m, w, s, j);
        assert prev == Before(m, w, out, j) by {
          assert out[..j + g][j - 1] == s[..j + g][j - 1];
        }
        assert SameStart(m, prev, s[j..], out[j..]) by {
          assert out[j..][..g] == out[..j + g][j..] == s[..j + g][j..] == s[j..][..g];
        }
        assert Inside(m, w, prev, out, j);
        assert s[j..][g] == s[G];
      } else {
        assert out[..j + g][G] == s[..j + g][G];
      }
      assert SameStart(m, w, out, s) by {
        assert out[..G] == out[..j + g][..G] == s[..j + g][..G] == s[..G];
      }
    }
  }

  /** Replacing in what follows a position that matches nothing creates no match there. */
  lemma NoNewMatch(m: Matcher, w: bool, s: string)
    requires Lawful(m) && s != [] && m.find(w, s).None?
    ensures m.find(w, Replace(m, w, s)).None?
  {
    var j, g := FirstChange(m, w, s);
    assert s[0..] == s;
    if m.find(w, Replace(m, w, s)).Some? {
      MatchWasThere(m, w, s, Replace(m, w, s), j, g);
    }
  }

  /** Text that is empty or starts with a delimiter is treated the same way after any character. */
  lemma DelimiterFirst(m: Matcher, w: bool, w': bool, s: string)
    requires Lawful(m) && (s == [] || m.delimiter(s[0]))
    ensures Replace(m, w, s) == Replace(m, w', s)
    ensures if s == [] then Replace(m, w, s) == [] else Replace(m, w, s) != [] && Replace(m, w, s)[0] == s[0]
  {
    assert m.find(w, s).None? && m.find(w', s).None?;
  }

  /** A replaced match is found again, with the marker as its whole value. */
  lemma MatchAgain(m: Matcher, afterWord: bool, s: string, rest: string)
    requires Lawful(m) && m.find(afterWord, s).Some?
    requires rest == [] || m.delimiter(rest[0])
    ensures var g := m.find(afterWord, s).value.group;
            m.find(afterWord, s[..g] + MARKER + rest) == Some(Span(g, g + |MARKER|))
  {
    var g := m.find(afterWord, s).value.group;
    var out := s[..g] + MARKER + rest;
    assert out[..g] == s[..g] && out[g] == MARKER[0];
    assert SameStart(m, afterWord, s, out);
    assert Marked(m, afterWord, out);
  }

  /** Replacing again at the first match, if that has no effect behind it. */
  lemma AgainAtMatch(m: Matcher, afterWord: bool, s: string, r: Span)
    requires Lawful(m) && m.find(afterWord, s) == Some(r)
    requires var w := m.word(s[r.end - 1]);
             Replace(m, w, Replace(m, w, s[r.end..])) == Replace(m, w, s[r.end..])
    ensures Replace(m, afterWord, Replace(m, afterWord, s)) == Replace(m, afterWord, s)
  {
    var out := Replace(m, afterWord, s);
    var w, g := m.word(s[r.end - 1]), r.group;
    var rest := Replace(m, w, s[r.end..]);
    DelimiterFirst(m, w, w, s[r.end..]);
    MatchAgain(m, afterWord, s, rest);
    var w' := m.word(out[g + |MARKER| - 1]);
    DelimiterFirst(m, w, w', rest);
    assert out[..g] == s[..g];
    assert out[g + |MARKER|..] == rest;
  }

  /** Replacing twice is replacing once, for every text. */
  lemma {:induction false} ReplaceIdempotent(m: Matcher, afterWord: bool, s: string)
    requires Lawful(m)
    ensures Replace(m, afterWord, Replace(m, afterWord, s)) == Replace(m, afterWord, s)
    decreases |s|
  {
    match m.find(afterWord, s)
    case Some(r) =>
      ReplaceIdempotent(m, m.word(s[r.end - 1]), s[r.end..]);
      AgainAtMatch(m, afterWord, s, r);
    case None =>
      if s != [] {
        NoNewMatch(m, afterWord, s);
        ReplaceIdempotent(m, m.word(s[0]), s[1..]);
        assert Replace(m, afterWord, s)[1..] == Replace(m, m.word(s[0]), s[1..]);
      }
  }

  /** A match at position `i` has exactly the marker as its value. */
  ghost predicate MarkerAt(m: Matcher, afterWord: bool, s: string, i: nat)
    requires i <= |s|
  {
    var r := m.find(Before(m, afterWord, s, i), s[i..]);
    r.Some? ==> r.value.group <= r.value.end <= |s| - i && s[i + r.value.group..i + r.value.end] == MARKER
  }

  /** No match starts inside a marker. */
  ghost predicate MarkerStartsNothing(m: Matcher) {
    forall w, k: nat, rest :: k < |MARKER| ==> m.find(w, MARKER[k..] + rest).None?
  }

  /** Moving a text to the right of another one moves its matches along. */
  lemma MarkerShift(m: Matcher, w: bool, w': bool, left: string, s: string, out: string, i: nat)
    requires out == left + s && i <= |s| && left != [] && m.word(left[|left| - 1]) == w'
    requires MarkerAt(m, w', s, i)
    ensures MarkerAt(m, w, out, |left| + i)
  {
    hide Lawful;
    var k := |left| + i;
    assert out[k..] == s[i..];
    assert Before(m, w, out, k) == Before(m, w', s, i);
    var r := m.find(Before(m, w', s, i), s[i..]);
    if r.Some? {
      assert out[k + r.value.group..k + r.value.end] == s[i + r.value.group..i + r.value.end];
    }
  }

  /** A match whose group ends right before a marker with a delimiter or nothing behind it has the marker as
      its value. */
  lemma MarkerTaken(m: Matcher, prev: bool, u: string, g: nat)
    requires TakesMarker(m) && m.find(prev, u).Some? && m.find(prev, u).value.group == g
    requires g + |MARKER| <= |u| && u[g..g + |MARKER|] == MARKER
    requires g + |MARKER| < |u| ==> m.delimiter(u[g + |MARKER|])
    ensures m.find(prev, u).value.end == g + |MARKER|
  {
    assert Marked(m, prev, u);
  }

  /** The same inside the first group of a replaced match. */
  lemma MarkerInGroup(m: Matcher, afterWord: bool, head: string, rest: string, i: nat)
    requires Lawful(m) && i < |head| && (rest == [] || m.delimiter(rest[0]))
    requires m.find(afterWord, head + MARKER + rest) == Some(Span(|head|, |head| + |MARKER|))
    ensures MarkerAt(m, afterWord, head + MARKER + rest, i)
  {
    hide Local, Bounded, Starts, TakesMarker, Marked;
    var out := head + MARKER + rest;
    var prev, u := Before(m, afterWord, out, i), out[i..];
    if m.find(prev, u).Some? {
      var g := m.find(prev, u).value.group;
      if i == 0 {
        assert u == out;
      } else {
        assert Inside(m, afterWord, prev, out, i);
      }
      MarkerSits(head, rest, i, g);
      MarkerTaken(m, prev, u, g);
    }
  }

  lemma MarkerSits(head: string, rest: string, i: nat, g: nat)
    requires i + g == |head|
    ensures var out := head + MARKER + rest; var u := out[i..];
                                             && |u| == g + |MARKER| + |rest| && u[g..g + |MARKER|] == MARKER
                                             && out[i + g..i + g + |MARKER|] == MARKER
                                             && (rest != [] ==> u[g + |MARKER|] == rest[0])
  {
  }

  /** The same inside the marker itself. */
  lemma MarkerInMarker(m: Matcher, w: bool, head: string, rest: string, i: nat)
    requires MarkerStartsNothing(m) && |head| <= i < |head| + |MARKER|
    ensures MarkerAt(m, w, head + MARKER + rest, i)
  {
    assert (head + MARKER + rest)[i..] == MARKER[i - |head|..] + rest;
  }

  ghost predicate OnlyMarkers(m: Matcher, w: bool, s: string) {
    forall i: nat :: i <= |s| ==> MarkerAt(m, w, s, i)
  }

  lemma MarkersAfterMatch(m: Matcher, w: bool, next: bool, head: string, rest: string)
    requires Lawful(m) && MarkerStartsNothing(m) && (rest == [] || m.delimiter(rest[0]))
    requires next == m.word(MARKER[|MARKER| - 1]) && OnlyMarkers(m, next, rest)
    requires m.find(w, head + MARKER + rest) == Some(Span(|head|, |head| + |MARKER|))
    ensures OnlyMarkers(m, w, head + MARKER + rest)
  {
    forall i: nat | i <= |head + MARKER + rest| ensures MarkerAt(m, w, head + MARKER + rest, i) {
      if i < |head| {
        MarkerInGroup(m, w, head, rest, i);
      } else if i < |head| + |MARKER| {
        MarkerInMarker(m, w, head, rest, i);
      } else {
        MarkerShift(m, w, next, head + MARKER, rest, head + MARKER + rest, i - |head| - |MARKER|);
      }
    }
  }

  lemma MarkersAfterSkip(m: Matcher, w: bool, c: char, rest: string)
    requires m.find(w, [c] + rest).None? && OnlyMarkers(m, m.word(c), rest)
    ensures OnlyMarkers(m, w, [c] + rest)
  {
    forall i: nat | i <= |rest| + 1 ensures MarkerAt(m, w, [c] + rest, i) {
      if i == 0 {
        assert ([c] + rest)[0..] == [c] + rest;
      } else {
        MarkerShift(m, w, m.word(c), [c], rest, [c] + rest, i - 1);
      }
    }
  }

  lemma ReplaceMatches(m: Matcher, w: bool, s: string) returns (head: string, tail: string, next: bool)
    requires Lawful(m) && m.find(w, s).Some?
    ensures |tail| < |s| && next == m.word(MARKER[|MARKER| - 1])
    ensures var rest := Replace(m, next, tail);
            && Replace(m, w, s) == head + MARKER + rest
            && (rest == [] || m.delimiter(rest[0]))
            && m.find(w, head + MARKER + rest) == Some(Span(|head|, |head| + |MARKER|))
  {
    var r := m.find(w, s).value;
    head, tail := s[..r.group], s[r.end..];
    next := m.word(MARKER[|MARKER| - 1]);
    var w' := m.word(s[r.end - 1]);
    DelimiterFirst(m, w', next, tail);
    MatchAgain(m, w, s, Replace(m, w', tail));
  }

  /** After replacement every match, wherever it starts, has the marker as its whole value: no value
      of the original text is left beside its key. */
  lemma {:induction false} OnlyMarkersRemain(m: Matcher, w: bool, s: string)
    requires Lawful(m) && MarkerStartsNothing(m)
    ensures OnlyMarkers(m, w, Replace(m, w, s))
    decreases |s|
  {
    if m.find(w, s).Some? {
      var head, tail, next := ReplaceMatches(m, w, s);
      OnlyMarkersRemain(m, next, tail);
      MarkersAfterMatch(m, w, next, head, Replace(m, next, tail));
    } else if s != [] {
      NoNewMatch(m, w, s);
      OnlyMarkersRemain(m, m.word(s[0]), s[1..]);
      MarkersAfterSkip(m, w, s[0], Replace(m, m.word(s[0]), s[1..]));
    }
  }
}
