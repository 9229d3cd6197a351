/**
 Redaction of credentials in free text: `_INLINE_SECRET` as an expression of module Substitution.
 It is read as the regular-expression engine reads it: alternatives in order, greedy repetition, and
 the optional `bearer` given up when no value would be left after it.
 */
module Redaction {
  import opened Options
  import opened Characters
  import opened Substitution

  /** The keywords of the expression and the character tables of the regular-expression engine. Every
      law below holds for all of these that satisfy `Sane`; `SourceIsSane` shows it for the keywords of the
      source. */
  datatype Lexicon = Lexicon(keywords: seq<string>, word: char -> bool, space: char -> bool, fold: char -> char)

  const BEARER := "bearer"

  /** The alternatives of the expression with each optional `[_-]` spelled out. */
  const KEYWORDS: seq<string> := [
    "api_key", "api-key", "apikey",
    "access_token", "access-token", "accesstoken",
    "authorization", "cookie", "credential", "password", "secret", "token"]

  predicate KeyChar(c: char) {
    'a' <= c <= 'z' || c == '_' || c == '-'
  }

  predicate Separator(c: char) {
    c == ':' || c == '='
  }

  /** A character that ends a secret value. */
  predicate Delimiter(t: Lexicon, c: char) {
    t.space(c) || c == ',' || c == ';' || c == '&'
  }

  /** Keywords are nonempty, of letters, `_` and `-`, and none is a prefix of another, so that the order
      of the alternatives is irrelevant. */
  ghost predicate GoodKeywords(keywords: seq<string>) {
    && (forall k, i :: k in keywords && 0 <= i < |k| ==> KeyChar(k[i]))
    && (forall k :: k in keywords ==> |k| > 0)
    && (forall k, k' :: k in keywords && k' in keywords && k <= k' ==> k == k')
  }

  /** White space and punctuation are never case variants of a letter, `_` or `-`, and the marker has none. */
  ghost predicate GoodTables(t: Lexicon) {
    && (forall c :: Delimiter(t, c) || Separator(c) || c == '[' || c == ']' ==> !KeyChar(t.fold(c)))
    && (forall c :: t.space(c) ==> !Separator(c))
    && (forall i :: 0 <= i < |MARKER| ==> !Delimiter(t, MARKER[i]))
  }

  ghost predicate Sane(t: Lexicon) {
    GoodKeywords(t.keywords) && GoodTables(t)
  }

  /** The keywords of the source, with any tables that know the marker's letters in both cases. */
  ghost predicate SourceLexicon(t: Lexicon) {
    && t.keywords == KEYWORDS && GoodTables(t)
    && t.fold('R') == 'r' && t.fold('E') == 'e' && t.fold('D') == 'd'
    && t.fold('A') == 'a' && t.fold('C') == 'c' && t.fold('T') == 't'
  }

  lemma PrefixFree(i: nat, j: nat)
    requires i < |KEYWORDS| && j < |KEYWORDS| && KEYWORDS[i] <= KEYWORDS[j]
    ensures i == j
  {
    var k, k' := KEYWORDS[i], KEYWORDS[j];
    assert k[0] == k'[0] && k[1] == k'[1] && k[2] == k'[2] && k[3] == k'[3];
    if |k| > 6 {
      assert k[6] == k'[6];
    }
  }

  lemma KeywordShape(i: nat)
    requires i < |KEYWORDS|
    ensures |KEYWORDS[i]| > 0 && forall x :: 0 <= x < |KEYWORDS[i]| ==> KeyChar(KEYWORDS[i][x])
  {
  }

  lemma KeywordsFit(keywords: seq<string>)
    requires keywords == KEYWORDS
    ensures GoodKeywords(keywords)
  {
    forall i | 0 <= i < |keywords|
      ensures |keywords[i]| > 0 && forall x :: 0 <= x < |keywords[i]| ==> KeyChar(keywords[i][x])
    {
      KeywordShape(i);
    }
    forall i, j | 0 <= i < |keywords| && 0 <= j < |keywords| && keywords[i] <= keywords[j] ensures i == j {
      PrefixFree(i, j);
    }
  }

  predicate HasPrefix(t: Lexicon, s: string, k: string) {
    |k| <= |s| && forall i :: 0 <= i < |k| ==> t.fold(s[i]) == k[i]
  }

  /** Length of the first keyword that stands at the start of `s`, or 0. */
  function KeyLength(t: Lexicon, s: string, keys: seq<string>): (n: nat)
    ensures n == 0 || exists k :: k in keys && n == |k| && HasPrefix(t, s, k)
    ensures n == 0 ==> forall k :: k in keys && |k| > 0 ==> !HasPrefix(t, s, k)
  {
    if keys == [] then 0
    else if HasPrefix(t, s, keys[0]) && |keys[0]| > 0 then |keys[0]|
    else KeyLength(t, s, keys[1..])
  }

  /** `\s*` from position `i`. */
  function SkipSpaces(t: Lexicon, s: string, i: nat): (j: nat)
    requires i <= |s|
    ensures i <= j <= |s|
    ensures forall x :: i <= x < j ==> t.space(s[x])
    ensures j < |s| ==> !t.space(s[j])
    decreases |s| - i
  {
    if i < |s| && t.space(s[i]) then SkipSpaces(t, s, i + 1) else i
  }

  /** `[^\s,;&]*` from position `i`. */
  function SkipValue(t: Lexicon, s: string, i: nat): (j: nat)
    requires i <= |s|
    ensures i <= j <= |s|
    ensures forall x :: i <= x < j ==> !Delimiter(t, s[x])
    ensures j < |s| ==> Delimiter(t, s[j])
    decreases |s| - i
  {
    if i < |s| && !Delimiter(t, s[i]) then SkipValue(t, s, i + 1) else i
  }

  predicate WordAt(t: Lexicon, s: string, i: nat) {
    i < |s| && t.word(s[i])
  }

  /** The length of the first group when the expression matches at the start of `s`, else 0: a keyword
      between word boundaries, a separator with white space around it, and a value character next. */
  function GroupLength(t: Lexicon, afterWord: bool, s: string): (g: nat)
    ensures g > 0 ==> g < |s| && !Delimiter(t, s[g])
  {
    var k := KeyLength(t, s, t.keywords);
    if k == 0 || k > |s| || afterWord == WordAt(t, s, 0) || WordAt(t, s, k - 1) == WordAt(t, s, k) then 0
    else
      var sep := SkipSpaces(t, s, k);
      if sep == |s| || !Separator(s[sep]) then 0
      else
        var g := SkipSpaces(t, s, sep + 1);
        if g == |s| || Delimiter(t, s[g]) then 0 else g
  }

  /** Where the match ends: `bearer` and the white space after it are skipped if a value follows. */
  function MatchEnd(t: Lexicon, s: string, g: nat): (e: nat)
    requires g < |s| && !Delimiter(t, s[g])
    ensures g < e <= |s|
    ensures e < |s| ==> Delimiter(t, s[e])
  {
    var b := if HasPrefix(t, s[g..], BEARER) then SkipSpaces(t, s, g + |BEARER|) else g;
    if g + |BEARER| < b < |s| && !Delimiter(t, s[b]) then SkipValue(t, s, b) else SkipValue(t, s, g)
  }

  function Find(t: Lexicon, afterWord: bool, s: string): Option<Span> {
    var g := GroupLength(t, afterWord, s);
    if g == 0 then None else Some(Span(g, MatchEnd(t, s, g)))
  }

  function InlineSecret(t: Lexicon): Matcher {
    Matcher((w, s) => Find(t, w, s), t.word, c => Delimiter(t, c))
  }

  // ---- The expression obeys the laws of Substitution ----

  /** The first group in the words of the expression: keyword, separator position, group length. */
  ghost predicate Group(t: Lexicon, afterWord: bool, s: string, key: string, sep: nat, g: nat) {
    && key in t.keywords && HasPrefix(t, s, key) && 0 < |key| <= sep < g < |s|
    && afterWord != WordAt(t, s, 0) && WordAt(t, s, |key| - 1) != WordAt(t, s, |key|)
    && (forall x :: |key| <= x < sep ==> t.space(s[x]))
    && Separator(s[sep])
    && (forall x :: sep < x < g ==> t.space(s[x]))
    && !Delimiter(t, s[g])
  }

  lemma GroupOf(t: Lexicon, afterWord: bool, s: string) returns (key: string, sep: nat)
    requires GroupLength(t, afterWord, s) > 0
    ensures Group(t, afterWord, s, key, sep, GroupLength(t, afterWord, s))
  {
    key :| key in t.keywords && |key| == KeyLength(t, s, t.keywords) && HasPrefix(t, s, key);
    sep := SkipSpaces(t, s, |key|);
  }

  lemma SamePrefix(t: Lexicon, s: string, key: string, key': string)
    requires HasPrefix(t, s, key) && HasPrefix(t, s, key')
    ensures key <= key' || key' <= key
  {
    forall i | 0 <= i < |key| && i < |key'| ensures key[i] == key'[i] {
      assert t.fold(s[i]) == key[i];
      assert t.fold(s[i]) == key'[i];
    }
    assert |key| <= |key'| ==> key <= key';
  }

  lemma KeyLengthIs(t: Lexicon, s: string, key: string)
    requires GoodKeywords(t.keywords) && key in t.keywords && HasPrefix(t, s, key)
    ensures KeyLength(t, s, t.keywords) == |key|
  {
    var n := KeyLength(t, s, t.keywords);
    assert n > 0;
    var key' :| key' in t.keywords && n == |key'| && HasPrefix(t, s, key');
    SamePrefix(t, s, key, key');
  }

  lemma GroupIs(t: Lexicon, afterWord: bool, s: string, key: string, sep: nat, g: nat)
    requires Sane(t) && Group(t, afterWord, s, key, sep, g)
    ensures GroupLength(t, afterWord, s) == g
  {
    hide GoodKeywords, KeyLength;
    KeyLengthIs(t, s, key);
    assert SkipSpaces(t, s, |key|) == sep;
    assert SkipSpaces(t, s, sep + 1) == g;
  }

  lemma SecretLocal(t: Lexicon, w: bool, s: string, s': string)
    requires Sane(t) && SameStart(InlineSecret(t), w, s, s')
    ensures GroupLength(t, w, s') == GroupLength(t, w, s)
  {
    hide GroupLength, MatchEnd, Sane;
    var g := GroupLength(t, w, s);
    var key, sep := GroupOf(t, w, s);
    forall i | 0 <= i < g ensures s'[i] == s[i] {
      assert s'[..g][i] == s[..g][i];
    }
    GroupIs(t, w, s', key, sep, g);
  }

  /** The first group of a match at position `o`: keyword characters up to `k`, the separator at `sep`,
      white space around it, the value from `g` on. */
  ghost predicate Shaped(t: Lexicon, s: string, o: nat, k: nat, sep: nat, g: nat) {
    && o < k <= sep < g < |s|
    && (forall x :: o <= x < k ==> KeyChar(t.fold(s[x])))
    && (forall x :: k <= x < sep ==> t.space(s[x]))
    && (forall x :: sep < x < g ==> t.space(s[x]))
    && Separator(s[sep]) && !Delimiter(t, s[g])
  }

  lemma ShapeAt(t: Lexicon, w: bool, s: string, o: nat) returns (k: nat, sep: nat)
    requires Sane(t) && o <= |s| && GroupLength(t, w, s[o..]) > 0
    ensures Shaped(t, s, o, k, sep, o + GroupLength(t, w, s[o..]))
  {
    var u := s[o..];
    var key, sep' := GroupOf(t, w, u);
    k, sep := o + |key|, o + sep';
    forall x | o <= x < k ensures KeyChar(t.fold(s[x])) {
      assert t.fold(u[x - o]) == key[x - o];
    }
    forall x | k <= x < sep ensures t.space(s[x]) {
      assert u[x - o] == s[x];
    }
    forall x | sep < x < o + GroupLength(t, w, u) ensures t.space(s[x]) {
      assert u[x - o] == s[x];
    }
  }

  /** Two groups in the same text, one starting inside the other, end at the same place: `token`
      inside `access-token`. */
  lemma SameGroupEnd(t: Lexicon, s: string, j: nat, k: nat, sep: nat, g: nat, k': nat, sep': nat, g': nat)
    requires Sane(t) && 0 < j < g && Shaped(t, s, 0, k, sep, g) && Shaped(t, s, j, k', sep', g')
    ensures g' == g
  {
    assert KeyChar(t.fold(s[j]));
    assert j < k && k' <= sep;
    assert sep' == sep;
  }

  lemma SecretNested(t: Lexicon, w: bool, w': bool, s: string, j: nat)
    requires Sane(t) && Inside(InlineSecret(t), w, w', s, j)
    ensures j + GroupLength(t, w', s[j..]) == GroupLength(t, w, s)
  {
    hide Sane, GroupLength;
    assert s[0..] == s;
    var k, sep := ShapeAt(t, w, s, 0);
    var k', sep' := ShapeAt(t, w', s, j);
    SameGroupEnd(t, s, j, k, sep, GroupLength(t, w, s), k', sep', j + GroupLength(t, w', s[j..]));
  }

  lemma SecretStarts(t: Lexicon, w: bool, s: string)
    requires Sane(t) && GroupLength(t, w, s) > 0
    ensures KeyChar(t.fold(s[0]))
  {
    var key, sep := GroupOf(t, w, s);
    assert t.fold(s[0]) == key[0];
  }

  lemma NoBearer(t: Lexicon, s: string, g: nat)
    requires Sane(t) && g < |s| && s[g] == '[' && !Delimiter(t, s[g])
    ensures MatchEnd(t, s, g) == SkipValue(t, s, g)
  {
    assert KeyChar(BEARER[0]);
    assert s[g..][0] == s[g];
  }

  lemma MarkerIsValue(t: Lexicon, s: string, g: nat)
    requires Sane(t) && g + |MARKER| <= |s| && s[g..g + |MARKER|] == MARKER
    requires g + |MARKER| < |s| ==> Delimiter(t, s[g + |MARKER|])
    ensures s[g] == MARKER[0] && SkipValue(t, s, g) == g + |MARKER|
  {
    forall i | g <= i < g + |MARKER| ensures !Delimiter(t, s[i]) {
      assert s[i] == s[g..g + |MARKER|][i - g] == MARKER[i - g];
    }
    assert s[g] == s[g..g + |MARKER|][0];
  }

  lemma SecretTakesMarker(t: Lexicon, w: bool, s: string)
    requires Sane(t) && Marked(InlineSecret(t), w, s)
    ensures var g := GroupLength(t, w, s); MatchEnd(t, s, g) == g + |MARKER|
  {
    hide GroupLength, Sane;
    MarkerIsValue(t, s, GroupLength(t, w, s));
    NoBearer(t, s, GroupLength(t, w, s));
  }

  lemma SecretLocals(t: Lexicon, m: Matcher)
    requires Sane(t) && m == InlineSecret(t)
    ensures Local(m)
  {
    hide GroupLength, MatchEnd, Sane;
    forall w, s, s' | SameStart(m, w, s, s')
      ensures m.find(w, s').Some? && m.find(w, s').value.group == m.find(w, s).value.group
    {
      SecretLocal(t, w, s, s');
    }
  }

  lemma SecretsNested(t: Lexicon, m: Matcher)
    requires Sane(t) && m == InlineSecret(t)
    ensures Nested(m)
  {
    hide GroupLength, MatchEnd, Sane;
    forall w, w', s, j: nat | Inside(m, w, w', s, j)
      ensures j + m.find(w', s[j..]).value.group == m.find(w, s).value.group
    {
      SecretNested(t, w, w', s, j);
    }
  }

  lemma SecretsStart(t: Lexicon, m: Matcher)
    requires Sane(t) && m == InlineSecret(t)
    ensures Starts(m)
  {
    hide GroupLength, MatchEnd;
    forall w, s | m.find(w, s).Some? ensures s != [] && !m.delimiter(s[0]) {
      SecretStarts(t, w, s);
    }
  }

  lemma SecretsTakeMarker(t: Lexicon, m: Matcher)
    requires Sane(t) && m == InlineSecret(t)
    ensures TakesMarker(m)
  {
    hide GroupLength, MatchEnd;
    forall w, s | Marked(m, w, s) ensures m.find(w, s).value.end == m.find(w, s).value.group + |MARKER| {
      SecretTakesMarker(t, w, s);
    }
  }

  lemma SecretBounded(t: Lexicon)
    ensures Bounded(InlineSecret(t))
  {
  }

  lemma InlineSecretLawful(t: Lexicon)
    requires Sane(t)
    ensures Lawful(InlineSecret(t))
  {
    SecretLocals(t, InlineSecret(t));
    SecretsNested(t, InlineSecret(t));
    SecretsStart(t, InlineSecret(t));
    SecretsTakeMarker(t, InlineSecret(t));
  }

  /** `_INLINE_SECRET.sub(r"\1[REDACTED]", s)`: redaction of a string without a parent key. */
  function Redact(t: Lexicon, s: string): string {
    SecretBounded(t);
    Replace(InlineSecret(t), false, s)
  }

  /** Keyword `k` does not start at position `i` of the marker: character `x` differs, in any case. */
  ghost predicate Differs(t: Lexicon, k: string, i: nat, x: nat) {
    x < |k| && i + x < |MARKER| && t.fold(MARKER[i + x]) != k[x]
  }

  ghost predicate NotAt(t: Lexicon, k: string, i: nat) {
    exists x: nat :: Differs(t, k, i, x)
  }

  ghost predicate MarkerHasNoKeyword(t: Lexicon) {
    forall k, i: nat :: k in t.keywords && i < |MARKER| ==> NotAt(t, k, i)
  }

  lemma KeywordsNotInMarker(t: Lexicon)
    requires SourceLexicon(t)
    ensures MarkerHasNoKeyword(t)
  {
    forall k, i: nat | k in t.keywords && i < |MARKER| ensures NotAt(t, k, i) {
      var j :| 0 <= j < |t.keywords| && t.keywords[j] == k;
      NotInMarker(t, j, i);
    }
  }

  lemma NotInMarker(t: Lexicon, j: nat, i: nat)
    requires SourceLexicon(t) && j < |KEYWORDS| && i < |MARKER|
    ensures NotAt(t, KEYWORDS[j], i)
  {
    var k := KEYWORDS[j];
    KeywordShape(j);
    assert KeyChar(k[0]) && |k| > 3;
    if !Differs(t, k, i, 0) {
      assert MARKER[i] == 'A' || MARKER[i] == 'C' || MARKER[i] == 'T';
      assert Differs(t, k, i, 1) || Differs(t, k, i, 2);
    }
  }

  lemma PrefixInMarker(t: Lexicon, key: string, i: nat, rest: string)
    requires i < |MARKER| && HasPrefix(t, MARKER[i..] + rest, key)
    ensures !NotAt(t, key, i)
  {
    forall x: nat | x < |key| && i + x < |MARKER| ensures !Differs(t, key, i, x) {
      assert (MARKER[i..] + rest)[x] == MARKER[i + x];
    }
  }

  lemma NothingInMarker(t: Lexicon, w: bool, i: nat, rest: string)
    requires Sane(t) && MarkerHasNoKeyword(t) && i < |MARKER|
    ensures GroupLength(t, w, MARKER[i..] + rest) == 0
  {
    var u := MARKER[i..] + rest;
    if GroupLength(t, w, u) > 0 {
      var key, sep := GroupOf(t, w, u);
      PrefixInMarker(t, key, i, rest);
    }
  }

  /** The keywords of the source are good, and none of them starts inside the marker. */
  lemma SourceIsSane(t: Lexicon)
    requires SourceLexicon(t)
    ensures Sane(t) && MarkerHasNoKeyword(t)
  {
    KeywordsFit(t.keywords);
    KeywordsNotInMarker(t);
  }

  // ---- What goes and what stays, in the words of the expression ----

  /** A nonempty value from `v` up to a delimiter or the end of the text at `e`. */
  ghost predicate ValueAt(t: Lexicon, s: string, v: nat, e: nat) {
    && v < e <= |s| && (forall x :: v <= x < e ==> !Delimiter(t, s[x]))
    && (e < |s| ==> Delimiter(t, s[e]))
  }

  /** From `g` the text reads `bearer` in any case, white space, and a value from `v` to `e`. */
  ghost predicate BearerAt(t: Lexicon, s: string, g: nat, v: nat, e: nat) {
    && g + |BEARER| < v && ValueAt(t, s, v, e) && HasPrefix(t, s[g..], BEARER)
    && (forall x :: g + |BEARER| <= x < v ==> t.space(s[x]))
  }

  /** A first group and the end of its match say what the replacement is. */
  lemma MatchGoes(t: Lexicon, w: bool, s: string, key: string, sep: nat, g: nat, e: nat)
    requires Sane(t) && Group(t, w, s, key, sep, g) && MatchEnd(t, s, g) == e
    ensures Bounded(InlineSecret(t)) && 0 < e <= |s|
    ensures Replace(InlineSecret(t), w, s) == s[..g] + MARKER + Replace(InlineSecret(t), t.word(s[e - 1]), s[e..])
  {
    hide GroupLength, MatchEnd, Sane, Bounded, Replace;
    GroupIs(t, w, s, key, sep, g);
    SecretBounded(t);
    ReplacesMatch(InlineSecret(t), w, s, Span(g, e));
  }

  lemma BearerEnd(t: Lexicon, s: string, g: nat, v: nat, e: nat)
    requires g < |s| && !Delimiter(t, s[g]) && BearerAt(t, s, g, v, e)
    ensures MatchEnd(t, s, g) == e
  {
    assert !Delimiter(t, s[v]);
    assert SkipSpaces(t, s, g + |BEARER|) == v;
    assert SkipValue(t, s, v) == e;
  }

  lemma PlainEnd(t: Lexicon, s: string, g: nat, e: nat)
    requires ValueAt(t, s, g, e) && forall v, e' :: !BearerAt(t, s, g, v, e')
    ensures MatchEnd(t, s, g) == e
  {
    assert SkipValue(t, s, g) == e;
    if HasPrefix(t, s[g..], BEARER) {
      var b := SkipSpaces(t, s, g + |BEARER|);
      if g + |BEARER| < b < |s| && !Delimiter(t, s[b]) {
        assert SkipValue(t, s, b) == SkipValue(t, s, b + 1);
        assert BearerAt(t, s, g, b, SkipValue(t, s, b));
      }
    }
  }

  /** After a keyword, a separator and white space, `bearer` goes together with the value behind it. */
  lemma BearerGoes(t: Lexicon, w: bool, s: string, key: string, sep: nat, g: nat, v: nat, e: nat)
    requires SourceLexicon(t) && Group(t, w, s, key, sep, g) && BearerAt(t, s, g, v, e)
    ensures Bounded(InlineSecret(t))
    ensures Replace(InlineSecret(t), w, s) == s[..g] + MARKER + Replace(InlineSecret(t), t.word(s[e - 1]), s[e..])
  {
    hide Sane, SourceLexicon, MatchEnd;
    SourceIsSane(t);
    BearerEnd(t, s, g, v, e);
    MatchGoes(t, w, s, key, sep, g, e);
  }

  /** Any other value goes as a whole. */
  lemma ValueGoes(t: Lexicon, w: bool, s: string, key: string, sep: nat, g: nat, e: nat)
    requires SourceLexicon(t) && Group(t, w, s, key, sep, g) && ValueAt(t, s, g, e)
    requires forall v, e' :: !BearerAt(t, s, g, v, e')
    ensures Bounded(InlineSecret(t))
    ensures Replace(InlineSecret(t), w, s) == s[..g] + MARKER + Replace(InlineSecret(t), t.word(s[e - 1]), s[e..])
  {
    hide Sane, SourceLexicon, MatchEnd, BearerAt;
    SourceIsSane(t);
    PlainEnd(t, s, g, e);
    MatchGoes(t, w, s, key, sep, g, e);
  }

  /** No secret starts here. */
  ghost predicate NoGroup(t: Lexicon, w: bool, s: string) {
    forall key, sep, g :: !Group(t, w, s, key, sep, g)
  }

  /** A character at which no secret starts stays. */
  lemma CharacterStays(t: Lexicon, w: bool, s: string)
    requires s != [] && NoGroup(t, w, s)
    ensures Bounded(InlineSecret(t))
    ensures Replace(InlineSecret(t), w, s) == [s[0]] + Replace(InlineSecret(t), t.word(s[0]), s[1..])
  {
    hide GroupLength, MatchEnd, NoGroup, Bounded;
    NoGroupFound(t, w, s);
    SecretBounded(t);
  }

  lemma NoGroupFound(t: Lexicon, w: bool, s: string)
    requires NoGroup(t, w, s)
    ensures GroupLength(t, w, s) == 0
  {
    hide GroupLength, MatchEnd;
    if GroupLength(t, w, s) > 0 {
      var key, sep := GroupOf(t, w, s);
    }
  }

  /** A text in which no secret starts anywhere stays as it is. */
  lemma TextStays(t: Lexicon, w: bool, s: string)
    requires forall i: nat :: i <= |s| ==> NoGroup(t, Before(InlineSecret(t), w, s, i), s[i..])
    ensures Bounded(InlineSecret(t)) && Replace(InlineSecret(t), w, s) == s
  {
    hide NoGroup, Bounded, GroupLength, MatchEnd, Replace;
    SecretBounded(t);
    var m := InlineSecret(t);
    forall i: nat | i <= |s| ensures m.find(Before(m, w, s, i), s[i..]).None? {
      NoGroupFound(t, Before(m, w, s, i), s[i..]);
    }
    ReplaceNothing(m, w, s);
  }

  function PythonLexicon(word: char -> bool): Lexicon {
    Lexicon(KEYWORDS, word, Whitespace, Fold)
  }

  /** The tables of the regular-expression engine fit, whatever counts as a character of a word. */
  lemma PythonLexiconFits(word: char -> bool)
    ensures SourceLexicon(PythonLexicon(word))
  {
    var t := PythonLexicon(word);
    forall c | Delimiter(t, c) || Separator(c) || c == '[' || c == ']' ensures !KeyChar(t.fold(c)) {
      assert t.fold(c) == Fold(c) == c;
    }
    forall i | 0 <= i < |MARKER| ensures !Delimiter(t, MARKER[i]) {
      assert 'A' <= MARKER[i] <= ']';
    }
  }

  /** Redaction of a string is idempotent. */
  lemma RedactIdempotent(t: Lexicon, s: string)
    requires SourceLexicon(t)
    ensures Redact(t, Redact(t, s)) == Redact(t, s)
  {
    SourceIsSane(t);
    InlineSecretLawful(t);
    ReplaceIdempotent(InlineSecret(t), false, s);
  }

  lemma OnlyMarkersAreLeft(t: Lexicon, s: string)
    requires Sane(t) && MarkerHasNoKeyword(t)
    ensures OnlyMarkers(InlineSecret(t), false, Redact(t, s))
  {
    var m := InlineSecret(t);
    InlineSecretLawful(t);
    assert MarkerStartsNothing(m) by {
      forall w, i: nat, rest | i < |MARKER| ensures m.find(w, MARKER[i..] + rest).None? {
        NothingInMarker(t, w, i, rest);
      }
    }
    OnlyMarkersRemain(m, false, s);
  }

  /** In a redacted text every match of the expression, wherever it starts, has the value `[REDACTED]`. */
  lemma RedactLeavesNoSecret(t: Lexicon, s: string)
    requires SourceLexicon(t)
    ensures OnlyMarkers(InlineSecret(t), false, Redact(t, s))
  {
    SourceIsSane(t);
    OnlyMarkersAreLeft(t, s);
  }
}
