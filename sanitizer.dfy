/**
  The metric-name sanitiser of lib/index.js (the transform inside `escape`; the cache is in
  module EscapeCache).

  `Sanitize` is the three chained regular-expression replacements, one
  function per step. `Normalize` is an independent one-pass definition of
  the same transform (a three-state scanner); `SanitizeMatchesNormalize`
  proves the two equal, and the properties of the result are proved on
  whichever of the two makes them easiest.

  A JavaScript string is a sequence of UTF-16 code units, a Dafny `char` a
  Unicode scalar value. The difference is invisible here: a character
  outside the basic plane is two code units, both outside `[a-zA-Z0-9_-]`,
  so the first step turns it into `__`, which the second step collapses
  to the single `_` a one-`char` model produces.
*/
module Sanitizer {

  /** `[a-zA-Z0-9-]`: the characters that are kept and never act as separators. */
  predicate IsWordChar(c: char) {
    ('a' <= c <= 'z') || ('A' <= c <= 'Z') || ('0' <= c <= '9') || c == '-'
  }

  /** `[a-zA-Z0-9_-]`: the characters the first step leaves alone. */
  predicate IsSafeChar(c: char) {
    IsWordChar(c) || c == '_'
  }

  /** A sanitised metric name: only safe characters, no `__`, no `_` at either end. */
  predicate IsMetricName(s: string) {
    && (forall i :: 0 <= i < |s| ==> IsSafeChar(s[i]))
    && (forall i :: 0 < i < |s| ==> !(s[i - 1] == '_' && s[i] == '_'))
    && (s != [] ==> s[0] != '_' && s[|s| - 1] != '_')
  }

  predicate HasWordChar(s: string) {
    exists i :: 0 <= i < |s| && IsWordChar(s[i])
  }

  /** The word characters of `s`, in order. */
  function WordChars(s: string): string {
    if s == [] then [] else (if IsWordChar(s[0]) then [s[0]] else []) + WordChars(s[1..])
  }

  // ---------------------------------------------------------------------
  // The transform as written: three replacements in a row.
  // ---------------------------------------------------------------------

  /** Step 1, `replace(/[^a-zA-Z0-9_-]/g, '_')`. */
  function ReplaceUnsafe(s: string): string {
    if s == [] then [] else [if IsSafeChar(s[0]) then s[0] else '_'] + ReplaceUnsafe(s[1..])
  }

  /** Step 2, `replace(/_+/g, '_')`: every run of underscores keeps only its last one. */
  function CollapseRuns(s: string): string {
    if |s| <= 1 then s
    else if s[0] == '_' && s[1] == '_' then CollapseRuns(s[1..])
    else [s[0]] + CollapseRuns(s[1..])
  }

  /** The `^_+` alternative of step 3. */
  function TrimStart(s: string): string {
    if s != [] && s[0] == '_' then TrimStart(s[1..]) else s
  }

  /** The `_+$` alternative of step 3. */
  function TrimEnd(s: string): string {
    if s != [] && s[|s| - 1] == '_' then TrimEnd(s[..|s| - 1]) else s
  }

  /** Step 3, `replace(/(^_+|_+$)/g, '')`. */
  function TrimEdges(s: string): string {
    TrimEnd(TrimStart(s))
  }

  /** The transform `escape` applies to a non-empty label (lib/index.js:15-18). */
  function Sanitize(s: string): string {
    TrimEdges(CollapseRuns(ReplaceUnsafe(s)))
  }

  // ---------------------------------------------------------------------
  // Reference definition: one left-to-right pass.
  // ---------------------------------------------------------------------

  /**
    Start: nothing written yet; InWord: the last character read was a word
    character; Gap: separators were read after some word character, so one
    `_` is owed before the next word character.
  */
  datatype ScanState = Start | InWord | Gap

  function Scan(s: string, q: ScanState): string
    decreases |s|
  {
    if s == [] then []
    else if IsWordChar(s[0]) then (if q == Gap then ['_', s[0]] else [s[0]]) + Scan(s[1..], InWord)
    else Scan(s[1..], if q == Start then Start else Gap)
  }

  /** Words of `s` (maximal runs of word characters) joined by single underscores. */
  function Normalize(s: string): string {
    Scan(s, Start)
  }

  // ---------------------------------------------------------------------
  // Lemmas about the steps
  // ---------------------------------------------------------------------

  lemma {:induction false} TrimStartShape(s: string)
    ensures TrimStart(s) == [] || TrimStart(s)[0] != '_'
    decreases |s|
  {
    if s != [] && s[0] == '_' {
      TrimStartShape(s[1..]);
    }
  }

  lemma {:induction false} CollapseHead(s: string)
    requires s != []
    ensures CollapseRuns(s) != [] && CollapseRuns(s)[0] == s[0]
    decreases |s|
  {
    if |s| > 1 && s[0] == '_' && s[1] == '_' {
      CollapseHead(s[1..]);
    }
  }

  /** A run of underscores at the front collapses to one, whatever follows it. */
  lemma {:induction false} CollapseUnderscoreRun(u: string)
    ensures CollapseRuns(['_'] + u) == ['_'] + CollapseRuns(TrimStart(u))
    decreases |u|
  {
    if u != [] && u[0] == '_' {
      assert (['_'] + u)[1..] == u == ['_'] + u[1..];
      CollapseUnderscoreRun(u[1..]);
    } else if u != [] {
      assert (['_'] + u)[1..] == u;
    }
  }

  lemma TrimStartCollapse(u: string)
    ensures TrimStart(CollapseRuns(u)) == CollapseRuns(TrimStart(u))
  {
    if u != [] && u[0] == '_' {
      assert u == ['_'] + u[1..];
      CollapseUnderscoreRun(u[1..]);
      var v := TrimStart(u[1..]);
      TrimStartShape(u[1..]);
      if v != [] {
        CollapseHead(v);
      }
      assert (['_'] + CollapseRuns(v))[1..] == CollapseRuns(v);
    } else if u != [] {
      CollapseHead(u);
    }
  }

  lemma TrimStartIdempotent(s: string)
    ensures TrimStart(TrimStart(s)) == TrimStart(s)
  {
    TrimStartShape(s);
  }

  /** Trailing underscores are removed only after the last non-underscore. */
  lemma {:induction false} TrimEndAfter(x: string, c: char, y: string)
    requires c != '_'
    ensures TrimEnd(x + [c] + y) == x + [c] + TrimEnd(y)
    decreases |y|
  {
    var w := x + [c] + y;
    if y != [] && y[|y| - 1] == '_' {
      assert w[..|w| - 1] == x + [c] + y[..|y| - 1];
      TrimEndAfter(x, c, y[..|y| - 1]);
    } else if y == [] {
      assert w == x + [c];
    }
  }

  lemma CollapseAfterWord(p: string, c: char, t: string)
    requires p == [] || p == ['_']
    requires c != '_'
    ensures CollapseRuns(p + [c] + t) == p + [c] + CollapseRuns(t)
  {
    assert ([c] + t)[1..] == t;
    if p == ['_'] {
      assert (p + [c] + t)[1..] == [c] + t;
    } else {
      assert p + [c] + t == [c] + t;
    }
  }

  function Pending(q: ScanState): string {
    if q == Gap then ['_'] else []
  }

  /** Once a word character has been written, the scan is collapse and trailing trim. */
  lemma {:induction false} ScanAfterWord(s: string, q: ScanState)
    requires q != Start
    ensures Scan(s, q) == TrimEnd(CollapseRuns(Pending(q) + ReplaceUnsafe(s)))
    decreases |s|
  {
    if s == [] {
      assert Pending(q) + ReplaceUnsafe(s) == Pending(q);
    } else if IsWordChar(s[0]) {
      ScanAfterWord(s[1..], InWord);
      assert Pending(InWord) + ReplaceUnsafe(s[1..]) == ReplaceUnsafe(s[1..]);
      ScanAfterWordStep(s, q);
    } else {
      ScanAfterWord(s[1..], Gap);
      ScanAfterSeparatorStep(s, q);
    }
  }

  lemma ScanAfterWordStep(s: string, q: ScanState)
    requires q != Start && s != [] && IsWordChar(s[0])
    requires Scan(s[1..], InWord) == TrimEnd(CollapseRuns(ReplaceUnsafe(s[1..])))
    ensures Scan(s, q) == TrimEnd(CollapseRuns(Pending(q) + ReplaceUnsafe(s)))
  {
    var p, c, t' := Pending(q), s[0], ReplaceUnsafe(s[1..]);
    ReplaceWordCons(s, p);
    WordThenTail(p, c, t');
    ScanWordCons(s, q);
  }

  lemma ReplaceWordCons(s: string, p: string)
    requires s != [] && IsWordChar(s[0])
    ensures p + ReplaceUnsafe(s) == p + [s[0]] + ReplaceUnsafe(s[1..])
  {
  }

  lemma ScanWordCons(s: string, q: ScanState)
    requires s != [] && IsWordChar(s[0])
    ensures Scan(s, q) == Pending(q) + [s[0]] + Scan(s[1..], InWord)
  {
    var h := if q == Gap then ['_', s[0]] else [s[0]];
    assert Scan(s, q) == h + Scan(s[1..], InWord);
    assert h == Pending(q) + [s[0]];
  }

  lemma WordThenTail(p: string, c: char, t: string)
    requires p == [] || p == ['_']
    requires c != '_'
    ensures TrimEnd(CollapseRuns(p + [c] + t)) == p + [c] + TrimEnd(CollapseRuns(t))
  {
    CollapseAfterWord(p, c, t);
    TrimEndAfter(p, c, CollapseRuns(t));
  }

  lemma ScanAfterSeparatorStep(s: string, q: ScanState)
    requires q != Start && s != [] && !IsWordChar(s[0])
    requires Scan(s[1..], Gap) == TrimEnd(CollapseRuns(Pending(Gap) + ReplaceUnsafe(s[1..])))
    ensures Scan(s, q) == TrimEnd(CollapseRuns(Pending(q) + ReplaceUnsafe(s)))
  {
    var p, t' := Pending(q), ReplaceUnsafe(s[1..]);
    assert ReplaceUnsafe(s) == ['_'] + t';
    if p == ['_'] {
      assert (p + ReplaceUnsafe(s))[1..] == ['_'] + t';
    } else {
      assert p + ReplaceUnsafe(s) == ['_'] + t';
    }
  }

  /** The three-step transform and the one-pass scan agree on every input. */
  lemma {:induction false} SanitizeMatchesNormalize(s: string)
    ensures Sanitize(s) == Normalize(s)
    decreases |s|
  {
    if s != [] {
      if IsWordChar(s[0]) {
        SanitizeWordFirst(s);
      } else {
        SanitizeMatchesNormalize(s[1..]);
        SanitizeSeparatorFirst(s);
      }
    }
  }

  lemma SanitizeWordFirst(s: string)
    requires s != [] && IsWordChar(s[0])
    ensures Sanitize(s) == Normalize(s)
  {
    var c, t' := s[0], ReplaceUnsafe(s[1..]);
    var u := CollapseRuns(t');
    calc {
      Sanitize(s);
      { ReplaceWordCons(s, []); assert ReplaceUnsafe(s) == [] + [c] + t'; }
      TrimEnd(TrimStart(CollapseRuns([] + [c] + t')));
      { CollapseAfterWord([], c, t'); }
      TrimEnd(TrimStart([] + [c] + u));
      { assert TrimStart([] + [c] + u) == [] + [c] + u; }
      TrimEnd([] + [c] + u);
      { TrimEndAfter([], c, u); }
      [] + [c] + TrimEnd(u);
      { ScanAfterWord(s[1..], InWord); assert Pending(InWord) + t' == t'; }
      [c] + Scan(s[1..], InWord);
      { ScanWordCons(s, Start); }
      Normalize(s);
    }
  }

  lemma SanitizeSeparatorFirst(s: string)
    requires s != [] && !IsWordChar(s[0])
    requires Sanitize(s[1..]) == Normalize(s[1..])
    ensures Sanitize(s) == Normalize(s)
  {
    var t' := ReplaceUnsafe(s[1..]);
    assert ReplaceUnsafe(s) == ['_'] + t';
    CollapseUnderscoreRun(t');
    assert TrimStart(['_'] + CollapseRuns(TrimStart(t'))) == TrimStart(CollapseRuns(TrimStart(t')));
    TrimStartCollapse(TrimStart(t'));
    TrimStartIdempotent(t');
    TrimStartCollapse(t');
  }

  // ---------------------------------------------------------------------
  // Properties of the scan
  // ---------------------------------------------------------------------

  /** What the scan writes is a metric name, and it starts with a word character when nothing was owed. */
  predicate IsScanOutput(o: string, q: ScanState) {
    && (forall i :: 0 <= i < |o| ==> IsSafeChar(o[i]))
    && (forall i :: 0 < i < |o| ==> !(o[i - 1] == '_' && o[i] == '_'))
    && (o != [] ==> IsWordChar(o[|o| - 1]))
    && (o != [] && q == Start ==> IsWordChar(o[0]))
  }

  lemma {:induction false} ScanShape(s: string, q: ScanState)
    ensures IsScanOutput(Scan(s, q), q)
    decreases |s|
  {
    if s != [] {
      if IsWordChar(s[0]) {
        ScanShape(s[1..], InWord);
        ScanShapeWordStep(s, q);
      } else {
        ScanShape(s[1..], if q == Start then Start else Gap);
      }
    }
  }

  lemma ScanShapeWordStep(s: string, q: ScanState)
    requires s != [] && IsWordChar(s[0])
    requires IsScanOutput(Scan(s[1..], InWord), InWord)
    ensures IsScanOutput(Scan(s, q), q)
  {
    var r := Scan(s[1..], InWord);
    var h := if q == Gap then ['_', s[0]] else [s[0]];
    var o := h + r;
    assert Scan(s, q) == o;
    forall i | 0 < i < |o| ensures !(o[i - 1] == '_' && o[i] == '_') {
      if i >= |h| + 1 {
        assert o[i - 1] == r[i - 1 - |h|] && o[i] == r[i - |h|];
      } else if i == |h| {
        assert o[i - 1] == s[0];
      } else {
        assert o[i] == s[0];
      }
    }
    assert forall i :: |h| <= i < |o| ==> o[i] == r[i - |h|];
  }

  lemma WordCharsAppend(a: string, b: string)
    ensures WordChars(a + b) == WordChars(a) + WordChars(b)
  {
    if a != [] {
      assert (a + b)[1..] == a[1..] + b;
      WordCharsAppend(a[1..], b);
    } else {
      assert a + b == b;
    }
  }

  lemma {:induction false} ScanKeepsWordChars(s: string, q: ScanState)
    ensures WordChars(Scan(s, q)) == WordChars(s)
    decreases |s|
  {
    if s != [] {
      if IsWordChar(s[0]) {
        ScanKeepsWordChars(s[1..], InWord);
        var h := if q == Gap then ['_', s[0]] else [s[0]];
        WordCharsAppend(h, Scan(s[1..], InWord));
        if q == Gap {
          assert h[1..] == [s[0]];
          assert WordChars(h) == [s[0]];
        }
      } else {
        ScanKeepsWordChars(s[1..], if q == Start then Start else Gap);
      }
    }
  }

  lemma {:induction false} ScanEmptyIff(s: string, q: ScanState)
    ensures Scan(s, q) == [] <==> !HasWordChar(s)
    decreases |s|
  {
    if s != [] {
      if IsWordChar(s[0]) {
        assert HasWordChar(s);
      } else {
        ScanEmptyIff(s[1..], if q == Start then Start else Gap);
        if HasWordChar(s) {
          var i :| 0 <= i < |s| && IsWordChar(s[i]);
          assert s[1..][i - 1] == s[i];
        }
        if HasWordChar(s[1..]) {
          var i :| 0 <= i < |s[1..]| && IsWordChar(s[1..][i]);
          assert s[i + 1] == s[1..][i];
        }
      }
    }
  }

  // ---------------------------------------------------------------------
  // Properties of Sanitize
  // ---------------------------------------------------------------------

  /** Only `[a-zA-Z0-9_-]`, no `__`, no `_` at either end. */
  lemma SanitizeIsMetricName(s: string)
    ensures IsMetricName(Sanitize(s))
  {
    SanitizeMatchesNormalize(s);
    ScanShape(s, Start);
  }

  /** Letters, digits and `-` all survive, in order; nothing else is a word character. */
  lemma SanitizeKeepsWordChars(s: string)
    ensures WordChars(Sanitize(s)) == WordChars(s)
  {
    SanitizeMatchesNormalize(s);
    ScanKeepsWordChars(s, Start);
  }

  /** The result is empty exactly when the input has no letter, digit or `-` (as for `!!!`). */
  lemma SanitizeEmptyIff(s: string)
    ensures Sanitize(s) == [] <==> !HasWordChar(s)
  {
    SanitizeMatchesNormalize(s);
    ScanEmptyIff(s, Start);
  }

  lemma {:induction false} ReplaceUnsafeFixed(s: string)
    requires forall i :: 0 <= i < |s| ==> IsSafeChar(s[i])
    ensures ReplaceUnsafe(s) == s
    decreases |s|
  {
    if s != [] {
      ReplaceUnsafeFixed(s[1..]);
    }
  }

  lemma {:induction false} CollapseRunsFixed(s: string)
    requires forall i :: 0 < i < |s| ==> !(s[i - 1] == '_' && s[i] == '_')
    ensures CollapseRuns(s) == s
    decreases |s|
  {
    if |s| > 1 {
      assert !(s[0] == '_' && s[1] == '_');
      CollapseRunsFixed(s[1..]);
    }
  }

  /** The fixed points of the transform are exactly the metric names. */
  lemma SanitizeFixedPoints(s: string)
    ensures Sanitize(s) == s <==> IsMetricName(s)
  {
    if IsMetricName(s) {
      ReplaceUnsafeFixed(s);
      CollapseRunsFixed(s);
    } else {
      SanitizeIsMetricName(s);
    }
  }

  /** Escaping an escaped name changes nothing. */
  lemma SanitizeIdempotent(s: string)
    ensures Sanitize(Sanitize(s)) == Sanitize(s)
  {
    SanitizeIsMetricName(s);
    SanitizeFixedPoints(Sanitize(s));
  }

  /** A run of word characters is written out whole, after the `_` owed before it. */
  lemma {:induction false} ScanWordRun(w: string, rest: string, q: ScanState)
    requires w != [] && forall i :: 0 <= i < |w| ==> IsWordChar(w[i])
    ensures Scan(w + rest, q) == Pending(q) + w + Scan(rest, InWord)
    decreases |w|
  {
    var c := w[0];
    assert (w + rest)[0] == c && (w + rest)[1..] == w[1..] + rest;
    if |w| == 1 {
      calc {
        Scan(w + rest, q);
        Pending(q) + [c] + Scan(w[1..] + rest, InWord);
        { assert w[1..] + rest == rest && [c] == w; }
        Pending(q) + w + Scan(rest, InWord);
      }
    } else {
      calc {
        Scan(w + rest, q);
        Pending(q) + [c] + Scan(w[1..] + rest, InWord);
        { ScanWordRun(w[1..], rest, InWord); }
        Pending(q) + [c] + (Pending(InWord) + w[1..] + Scan(rest, InWord));
        { assert Pending(q) + [c] + (Pending(InWord) + w[1..] + Scan(rest, InWord)) == Pending(q) + ([c] + w[1..]) + Scan(rest, InWord); assert [c] + w[1..] == w; }
        Pending(q) + w + Scan(rest, InWord);
      }
    }
  }

  /** Two words around one separator come out joined by a single `_`. */
  lemma TwoWords(w1: string, c: char, w2: string)
    requires w1 != [] && forall i :: 0 <= i < |w1| ==> IsWordChar(w1[i])
    requires w2 != [] && forall i :: 0 <= i < |w2| ==> IsWordChar(w2[i])
    requires !IsWordChar(c)
    ensures Normalize(w1 + [c] + w2) == w1 + ['_'] + w2
  {
    calc {
      Scan(w1 + [c] + w2, Start);
      { assert w1 + [c] + w2 == w1 + ([c] + w2); }
      Scan(w1 + ([c] + w2), Start);
      { ScanWordRun(w1, [c] + w2, Start); }
      Pending(Start) + w1 + Scan([c] + w2, InWord);
      { assert ([c] + w2)[1..] == w2; }
      w1 + Scan(w2, Gap);
      { assert w2 + [] == w2; ScanWordRun(w2, [], Gap); }
      w1 + (['_'] + w2 + []);
      { assert w1 + (['_'] + w2 + []) == w1 + ['_'] + w2; }
      w1 + ['_'] + w2;
    }
  }
  /** The operation label of test/stats.js:86 (the name expected at test/stats.js:299). */
  lemma SanitizeHelloWorld()
    ensures Sanitize("hello!world") == "hello_world"
  {
    TwoWords("hello", '!', "world");
    assert "hello" + ['!'] + "world" == "hello!world";
    assert "hello" + ['_'] + "world" == "hello_world";
    SanitizeMatchesNormalize("hello!world");
  }

  /** The client label of test/stats.js:59 (the prefix expected at test/stats.js:191). */
  lemma SanitizeExampleOrg()
    ensures Sanitize("example.org") == "example_org"
  {
    TwoWords("example", '.', "org");
    assert "example" + ['.'] + "org" == "example.org";
    assert "example" + ['_'] + "org" == "example_org";
    SanitizeMatchesNormalize("example.org");
  }

  /** A label that is already a metric name (test/stats.js:72). */
  lemma SanitizeTest()
    ensures Sanitize("test") == "test"
  {
    SanitizeFixedPoints("test");
  }

  /** The client label of test/stats.js:166, which leaves nothing behind. */
  lemma SanitizeBangs()
    ensures Sanitize("!!!") == ""
  {
    SanitizeEmptyIff("!!!");
  }

}
