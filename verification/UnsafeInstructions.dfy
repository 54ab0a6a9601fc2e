/**
 The redaction of unsafe instructions: a case-insensitive regular expression of five alternatives,
 substituted from left to right.

 A pattern is written as a string: a blank stands for \s*, a plus sign for \s+, and every other
 character for itself in any case.
 */
module UnsafeInstructions {
  import opened Prelude
  import opened Text

  const REDACTED := "[redacted]"
  const TRUNCATED := "\n...[truncated]"

  /** Case folding of the expression engine, on the letters the patterns use. */
  function Fold(c: char): char {
    if 'A' <= c <= 'Z' then (c as int + 32) as char
    else if c == '\U{130}' || c == '\U{131}' then 'i'
    else if c == '\U{17F}' then 's'
    else c
  }

  predicate IsGap(c: char) {
    c == ' ' || c == '+'
  }

  /** The whole of w is in the language of the pattern. */
  predicate Matches(p: string, w: string)
    decreases |w|, |p|
  {
    if p == "" then w == ""
    else if p[0] == ' ' then
      Matches(p[1..], w) || (w != "" && IsSpace(w[0]) && Matches(p, w[1..]))
    else if p[0] == '+' then
      w != "" && IsSpace(w[0]) && Matches(" " + p[1..], w[1..])
    else
      w != "" && Fold(w[0]) == p[0] && Matches(p[1..], w[1..])
  }

  ghost predicate IsMatch(patterns: seq<string>, w: string) {
    exists i :: 0 <= i < |patterns| && Matches(patterns[i], w)
  }

  /** No part of the text is a match. */
  ghost predicate Clean(patterns: seq<string>, text: string) {
    forall a, b :: 0 <= a <= b <= |text| ==> !IsMatch(patterns, text[a..b])
  }

  // ---------------------------------------------------------------- the engine

  function Longer(n: Option<nat>): Option<nat> {
    match n
    case None => None
    case Some(k) => Some(k + 1)
  }

  /** How many characters at the front of s the engine consumes for a pattern; gaps are greedy. */
  function Consume(p: string, s: string): (n: Option<nat>)
    ensures n.Some? ==> n.value <= |s|
    decreases |s|, |p|
  {
    if p == "" then Some(0)
    else if p[0] == ' ' then
      if s != "" && IsSpace(s[0]) then Longer(Consume(p, s[1..])) else Consume(p[1..], s)
    else if p[0] == '+' then
      if s != "" && IsSpace(s[0]) then Longer(Consume(" " + p[1..], s[1..])) else None
    else if s != "" && Fold(s[0]) == p[0] then Longer(Consume(p[1..], s[1..]))
    else None
  }

  /** The first alternative that matches at the front of s, from pattern i on. */
  function FirstMatch(patterns: seq<string>, s: string, i: nat): (n: Option<nat>)
    requires i <= |patterns|
    ensures n.Some? ==> n.value <= |s|
    decreases |patterns| - i
  {
    if i == |patterns| then None
    else
      var n := Consume(patterns[i], s);
      if n.Some? then n else FirstMatch(patterns, s, i + 1)
  }

  // ---------------------------------------------------------------- well-formed patterns

  /** Literals are visible characters, and a gap stands between two of them. */
  predicate WellFormed(p: string) {
    && (forall i :: 0 <= i < |p| && !IsGap(p[i]) ==> !IsSpace(p[i]) && Fold(p[i]) == p[i])
    && (p != "" ==> !IsGap(p[|p| - 1]))
    && (forall i :: 0 <= i < |p| - 1 && IsGap(p[i]) ==> !IsGap(p[i + 1]))
  }

  lemma FoldSpace(c: char)
    ensures IsSpace(c) ==> Fold(c) == c
    ensures IsSpace(Fold(c)) ==> IsSpace(c)
  {
  }

  lemma WellFormedTail(p: string)
    requires WellFormed(p) && p != ""
    ensures WellFormed(p[1..])
    ensures p[0] == '+' ==> WellFormed(" " + p[1..])
  {
    var tail := p[1..];
    forall i | 0 <= i < |tail| ensures tail[i] == p[i + 1] {}
    if tail != "" { assert tail[|tail| - 1] == p[|p| - 1]; }
    if p[0] == '+' {
      var q := " " + tail;
      assert forall i :: 0 < i < |q| ==> q[i] == p[i];
    }
  }

  /** After a gap only its own white space can precede the next literal, so greedy needs no retry. */
  lemma {:induction false} ConsumeIff(p: string, s: string, n: nat)
    requires WellFormed(p)
    ensures Consume(p, s) == Some(n) <==> n <= |s| && Matches(p, s[..n])
    decreases |s|, |p|
  {
    if p == "" {
    } else {
      WellFormedTail(p);
      if p[0] == ' ' {
        ConsumeGap(p, s, n);
      } else if p[0] == '+' {
        if s != "" && n > 0 && IsSpace(s[0]) {
          ConsumeIff(" " + p[1..], s[1..], n - 1);
          if n <= |s| { TakeDrop(s, n); }
        }
      } else if s != "" && n > 0 {
        ConsumeIff(p[1..], s[1..], n - 1);
        if n <= |s| { TakeDrop(s, n); }
      }
    }
  }

  lemma {:induction false} ConsumeGap(p: string, s: string, n: nat)
    requires WellFormed(p) && p != "" && p[0] == ' '
    ensures Consume(p, s) == Some(n) <==> n <= |s| && Matches(p, s[..n])
    decreases |s|, |p|, 0
  {
    WellFormedTail(p);
    assert p[1..] != "" && !IsGap(p[1]) && p[1..][0] == p[1];
    FoldSpace(p[1]);
    if s != "" && IsSpace(s[0]) {
      FoldSpace(s[0]);
      if n > 0 {
        ConsumeIff(p, s[1..], n - 1);
        if n <= |s| { TakeDrop(s, n); }
      }
    } else {
      ConsumeIff(p[1..], s, n);
      assert 0 < n <= |s| ==> s[..n][0] == s[0];
    }
  }

  // ---------------------------------------------------------------- what matches look like

  lemma {:induction false} MatchAlphabet(p: string, w: string, k: nat)
    requires Matches(p, w) && k < |w| && !IsSpace(w[k])
    ensures Fold(w[k]) in p && !IsGap(Fold(w[k]))
    decreases |w|, |p|
  {
    FoldSpace(w[k]);
    if p[0] == ' ' {
      if Matches(p[1..], w) {
        MatchAlphabet(p[1..], w, k);
      } else {
        MatchAlphabet(p, w[1..], k - 1);
      }
    } else if p[0] == '+' {
      MatchAlphabet(" " + p[1..], w[1..], k - 1);
    } else if k > 0 {
      MatchAlphabet(p[1..], w[1..], k - 1);
    }
  }

  /** Every literal of the pattern occurs in a match. */
  lemma {:induction false} MatchContains(p: string, w: string, i: nat)
    requires Matches(p, w) && i < |p| && !IsGap(p[i])
    ensures exists k :: 0 <= k < |w| && Fold(w[k]) == p[i]
    decreases |w|, |p|
  {
    if p[0] == ' ' {
      if Matches(p[1..], w) {
        MatchContains(p[1..], w, i - 1);
      } else {
        MatchContains(p, w[1..], i);
        var k :| 0 <= k < |w[1..]| && Fold(w[1..][k]) == p[i];
        assert Fold(w[k + 1]) == p[i];
      }
    } else if p[0] == '+' {
      MatchContains(" " + p[1..], w[1..], i);
      var k :| 0 <= k < |w[1..]| && Fold(w[1..][k]) == p[i];
      assert Fold(w[k + 1]) == p[i];
    } else if i > 0 {
      MatchContains(p[1..], w[1..], i - 1);
      var k :| 0 <= k < |w[1..]| && Fold(w[1..][k]) == p[i];
      assert Fold(w[k + 1]) == p[i];
    } else {
      assert Fold(w[0]) == p[0];
    }
  }

  /** A match ends with the literals that the pattern ends with. */
  lemma {:induction false} MatchEnd(p: string, w: string, n: nat)
    requires Matches(p, w) && 0 < n <= |p| && forall i :: |p| - n <= i < |p| ==> !IsGap(p[i])
    ensures |w| >= n && Fold(w[|w| - n]) == p[|p| - n]
    decreases |w|, |p|
  {
    if p[0] == ' ' {
      if Matches(p[1..], w) {
        MatchEnd(p[1..], w, n);
      } else {
        MatchEnd(p, w[1..], n);
      }
    } else if p[0] == '+' {
      var q := " " + p[1..];
      assert forall i :: 0 < i < |q| ==> q[i] == p[i];
      MatchEnd(q, w[1..], n);
    } else if n < |p| {
      MatchEnd(p[1..], w[1..], n);
    } else {
      LiteralLength(p, w);
    }
  }

  lemma {:induction false} LiteralLength(p: string, w: string)
    requires Matches(p, w) && forall i :: 0 <= i < |p| ==> !IsGap(p[i])
    ensures |w| == |p|
    decreases |p|
  {
    if p != "" {
      forall i | 0 <= i < |p[1..]| ensures !IsGap(p[1..][i]) { assert p[1..][i] == p[i + 1]; }
      LiteralLength(p[1..], w[1..]);
    }
  }

  /** A literal that only ends the pattern only ends the match. */
  lemma {:induction false} MatchLastOnly(p: string, w: string, c: char, k: nat)
    requires Matches(p, w) && !IsGap(c) && !IsSpace(c) && (forall i :: 0 <= i < |p| - 1 ==> p[i] != c)
    requires k < |w| && Fold(w[k]) == c
    ensures k == |w| - 1
    decreases |w|, |p|
  {
    FoldSpace(w[k]);
    if p[0] == ' ' {
      if Matches(p[1..], w) {
        MatchLastOnly(p[1..], w, c, k);
      } else {
        MatchLastOnly(p, w[1..], c, k - 1);
      }
    } else if p[0] == '+' {
      var q := " " + p[1..];
      assert forall i :: 0 < i < |q| ==> q[i] == p[i];
      MatchLastOnly(q, w[1..], c, k - 1);
    } else if k > 0 {
      MatchLastOnly(p[1..], w[1..], c, k - 1);
    } else if |p| == 1 {
      assert p[1..] == "";
    }
  }

  // ---------------------------------------------------------------- the five patterns

  /** Letters, gaps and colons; a colon or an s or "pt" at the end; somewhere an s or a v. */
  ghost predicate Regular(p: string) {
    && p != "" && !IsGap(p[0])
    && (forall k :: 0 <= k < |p| ==> 'a' <= p[k] <= 'z' || p[k] == ':' || IsGap(p[k]))
    && (forall k :: 0 <= k < |p| - 1 && IsGap(p[k]) ==> !IsGap(p[k + 1]))
    && (forall k :: 0 <= k < |p| - 1 ==> p[k] != ':')
    && (exists k :: 0 <= k < |p| && (p[k] == 's' || p[k] == 'v'))
    && var last := p[|p| - 1];
       last == ':' || last == 's' || (last == 't' && |p| > 1 && p[|p| - 2] == 'p')
  }

  ghost predicate AllRegular(patterns: seq<string>) {
    forall i :: 0 <= i < |patterns| ==> Regular(patterns[i])
  }

  lemma RegularIsWellFormed(p: string)
    requires Regular(p)
    ensures WellFormed(p)
  {
  }

  lemma MatchedPattern(patterns: seq<string>, w: string) returns (p: string)
    requires AllRegular(patterns)
    requires IsMatch(patterns, w)
    ensures Regular(p) && Matches(p, w)
  {
    var i :| 0 <= i < |patterns| && Matches(patterns[i], w);
    p := patterns[i];
  }

  /** A match starts with a letter, and ends with a colon, an s, or a t that follows a p. */
  lemma MatchEnds(patterns: seq<string>, w: string)
    requires AllRegular(patterns)
    requires IsMatch(patterns, w)
    ensures w != "" && !IsSpace(w[0]) && !IsSpace(w[|w| - 1])
    ensures var last := Fold(w[|w| - 1]);
            last == ':' || last == 's' || (last == 't' && |w| > 1 && Fold(w[|w| - 2]) == 'p')
  {
    var p := MatchedPattern(patterns, w);
    MatchEnd(p, w, 1);
    if p[|p| - 1] == 't' { MatchEnd(p, w, 2); }
    FoldSpace(w[0]);
    FoldSpace(w[|w| - 1]);
  }

  /** It consists of letters, white space and a colon, which can only come last. */
  lemma MatchLetter(patterns: seq<string>, w: string, k: nat)
    requires AllRegular(patterns)
    requires IsMatch(patterns, w) && k < |w|
    ensures IsSpace(w[k]) || 'a' <= Fold(w[k]) <= 'z' || w[k] == ':'
    ensures w[k] == ':' ==> k == |w| - 1
  {
    var p := MatchedPattern(patterns, w);
    if !IsSpace(w[k]) { MatchAlphabet(p, w, k); }
    if w[k] == ':' { MatchLastOnly(p, w, ':', k); }
  }

  /** It contains an s or a v, which the texts put in by the program do not. */
  lemma MatchMark(patterns: seq<string>, w: string) returns (k: nat)
    requires AllRegular(patterns)
    requires IsMatch(patterns, w)
    ensures k < |w| && (Fold(w[k]) == 's' || Fold(w[k]) == 'v')
  {
    var p := MatchedPattern(patterns, w);
    var m :| 0 <= m < |p| && (p[m] == 's' || p[m] == 'v');
    MatchContains(p, w, m);
    k :| 0 <= k < |w| && Fold(w[k]) == p[m];
  }

  lemma {:induction false} FirstMatchIff(patterns: seq<string>, s: string, i: nat)
    requires AllRegular(patterns)
    requires i <= |patterns|
    ensures FirstMatch(patterns, s, i).Some? ==> IsMatch(patterns, s[..FirstMatch(patterns, s, i).value])
    ensures FirstMatch(patterns, s, i).None? ==>
              forall j, n :: i <= j < |patterns| && 0 <= n <= |s| ==> !Matches(patterns[j], s[..n])
    decreases |patterns| - i
  {
    if i < |patterns| {
      RegularIsWellFormed(patterns[i]);
      FirstMatchIff(patterns, s, i + 1);
      forall n: nat ensures Consume(patterns[i], s) == Some(n) <==> n <= |s| && Matches(patterns[i], s[..n]) {
        ConsumeIff(patterns[i], s, n);
      }
    }
  }

  lemma NoFirstMatch(patterns: seq<string>, s: string, n: nat)
    requires AllRegular(patterns)
    requires FirstMatch(patterns, s, 0).None? && n <= |s|
    ensures !IsMatch(patterns, s[..n])
  {
    FirstMatchIff(patterns, s, 0);
  }

  lemma MatchIsNonEmpty(patterns: seq<string>, s: string)
    requires AllRegular(patterns) && FirstMatch(patterns, s, 0).Some?
    ensures FirstMatch(patterns, s, 0).value > 0
  {
    FirstMatchIff(patterns, s, 0);
    MatchEnds(patterns, s[..FirstMatch(patterns, s, 0).value]);
  }

  // ---------------------------------------------------------------- sanitizing

  /** Substitution of every match, scanning from the left. */
  function Substitute(patterns: seq<string>, s: string): string
    requires AllRegular(patterns)
    decreases |s|
  {
    if s == "" then ""
    else
      match FirstMatch(patterns, s, 0)
      case Some(n) =>
        MatchIsNonEmpty(patterns, s);
        REDACTED + Substitute(patterns, s[n..])
      case None => [s[0]] + Substitute(patterns, s[1..])
  }

  /** Up to the first bracket the result is the text itself. */
  lemma {:induction false} SubstituteKeepsFront(patterns: seq<string>, s: string, k: nat)
    requires AllRegular(patterns)
    requires k <= |Substitute(patterns, s)| && '[' !in Substitute(patterns, s)[..k]
    ensures k <= |s| && Substitute(patterns, s)[..k] == s[..k]
    decreases |s|
  {
    var r := Substitute(patterns, s);
    if k > 0 {
      assert r[..k][0] in r[..k];
      RedactedText();
      match FirstMatch(patterns, s, 0) {
        case Some(n) =>
        case None =>
          assert r[..k] == [s[0]] + Substitute(patterns, s[1..])[..k - 1];
          SubstituteKeepsFront(patterns, s[1..], k - 1);
      }
    }
  }

  /** Text without marks holds no match. */
  lemma NoMatchInside(patterns: seq<string>, text: string, a: nat, b: nat)
    requires AllRegular(patterns)
    requires a <= b <= |text|
    requires forall k :: a <= k < b ==> Fold(text[k]) != 's' && Fold(text[k]) != 'v'
    ensures !IsMatch(patterns, text[a..b])
  {
    var w := text[a..b];
    assert forall k :: 0 <= k < |w| ==> w[k] == text[a + k];
    if IsMatch(patterns, w) {
      var k := MatchMark(patterns, w);
    }
  }

  /** No match crosses a character that is in no pattern. */
  lemma NoMatchAcross(patterns: seq<string>, text: string, a: nat, k: nat, b: nat)
    requires AllRegular(patterns)
    requires a <= k < b <= |text|
    requires text[k] == '[' || text[k] == ']' || text[k] == '.' || text[k] == '-'
    ensures !IsMatch(patterns, text[a..b])
  {
    var w := text[a..b];
    assert w[k - a] == text[k];
    if IsMatch(patterns, w) {
      MatchLetter(patterns, w, k - a);
    }
  }

  /** No match ends in white space. */
  lemma NoMatchEndsInSpace(patterns: seq<string>, text: string, a: nat, b: nat)
    requires AllRegular(patterns)
    requires a < b <= |text| && IsSpace(text[b - 1])
    ensures !IsMatch(patterns, text[a..b])
  {
    var w := text[a..b];
    assert w[|w| - 1] == text[b - 1];
    if IsMatch(patterns, w) {
      MatchEnds(patterns, w);
    }
  }

  lemma RedactedText()
    ensures |REDACTED| == 10 && REDACTED[0] == '[' && REDACTED[9] == ']'
    ensures forall k :: 0 <= k < 10 ==> Fold(REDACTED[k]) != 's' && Fold(REDACTED[k]) != 'v'
  {
  }

  lemma RedactionCleans(patterns: seq<string>, rest: string)
    requires AllRegular(patterns)
    requires Clean(patterns, rest)
    ensures Clean(patterns, REDACTED + rest)
  {
    var text := REDACTED + rest;
    RedactedText();
    forall a, b | 0 <= a <= b <= |text| ensures !IsMatch(patterns, text[a..b]) {
      if a >= 10 {
        var x, y := a - 10, b - 10;
        assert text[a..b] == rest[x..y];
      } else if b <= 10 {
        NoMatchInside(patterns, text, a, b);
      } else {
        NoMatchAcross(patterns, text, a, 9, b);
      }
    }
  }

  /** A match at the front of the result would have been a match at the front of the text. */
  lemma NoMatchAtFront(patterns: seq<string>, s: string, b: nat)
    requires AllRegular(patterns)
    requires s != "" && FirstMatch(patterns, s, 0).None? && b <= 1 + |Substitute(patterns, s[1..])|
    ensures !IsMatch(patterns, ([s[0]] + Substitute(patterns, s[1..]))[..b])
  {
    var rest := Substitute(patterns, s[1..]);
    var w := ([s[0]] + rest)[..b];
    if IsMatch(patterns, w) {
      MatchEnds(patterns, w);
      assert w[1..] == rest[..b - 1];
      NoBracketInMatch(patterns, w);
      FrontKept(patterns, s, b);
      NoFirstMatch(patterns, s, b);
    }
  }

  lemma NoBracketInMatch(patterns: seq<string>, w: string)
    requires AllRegular(patterns)
    requires IsMatch(patterns, w) && w != ""
    ensures '[' !in w[1..]
  {
    forall j | 0 < j < |w| ensures w[j] != '[' {
      MatchLetter(patterns, w, j);
    }
  }

  lemma FrontKept(patterns: seq<string>, s: string, b: nat)
    requires AllRegular(patterns)
    requires s != "" && 0 < b <= 1 + |Substitute(patterns, s[1..])| && '[' !in Substitute(patterns, s[1..])[..b - 1]
    ensures b <= |s| && ([s[0]] + Substitute(patterns, s[1..]))[..b] == s[..b]
  {
    SubstituteKeepsFront(patterns, s[1..], b - 1);
    FrontIs(s, Substitute(patterns, s[1..]), b);
  }

  lemma FrontIs(s: string, rest: string, b: nat)
    requires s != "" && 0 < b <= |s| && b <= 1 + |rest| && rest[..b - 1] == s[1..][..b - 1]
    ensures ([s[0]] + rest)[..b] == s[..b]
  {
    var w := ([s[0]] + rest)[..b];
    forall k | 0 <= k < b ensures w[k] == s[k] {
      if k > 0 { assert rest[..b - 1][k - 1] == s[1..][..b - 1][k - 1]; }
    }
  }

  /** A character in front of a clean text keeps it clean if no match starts at that character. */
  lemma CleanBehind(patterns: seq<string>, c: char, rest: string)
    requires Clean(patterns, rest)
    requires forall b {:trigger ([c] + rest)[..b]} :: 0 <= b <= |rest| + 1 ==> !IsMatch(patterns, ([c] + rest)[..b])
    ensures Clean(patterns, [c] + rest)
  {
    var text := [c] + rest;
    forall a, b | 0 <= a <= b <= |text| ensures !IsMatch(patterns, text[a..b]) {
      if a >= 1 {
        var x, y := a - 1, b - 1;
        assert text[a..b] == rest[x..y];
      } else {
        assert text[a..b] == text[..b];
      }
    }
  }

  lemma UnmatchedCleans(patterns: seq<string>, s: string)
    requires AllRegular(patterns)
    requires s != "" && FirstMatch(patterns, s, 0).None? && Clean(patterns, Substitute(patterns, s[1..]))
    ensures Clean(patterns, [s[0]] + Substitute(patterns, s[1..]))
  {
    var rest := Substitute(patterns, s[1..]);
    forall b | 0 <= b <= |rest| + 1 ensures !IsMatch(patterns, ([s[0]] + rest)[..b]) {
      NoMatchAtFront(patterns, s, b);
    }
    CleanBehind(patterns, s[0], rest);
  }

  /** After sanitizing, no part of the text matches. */
  lemma {:induction false} SubstituteIsClean(patterns: seq<string>, s: string)
    requires AllRegular(patterns)
    ensures Clean(patterns, Substitute(patterns, s))
    decreases |s|
  {
    if s == "" {
      forall a, b | 0 <= a <= b <= |s| ensures !IsMatch(patterns, s[a..b]) {
        if IsMatch(patterns, s[a..b]) { MatchEnds(patterns, s[a..b]); }
      }
    } else {
      match FirstMatch(patterns, s, 0) {
        case Some(n) =>
          MatchIsNonEmpty(patterns, s);
          SubstituteIsClean(patterns, s[n..]);
          RedactionCleans(patterns, Substitute(patterns, s[n..]));
        case None =>
          SubstituteIsClean(patterns, s[1..]);
          UnmatchedCleans(patterns, s);
      }
    }
  }

  lemma CleanPart(patterns: seq<string>, text: string, lo: nat, hi: nat)
    requires lo <= hi <= |text| && Clean(patterns, text)
    ensures Clean(patterns, text[lo..hi])
  {
    var part := text[lo..hi];
    forall a, b | 0 <= a <= b <= |part| ensures !IsMatch(patterns, part[a..b]) {
      SliceOfSlice(text, lo, hi, a, b);
    }
  }

  /** Text is left alone exactly when nothing in it matches. */
  lemma {:induction false} SubstituteFixesIff(patterns: seq<string>, s: string)
    requires AllRegular(patterns)
    ensures Substitute(patterns, s) == s <==> Clean(patterns, s)
    decreases |s|
  {
    SubstituteIsClean(patterns, s);
    if Clean(patterns, s) && s != "" {
      FirstMatchIff(patterns, s, 0);
      assert forall n :: 0 <= n <= |s| ==> s[..n] == s[0..n];
      CleanPart(patterns, s, 1, |s|);
      assert s[1..|s|] == s[1..];
      SubstituteFixesIff(patterns, s[1..]);
    }
  }

  lemma TruncatedText()
    ensures |TRUNCATED| == 15 && TRUNCATED[0] == '\n' && TRUNCATED[1] == '.'
    ensures forall k :: 0 <= k < 15 ==> Fold(TRUNCATED[k]) != 's' && Fold(TRUNCATED[k]) != 'v'
  {
  }

  /** Cutting clean text anywhere and adding the truncation note creates no match. */
  lemma TruncationStaysClean(patterns: seq<string>, text: string, n: nat)
    requires AllRegular(patterns)
    requires n <= |text| && Clean(patterns, text)
    ensures Clean(patterns, text[..n] + TRUNCATED)
  {
    var front := text[..n];
    var out := front + TRUNCATED;
    TruncatedText();
    assert text[..n] == text[0..n];
    CleanPart(patterns, text, 0, n);
    forall a, b | 0 <= a <= b <= |out| ensures !IsMatch(patterns, out[a..b]) {
      if b <= n {
        assert out[a..b] == front[a..b];
      } else if a >= n {
        NoMatchInside(patterns, out, a, b);
      } else if b == n + 1 {
        NoMatchEndsInSpace(patterns, out, a, b);
      } else {
        NoMatchAcross(patterns, out, a, n + 1, b);
      }
    }
  }

  /**
   Clean text placed between a heading that ends in a colon and a line break and a passage that starts
   with two line breaks and "Top-" is reached by no match of the whole.
   */
  lemma EmbeddedStaysClean(patterns: seq<string>, before: string, text: string, after: string, a: nat, b: nat)
    requires AllRegular(patterns)
    requires Clean(patterns, text)
    requires |before| >= 2 && before[|before| - 2] == ':' && before[|before| - 1] == '\n'
    requires |after| >= 6 && after[..6] == "\n\nTop-"
    requires a <= b <= |before + text + after| && a < |before| + |text| && b > |before|
    ensures !IsMatch(patterns, (before + text + after)[a..b])
  {
    var whole := before + text + after;
    var lo, hi := |before|, |before| + |text|;
    assert whole[lo - 2] == ':' && whole[lo - 1] == '\n';
    var heading := after[..6];
    assert whole[hi] == heading[0] && whole[hi + 1] == heading[1] && whole[hi + 2] == heading[2];
    assert whole[hi + 3] == heading[3] && whole[hi + 4] == heading[4] && whole[hi + 5] == heading[5];
    if a < lo < b {
      StraddlesColon(patterns, whole, lo, a, b);
    } else {
      if b <= hi {
        var x, y := a - lo, b - lo;
        assert whole[a..b] == text[x..y];
      } else if b <= hi + 2 {
        NoMatchEndsInSpace(patterns, whole, a, b);
      } else if b <= hi + 5 {
        EndsInHeading(patterns, whole, hi, a, b);
      } else {
        NoMatchAcross(patterns, whole, a, hi + 5, b);
      }
    }
  }

  lemma StraddlesColon(patterns: seq<string>, whole: string, lo: nat, a: nat, b: nat)
    requires AllRegular(patterns)
    requires 2 <= lo && a < lo < b <= |whole| && whole[lo - 2] == ':' && whole[lo - 1] == '\n'
    ensures !IsMatch(patterns, whole[a..b])
  {
    var w := whole[a..b];
    assert a == lo - 1 ==> w[0] == '\n';
    assert a < lo - 1 ==> w[lo - 2 - a] == ':';
    if IsMatch(patterns, w) {
      MatchEnds(patterns, w);
      MatchLetter(patterns, w, if a < lo - 1 then lo - 2 - a else 0);
    }
  }

  lemma EndsInHeading(patterns: seq<string>, whole: string, hi: nat, a: nat, b: nat)
    requires AllRegular(patterns)
    requires a < hi && hi + 2 < b <= hi + 5 <= |whole|
    requires whole[hi + 1] == '\n' && whole[hi + 2] == 'T' && whole[hi + 3] == 'o' && whole[hi + 4] == 'p'
    ensures !IsMatch(patterns, whole[a..b])
  {
    var w := whole[a..b];
    assert w[|w| - 1] == whole[b - 1] && w[|w| - 2] == whole[b - 2];
    if IsMatch(patterns, w) {
      MatchEnds(patterns, w);
    }
  }

  // ---------------------------------------------------------------- the expression of the sanitizer

  const PATTERNS: seq<string> := [
    "ignore" + "+" + "previous" + "+" + "instructions",
    "system" + " " + "prompt",
    "assistant" + " " + ":",
    "developer" + " " + ":",
    "user" + " " + ":"]

  ghost predicate IsWord(w: string) {
    w != "" && forall k :: 0 <= k < |w| ==> 'a' <= w[k] <= 'z'
  }

  ghost predicate Marked(p: string) {
    exists k :: 0 <= k < |p| && (p[k] == 's' || p[k] == 'v')
  }

  /** Words with a gap between each two. */
  ghost predicate Phrase(p: string) {
    && p != "" && !IsGap(p[0]) && !IsGap(p[|p| - 1])
    && (forall k :: 0 <= k < |p| ==> 'a' <= p[k] <= 'z' || IsGap(p[k]))
    && (forall k :: 0 <= k < |p| - 1 && IsGap(p[k]) ==> !IsGap(p[k + 1]))
  }

  lemma WordIsPhrase(w: string)
    requires IsWord(w)
    ensures Phrase(w)
  {
  }

  lemma PhraseGrows(p: string, gap: string, w: string)
    requires Phrase(p) && IsWord(w) && |gap| == 1 && IsGap(gap[0])
    ensures Phrase(p + gap + w)
    ensures Marked(p) || Marked(w) ==> Marked(p + gap + w)
  {
    var q := p + gap + w;
    var n := |p| + 1;
    forall k | 0 <= k < |q| ensures q[k] == if k < |p| then p[k] else if k == |p| then gap[0] else w[k - n] {}
    if Marked(w) {
      var k :| 0 <= k < |w| && (w[k] == 's' || w[k] == 'v');
      assert q[n + k] == w[k];
    } else if Marked(p) {
      var k :| 0 <= k < |p| && (p[k] == 's' || p[k] == 'v');
      assert q[k] == p[k];
    }
  }

  lemma PhraseIsRegular(p: string)
    requires Phrase(p) && Marked(p)
    requires var last := p[|p| - 1]; last == 's' || (last == 't' && |p| > 1 && p[|p| - 2] == 'p')
    ensures Regular(p)
  {
  }

  lemma RoleIsRegular(w: string)
    requires IsWord(w) && Marked(w)
    ensures Regular(w + " " + ":")
  {
    var q := w + " " + ":";
    var k :| 0 <= k < |w| && (w[k] == 's' || w[k] == 'v');
    assert q[k] == w[k];
  }

  lemma IgnoreRegular()
    ensures Regular("ignore" + "+" + "previous" + "+" + "instructions")
  {
    var a, b, c := "ignore", "previous", "instructions";
    WordIsPhrase(a);
    assert b[3] == 'v';
    PhraseGrows(a, "+", b);
    PhraseGrows(a + "+" + b, "+", c);
    PhraseIsRegular(a + "+" + b + "+" + c);
  }

  lemma SystemRegular()
    ensures Regular("system" + " " + "prompt")
  {
    var a, b := "system", "prompt";
    assert a[0] == 's';
    WordIsPhrase(a);
    PhraseGrows(a, " ", b);
    PhraseIsRegular(a + " " + b);
  }

  lemma RolesRegular()
    ensures Regular("assistant" + " " + ":") && Regular("developer" + " " + ":") && Regular("user" + " " + ":")
  {
    var a, d, u := "assistant", "developer", "user";
    assert a[1] == 's' && d[2] == 'v' && u[1] == 's';
    RoleIsRegular(a);
    RoleIsRegular(d);
    RoleIsRegular(u);
  }

  lemma PatternsRegular()
    ensures AllRegular(PATTERNS)
  {
    IgnoreRegular();
    SystemRegular();
    RolesRegular();
  }
}
