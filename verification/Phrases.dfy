/** What the five alternatives of the redaction match, written out as phrases of words and white space. */
module Phrases {
  import opened Prelude
  import opened Text
  import opened UnsafeInstructions

  /** The characters that count as a letter: both cases, and the three letters whose other case is ASCII. */
  predicate IsForm(c: char, letter: char) {
    || c == letter
    || ('a' <= letter <= 'z' && c as int + 32 == letter as int)
    || (letter == 'i' && (c == '\U{130}' || c == '\U{131}'))
    || (letter == 's' && c == '\U{17F}')
  }

  /** Letter by letter the word, in whatever case. */
  predicate Spells(w: string, word: string) {
    |w| == |word| && forall k :: 0 <= k < |w| ==> IsForm(w[k], word[k])
  }

  predicate Blank(w: string) {
    forall k :: 0 <= k < |w| ==> IsSpace(w[k])
  }

  /** The words one after the other, with white space of at least a given length between each two. */
  ghost predicate Reads(w: string, words: seq<string>, gap: nat)
    decreases |words|
  {
    if |words| < 2 then words != [] && Spells(w, words[0])
    else
      && |words[0]| <= |w| && Spells(w[..|words[0]|], words[0])
      && var v := w[|words[0]|..];
         exists n :: gap <= n <= |v| && Blank(v[..n]) && Reads(v[n..], words[1..], gap)
  }

  /** Lower-case letters and colons. */
  predicate IsPlain(word: string) {
    forall k :: 0 <= k < |word| ==> 'a' <= word[k] <= 'z' || word[k] == ':'
  }

  lemma FoldIsForm(c: char, letter: char)
    requires 'a' <= letter <= 'z' || letter == ':'
    ensures Fold(c) == letter <==> IsForm(c, letter)
  {
  }

  lemma {:induction false} WordIff(word: string, p: string, w: string)
    requires IsPlain(word)
    ensures Matches(word + p, w) <==> |word| <= |w| && Spells(w[..|word|], word) && Matches(p, w[|word|..])
    decreases |word|
  {
    if word == "" {
      assert word + p == p && w[0..] == w;
    } else if w != "" {
      var q, v := word[1..], w[1..];
      assert (word + p)[1..] == q + p;
      FoldIsForm(w[0], word[0]);
      WordIff(q, p, v);
      if |word| <= |w| {
        assert w[..|word|] == [w[0]] + v[..|q|] && w[|word|..] == v[|q|..] && word == [word[0]] + q;
      }
    }
  }

  ghost predicate BlankThen(p: string, w: string, least: nat) {
    exists n :: least <= n <= |w| && Blank(w[..n]) && Matches(p, w[n..])
  }

  lemma {:induction false} GapIff(p: string, w: string)
    ensures Matches(" " + p, w) <==> BlankThen(p, w, 0)
    decreases |w|
  {
    assert (" " + p)[1..] == p && w[0..] == w;
    if Matches(p, w) {
      assert Blank(w[..0]) && Matches(p, w[0..]);
    } else if w != "" && IsSpace(w[0]) {
      GapIff(p, w[1..]);
      BlankLonger(p, w, 0);
    }
  }

  lemma ShiftBlank(w: string, n: nat)
    requires n < |w| && IsSpace(w[0])
    ensures w[1..][n..] == w[n + 1..] && (Blank(w[1..][..n]) <==> Blank(w[..n + 1]))
  {
    var v := w[1..];
    assert w[..n + 1] == [w[0]] + v[..n];
    assert forall k :: 0 <= k < n ==> v[..n][k] == w[..n + 1][k + 1];
  }

  lemma BlankLonger(p: string, w: string, least: nat)
    requires w != "" && IsSpace(w[0])
    ensures BlankThen(p, w[1..], least) <==> BlankThen(p, w, least + 1)
  {
    var v := w[1..];
    if BlankThen(p, v, least) {
      var n :| least <= n <= |v| && Blank(v[..n]) && Matches(p, v[n..]);
      ShiftBlank(w, n);
      assert least + 1 <= n + 1 <= |w| && Blank(w[..n + 1]) && Matches(p, w[n + 1..]);
    }
    if BlankThen(p, w, least + 1) {
      var n :| least + 1 <= n <= |w| && Blank(w[..n]) && Matches(p, w[n..]);
      ShiftBlank(w, n - 1);
      assert least <= n - 1 <= |v| && Blank(v[..n - 1]) && Matches(p, v[n - 1..]);
    }
  }

  lemma PlusIff(p: string, w: string)
    ensures Matches("+" + p, w) <==> BlankThen(p, w, 1)
  {
    assert ("+" + p)[1..] == p;
    if w != "" {
      GapIff(p, w[1..]);
      if IsSpace(w[0]) {
        BlankLonger(p, w, 0);
      } else {
        assert forall n :: 1 <= n <= |w| ==> w[..n][0] == w[0];
      }
    }
  }

  /** The words with a gap sign between each two. */
  function Pattern(words: seq<string>, gap: nat): string {
    if words == [] then ""
    else if |words| == 1 then words[0]
    else words[0] + ((if gap == 0 then " " else "+") + Pattern(words[1..], gap))
  }

  lemma {:induction false} PatternIff(words: seq<string>, gap: nat, w: string)
    requires words != [] && gap <= 1 && forall word :: word in words ==> IsPlain(word)
    ensures Matches(Pattern(words, gap), w) <==> Reads(w, words, gap)
    decreases |words|, 0
  {
    var first := words[0];
    if |words| == 1 {
      WordIff(first, "", w);
      assert first + "" == first;
      if |first| <= |w| && w[|first|..] == "" {
        assert w[..|first|] == w;
      }
    } else {
      var rest := Pattern(words[1..], gap);
      WordIff(first, (if gap == 0 then " " else "+") + rest, w);
      if |first| <= |w| {
        var v := w[|first|..];
        if gap == 0 { GapIff(rest, v); } else { PlusIff(rest, v); }
        assert forall word :: word in words[1..] ==> word in words;
        GapBetween(words[1..], gap, v);
      }
    }
  }

  lemma {:induction false} GapBetween(words: seq<string>, gap: nat, v: string)
    requires words != [] && gap <= 1 && forall word :: word in words ==> IsPlain(word)
    ensures BlankThen(Pattern(words, gap), v, gap) <==>
              exists n :: gap <= n <= |v| && Blank(v[..n]) && Reads(v[n..], words, gap)
    decreases |words|, 1
  {
    forall n | gap <= n <= |v| ensures Matches(Pattern(words, gap), v[n..]) <==> Reads(v[n..], words, gap) {
      PatternIff(words, gap, v[n..]);
    }
  }

  const IGNORE: seq<string> := ["ignore", "previous", "instructions"]

  lemma PatternsAre()
    ensures PATTERNS == [Pattern(IGNORE, 1), Pattern(["system", "prompt"], 0), Pattern(["assistant", ":"], 0),
                         Pattern(["developer", ":"], 0), Pattern(["user", ":"], 0)]
  {
    IgnoreIs();
    TwoWords("system", "prompt");
    TwoWords("assistant", ":");
    TwoWords("developer", ":");
    TwoWords("user", ":");
  }

  lemma IgnoreIs()
    ensures Pattern(IGNORE, 1) == "ignore" + "+" + "previous" + "+" + "instructions"
  {
    assert IGNORE[1..] == ["previous", "instructions"] && IGNORE[1..][1..] == ["instructions"];
    assert Pattern(["instructions"], 1) == "instructions";
    assert Pattern(IGNORE[1..], 1) == "previous" + ("+" + "instructions");
    assert Pattern(IGNORE, 1) == "ignore" + ("+" + ("previous" + ("+" + "instructions")));
  }

  lemma TwoWords(a: string, b: string)
    ensures Pattern([a, b], 0) == a + " " + b
  {
    assert [a, b][1..] == [b];
    assert a + (" " + b) == a + " " + b;
  }

  lemma WordsPlain()
    ensures IsPlain("ignore") && IsPlain("previous") && IsPlain("instructions")
    ensures IsPlain("system") && IsPlain("prompt") && IsPlain(":")
  {
  }

  lemma RolesPlain()
    ensures IsPlain("assistant") && IsPlain("developer") && IsPlain("user")
  {
  }

  /**
   In any case of the letters, what is redacted is "ignore previous instructions" with white space between
   the words, "system prompt" with or without, and the three role names with a colon, white space allowed.
   */
  lemma UnsafeIff(w: string)
    ensures IsMatch(PATTERNS, w) <==>
            || Reads(w, ["ignore", "previous", "instructions"], 1)
            || Reads(w, ["system", "prompt"], 0)
            || Reads(w, ["assistant", ":"], 0) || Reads(w, ["developer", ":"], 0) || Reads(w, ["user", ":"], 0)
  {
    PatternsAre();
    WordsPlain();
    RolesPlain();
    PatternIff(IGNORE, 1, w);
    PatternIff(["system", "prompt"], 0, w);
    PatternIff(["assistant", ":"], 0, w);
    PatternIff(["developer", ":"], 0, w);
    PatternIff(["user", ":"], 0, w);
    MatchIsOneOf(PATTERNS[0], PATTERNS[1], PATTERNS[2], PATTERNS[3], PATTERNS[4], w);
  }

  lemma MatchIsOneOf(a: string, b: string, c: string, d: string, e: string, w: string)
    ensures IsMatch([a, b, c, d, e], w) <==>
            Matches(a, w) || Matches(b, w) || Matches(c, w) || Matches(d, w) || Matches(e, w)
  {
    var five := [a, b, c, d, e];
    assert five[0] == a && five[1] == b && five[2] == c && five[3] == d && five[4] == e;
  }
}
