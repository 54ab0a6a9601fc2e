/** What the prompt builder guarantees: template fidelity, length, what stays visible, redaction. */
module PromptBounds {
  import opened Prelude
  import opened Text
  import opened Schema
  import opened UnsafeInstructions
  import opened ContextSanitizer

  // ---------------------------------------------------------------- filling the template

  lemma {:induction false} FormatPlain(p: string, t: string, readme: string, tree: string)
    requires NoBraces(p)
    ensures Format(p + t, readme, tree) == Prepend(p, Format(t, readme, tree))
  {
    if p == "" {
      assert p + t == t;
    } else {
      FormatPlain(p[1..], t, readme, tree);
      assert (p + t)[1..] == p[1..] + t;
      var rest := Format(t, readme, tree);
      if rest.Text? { assert [p[0]] + (p[1..] + rest.text) == p + rest.text; }
    }
  }

  lemma FormatReadme(t: string, readme: string, tree: string)
    ensures Format(README_FIELD + t, readme, tree) == Prepend(readme, Format(t, readme, tree))
  {
    var s := README_FIELD + t;
    assert s[..8] == README_FIELD && s[8..] == t && s[1] == 'r';
  }

  lemma FormatTree(t: string, readme: string, tree: string)
    ensures Format(TREE_FIELD + t, readme, tree) == Prepend(tree, Format(t, readme, tree))
  {
    var s := TREE_FIELD + t;
    assert s[..6] == TREE_FIELD && s[6..] == t && s[1] == 't';
  }

  lemma PlainParts()
    ensures NoBraces(OPENING) && NoBraces(README_HEADING) && NoBraces(TREE_HEADING) && NoBraces(CLOSING)
  {
    PlainHeadings();
    PlainEnds();
  }

  lemma PlainHeadings()
    ensures NoBraces(README_HEADING) && NoBraces(TREE_HEADING)
  {
  }

  lemma PlainEnds()
    ensures NoBraces(OPENING) && NoBraces(CLOSING)
  {
  }

  lemma FormatClosing(readme: string, tree: string)
    ensures Format(CLOSING, readme, tree) == Text(CLOSING)
  {
    PlainParts();
    FormatPlain(CLOSING, "", readme, tree);
    assert CLOSING + "" == CLOSING;
  }

  lemma FormatTail(readme: string, tree: string)
    ensures Format(TemplateTail(), readme, tree) == Text(README_HEADING + (readme + (TREE_HEADING + (tree + CLOSING))))
  {
    PlainParts();
    FormatClosing(readme, tree);
    FormatTree(CLOSING, readme, tree);
    FormatPlain(TREE_HEADING, TREE_FIELD + CLOSING, readme, tree);
    FormatReadme(TREE_HEADING + (TREE_FIELD + CLOSING), readme, tree);
    FormatPlain(README_HEADING, README_FIELD + (TREE_HEADING + (TREE_FIELD + CLOSING)), readme, tree);
  }

  lemma Regroup(a: string, b: string, c: string, d: string, e: string, f: string, g: string)
    ensures a + (b + (c + (d + (e + (f + g))))) == (a + b + c) + d + (e + f + g)
  {
    assert e + (f + g) == e + f + g;
    var tail := e + f + g;
    assert b + (c + (d + tail)) == b + c + (d + tail);
    assert a + (b + c + (d + tail)) == (a + b + c) + (d + tail);
    assert (a + b + c) + (d + tail) == (a + b + c) + d + tail;
  }

  /** A header without braces: the template yields the prompt as it reads. */
  lemma PlainHeaderFills(header: string, readme: string, tree: string)
    requires NoBraces(header)
    ensures Format(Template(header), readme, tree) == Text(PromptText(header, readme, tree))
  {
    PlainParts();
    FormatTail(readme, tree);
    FormatPlain(header, TemplateTail(), readme, tree);
    FormatPlain(OPENING, header + TemplateTail(), readme, tree);
    Regroup(OPENING, header, README_HEADING, readme, TREE_HEADING, tree, CLOSING);
  }

  lemma {:induction false} BracesConcat(a: string, b: string)
    ensures Braces(a + b) == Braces(a) + Braces(b)
  {
    if a == "" {
      assert a + b == b;
    } else {
      BracesConcat(a[1..], b);
      assert (a + b)[1..] == a[1..] + b;
    }
  }

  lemma {:induction false} BracesZero(s: string)
    ensures Braces(s) == 0 <==> NoBraces(s)
  {
    if s != "" {
      BracesZero(s[1..]);
      assert forall i :: 0 < i < |s| ==> s[i] == s[1..][i - 1];
    }
  }

  /** With empty fields, formatting a header at best halves its braces, and fails otherwise. */
  lemma {:induction false} BracesShrink(h: string, tail: string, end: string)
    requires tail != "" && tail[0] == '\n' && Format(tail, "", "") == Text(end)
    ensures match Format(h + tail, "", "")
            case BadField => true
            case Text(text) => 2 * Braces(text) <= Braces(h) + 2 * Braces(end)
    decreases |h|
  {
    var t := h + tail;
    assert t[|h|] == '\n';
    if h == "" {
      assert t == tail;
    } else if t[0] == '{' {
      if t[1] == '{' {
        DoubleBrace(h, tail, end);
      } else if StartsWith(t, README_FIELD) {
        FieldInside(h, tail, README_FIELD);
        BracesShrink(h[8..], tail, end);
        assert t[8..] == h[8..] + tail && h == h[..8] + h[8..];
        BracesConcat(h[..8], h[8..]);
        EmptyField(t[8..]);
      } else if StartsWith(t, TREE_FIELD) {
        FieldInside(h, tail, TREE_FIELD);
        BracesShrink(h[6..], tail, end);
        assert t[6..] == h[6..] + tail && h == h[..6] + h[6..];
        BracesConcat(h[..6], h[6..]);
        EmptyField(t[6..]);
      }
    } else if t[0] == '}' {
      if t[1] == '}' { DoubleBrace(h, tail, end); }
    } else {
      BracesShrink(h[1..], tail, end);
      assert t[1..] == h[1..] + tail;
      OneChar(t, h);
    }
  }

  lemma EmptyField(t: string)
    ensures Prepend("", Format(t, "", "")) == Format(t, "", "")
  {
    var rest := Format(t, "", "");
    if rest.Text? { assert "" + rest.text == rest.text; }
  }

  lemma OneChar(t: string, h: string)
    requires t != "" && h != "" && t[0] == h[0] && t[0] != '{' && t[0] != '}'
    ensures Braces(h) == Braces(h[1..])
    ensures forall text :: Braces([t[0]] + text) == Braces(text)
  {
    forall text ensures Braces([t[0]] + text) == Braces(text) {
      assert ([t[0]] + text)[1..] == text;
    }
  }

  lemma DoubleBrace(h: string, tail: string, end: string)
    requires tail != "" && tail[0] == '\n' && Format(tail, "", "") == Text(end)
    requires h != "" && (h[0] == '{' || h[0] == '}') && (h + tail)[1] == h[0]
    ensures match Format(h + tail, "", "")
            case BadField => true
            case Text(text) => 2 * Braces(text) <= Braces(h) + 2 * Braces(end)
    decreases |h|, 0
  {
    var t := h + tail;
    BracesShrink(h[2..], tail, end);
    assert t[2..] == h[2..] + tail && h[1] == t[1];
    TwoBraces(h);
    var rest := Format(t[2..], "", "");
    if rest.Text? { OneBrace(h[0], rest.text); }
  }

  lemma TwoBraces(h: string)
    requires |h| > 1 && (h[0] == '{' || h[0] == '}') && h[1] == h[0]
    ensures Braces(h) == 2 + Braces(h[2..])
  {
    assert h[1..][1..] == h[2..] && h[1..][0] == h[1];
  }

  lemma OneBrace(c: char, text: string)
    requires c == '{' || c == '}'
    ensures Braces([c] + text) == 1 + Braces(text)
  {
    assert ([c] + text)[1..] == text;
  }

  /** A field cannot run past the header, because a line break follows. */
  lemma FieldInside(h: string, tail: string, field: string)
    requires tail != "" && tail[0] == '\n' && '\n' !in field && StartsWith(h + tail, field)
    ensures |field| <= |h| && h[..|field|] == field
  {
    var t := h + tail;
    assert t[|h|] == tail[0];
    assert forall i :: 0 <= i < |field| ==> field[i] == t[i];
    if |h| >= |field| {
      assert t[..|field|] == h[..|field|];
    }
  }

  /**
   The prompt reads as the template does, whatever README and file list are put in, exactly when the
   header has no brace. The header holds the repository's URL, branch name and language.
   */
  lemma TemplateFaithfulIff(header: string)
    ensures (forall readme, tree :: Format(Template(header), readme, tree) == Text(PromptText(header, readme, tree)))
       <==> NoBraces(header)
  {
    if NoBraces(header) {
      forall readme, tree ensures Format(Template(header), readme, tree) == Text(PromptText(header, readme, tree)) {
        PlainHeaderFills(header, readme, tree);
      }
    } else {
      BracedHeaderFails(header);
    }
  }

  lemma BracedHeaderFails(header: string)
    requires !NoBraces(header)
    ensures Format(Template(header), "", "") != Text(PromptText(header, "", ""))
  {
    var end := README_HEADING + ("" + (TREE_HEADING + ("" + CLOSING)));
    PlainParts();
    FormatTail("", "");
    BracesShrink(header, TemplateTail(), end);
    FormatPlain(OPENING, header + TemplateTail(), "", "");
    BracesZero(header);
    Regroup(OPENING, header, README_HEADING, "", TREE_HEADING, "", CLOSING);
    BracesZero(README_HEADING);
    BracesZero(TREE_HEADING);
    BracesZero(CLOSING);
    BracesConcat(TREE_HEADING, "" + CLOSING);
    BracesConcat(README_HEADING, "" + (TREE_HEADING + ("" + CLOSING)));
    assert "" + CLOSING == CLOSING;
    assert "" + (TREE_HEADING + ("" + CLOSING)) == TREE_HEADING + ("" + CLOSING);
    assert Braces(end) == 0;
    BracesConcat(header, end);
    BracesConcat(OPENING, header + end);
    var filled := Format(header + TemplateTail(), "", "");
    if filled.Text? {
      BracesConcat(OPENING, filled.text);
    }
  }

  // ---------------------------------------------------------------- length

  /** The length of the prompt with empty README and file list. */
  function FrameLength(header: string): nat {
    |PromptText(header, "", "")|
  }

  lemma PromptLength(header: string, readme: string, tree: string)
    ensures |PromptText(header, readme, tree)| == FrameLength(header) + |readme| + |tree|
  {
  }

  /** The least a nonempty text is cut down to, with the note that it was cut. */
  function CutLength(n: nat, floor: nat): nat {
    if n == 0 then 0 else Min(n, floor) + |TRUNCATED|
  }

  lemma CutTextLength(s: string, overflow: int, slack: int, floor: nat)
    ensures var kept := Max(|s| - overflow - slack, floor);
            |CutText(s, overflow, slack, floor)| == Min(|s|, kept) + 15
  {
    TruncatedText();
  }

  /** How long the final prompt is, as a function of four lengths. */
  function FinalLength(frame: nat, readme: nat, tree: nat, maxChars: int): int {
    var total := frame + readme + tree;
    var readme' := if total > maxChars && readme > 0
                   then Min(readme, Max(readme - (total - maxChars) - README_SLACK, README_FLOOR)) + 15 else readme;
    var total' := frame + readme' + tree;
    var tree' := if total' > maxChars && tree > 0
                 then Min(tree, Max(tree - (total' - maxChars) - TREE_SLACK, TREE_FLOOR)) + 15 else tree;
    frame + readme' + tree'
  }

  lemma DraftIsPrompt(header: string, readme: string, tree: string, maxChars: int)
    requires NoBraces(header)
    ensures var d := FinalDraft(Template(header), readme, tree, maxChars);
            && d.Ok?
            && d.value.text == PromptText(header, d.value.readme, d.value.tree)
            && |d.value.text| == FinalLength(FrameLength(header), |readme|, |tree|, maxChars)
  {
    PlainHeaderFills(header, readme, tree);
    PromptLength(header, readme, tree);
    var first := Draft(readme, tree, PromptText(header, readme, tree), []);
    assert Fill(Template(header), readme, tree, []) == Ok(first);
    var second := ReadmeStage(header, first, maxChars);
    TreeStage(header, second, maxChars);
  }

  ghost predicate IsDraft(header: string, d: Draft) {
    d.text == PromptText(header, d.readme, d.tree)
  }

  lemma ReadmeStage(header: string, d: Draft, maxChars: int) returns (e: Draft)
    requires NoBraces(header) && IsDraft(header, d)
    ensures CutReadme(Template(header), d, maxChars) == Ok(e) && IsDraft(header, e) && e.tree == d.tree
    ensures var total := FrameLength(header) + |d.readme| + |d.tree|;
            |d.text| == total
            && |e.readme| == if total > maxChars && |d.readme| > 0
                             then 15 + Min(|d.readme|,
                                           Max(|d.readme| - (total - maxChars) - README_SLACK, README_FLOOR))
                             else |d.readme|
  {
    PromptLength(header, d.readme, d.tree);
    e := d;
    if |d.text| > maxChars && d.readme != "" {
      var overflow := |d.text| - maxChars;
      var readme := CutText(d.readme, overflow, README_SLACK, README_FLOOR);
      CutTextLength(d.readme, overflow, README_SLACK, README_FLOOR);
      PlainHeaderFills(header, readme, d.tree);
      e := Draft(readme, d.tree, PromptText(header, readme, d.tree), d.warnings + [README_CUT]);
    }
  }

  lemma TreeStage(header: string, d: Draft, maxChars: int)
    requires NoBraces(header) && IsDraft(header, d)
    ensures var total := FrameLength(header) + |d.readme| + |d.tree|;
            var e := CutTree(Template(header), d, maxChars);
            && e.Ok? && IsDraft(header, e.value) && e.value.readme == d.readme
            && |e.value.text| == FrameLength(header) + |d.readme|
               + if total > maxChars && |d.tree| > 0
                 then Min(|d.tree|, Max(|d.tree| - (total - maxChars) - TREE_SLACK, TREE_FLOOR)) + 15
                 else |d.tree|
  {
    PromptLength(header, d.readme, d.tree);
    if |d.text| > maxChars && d.tree != "" {
      var overflow := |d.text| - maxChars;
      var tree := CutText(d.tree, overflow, TREE_SLACK, TREE_FLOOR);
      CutTextLength(d.tree, overflow, TREE_SLACK, TREE_FLOOR);
      PlainHeaderFills(header, d.readme, tree);
      PromptLength(header, d.readme, tree);
    }
  }

  lemma FinalLengthBound(frame: nat, readme: nat, tree: nat, maxChars: int)
    ensures FinalLength(frame, readme, tree, maxChars) <= Max(maxChars, frame + 271 + 143)
  {
  }

  lemma FinalLengthFits(frame: nat, readme: nat, tree: nat, maxChars: int)
    ensures FinalLength(frame, readme, tree, maxChars) <= maxChars <==>
            || frame + readme + tree <= maxChars
            || frame + CutLength(readme, README_FLOOR) + tree <= maxChars
            || frame + CutLength(readme, README_FLOOR) + CutLength(tree, TREE_FLOOR) <= maxChars
  {
    TruncatedText();
  }

  /** The prompt is never longer than the budget or the frame with both texts at their floors. */
  lemma PromptBound(ctx: RawContext, maxContextTokens: int)
    requires NoBraces(Header(ctx))
    ensures PromptFor(ctx, maxContextTokens).Ok?
    ensures |PromptFor(ctx, maxContextTokens).value.promptText|
            <= Max(maxContextTokens * CHARS_PER_TOKEN, FrameLength(Header(ctx)) + 271 + 143)
    ensures FrameLength(Header(ctx)) + 414 <= maxContextTokens * CHARS_PER_TOKEN ==>
              |PromptFor(ctx, maxContextTokens).value.promptText| <= maxContextTokens * CHARS_PER_TOKEN
  {
    var header, readme, tree, maxChars := Header(ctx), ReadmeOf(ctx), TreeOf(ctx), maxContextTokens * CHARS_PER_TOKEN;
    DraftIsPrompt(header, readme, tree, maxChars);
    FinalLengthBound(FrameLength(header), |readme|, |tree|, maxChars);
  }

  /**
   The design caps the prompt at the budget. It is met exactly when one of three lengths fits: nothing
   cut, the README at its floor, or both at their floors. A short README is not shortened by the cut
   but lengthened by its note, so the three do not imply each other.
   */
  lemma PromptFitsIff(ctx: RawContext, maxContextTokens: int)
    requires NoBraces(Header(ctx))
    ensures PromptFor(ctx, maxContextTokens).Ok?
    ensures var frame, readme, tree := FrameLength(Header(ctx)), |ReadmeOf(ctx)|, |TreeOf(ctx)|;
            var maxChars := maxContextTokens * CHARS_PER_TOKEN;
            |PromptFor(ctx, maxContextTokens).value.promptText| <= maxChars <==>
            || frame + readme + tree <= maxChars
            || frame + CutLength(readme, README_FLOOR) + tree <= maxChars
            || frame + CutLength(readme, README_FLOOR) + CutLength(tree, TREE_FLOOR) <= maxChars
  {
    var header, readme, tree, maxChars := Header(ctx), ReadmeOf(ctx), TreeOf(ctx), maxContextTokens * CHARS_PER_TOKEN;
    DraftIsPrompt(header, readme, tree, maxChars);
    FinalLengthFits(FrameLength(header), |readme|, |tree|, maxChars);
  }

  // ---------------------------------------------------------------- what is shown, and the warnings

  /** shown is the text itself, or a long enough front of it with the note. */
  ghost predicate ShownFrom(shown: string, text: string, floor: nat, cut: bool) {
    if cut then exists n: nat :: Min(|text|, floor) <= n <= |text| && shown == text[..n] + TRUNCATED
    else shown == text
  }

  lemma CutIsShown(s: string, overflow: int, slack: int, floor: nat)
    ensures ShownFrom(CutText(s, overflow, slack, floor), s, floor, true)
  {
    var n := Max(|s| - overflow - slack, floor);
    if n <= |s| {
      assert Min(|s|, floor) <= n <= |s| && CutText(s, overflow, slack, floor) == s[..n] + TRUNCATED;
    } else {
      assert s[..|s|] == s;
    }
  }

  /**
   Each text is shown whole, or as a front of at least the floor (or all of it) followed by the note;
   and each cut, and nothing else, is reported, README first.
   */
  lemma ShownAndReported(template: string, readme: string, tree: string, maxChars: int)
    requires FinalDraft(template, readme, tree, maxChars).Ok?
    ensures var d := FinalDraft(template, readme, tree, maxChars).value;
            && ShownFrom(d.readme, readme, README_FLOOR, README_CUT in d.warnings)
            && ShownFrom(d.tree, tree, TREE_FLOOR, TREE_CUT in d.warnings)
            && (d.warnings == [] || d.warnings == [README_CUT] || d.warnings == [TREE_CUT]
                || d.warnings == [README_CUT, TREE_CUT])
            && (d.warnings == [] ==> d.readme == readme && d.tree == tree)
  {
    var first := Fill(template, readme, tree, []).value;
    var second := CutReadme(template, first, maxChars).value;
    var third := CutTree(template, second, maxChars).value;
    WarningsDiffer();
    if |first.text| > maxChars && readme != "" {
      CutIsShown(readme, |first.text| - maxChars, README_SLACK, README_FLOOR);
    }
    if |second.text| > maxChars && tree != "" {
      CutIsShown(tree, |second.text| - maxChars, TREE_SLACK, TREE_FLOOR);
    }
  }

  lemma WarningsDiffer()
    ensures README_CUT != TREE_CUT && README_CUT.message != TREE_CUT.message
  {
    assert |README_CUT.message| < |TREE_CUT.message|;
  }

  // ---------------------------------------------------------------- redaction in the prompt

  /** The README the prompt shows, cut or not, holds no match. */
  lemma ShownReadmeClean(shown: string, readme: string, floor: nat, cut: bool)
    requires ShownFrom(shown, readme, floor, cut) && Clean(PATTERNS, readme)
    ensures Clean(PATTERNS, shown)
  {
    if cut {
      PatternsRegular();
      var n: nat :| Min(|readme|, floor) <= n <= |readme| && shown == readme[..n] + TRUNCATED;
      TruncationStaysClean(PATTERNS, readme, n);
    }
  }

  lemma FrameAround(header: string, tree: string)
    ensures var above, below := AboveReadme(header), BelowReadme(tree);
            && |above| >= 2 && above[|above| - 2] == ':' && above[|above| - 1] == '\n'
            && |below| >= 6 && below[..6] == "\n\nTop-"
  {
    var below := BelowReadme(tree);
    assert TREE_HEADING[..6] == "\n\nTop-";
    assert below[..6] == TREE_HEADING[..6];
  }

  /**
   In the whole prompt no match touches the README: every match lies in what precedes it or in what
   follows it. Those parts are not sanitized, so the prompt is free of matches exactly when they are.
   */
  lemma PromptCleanIff(ctx: RawContext, maxContextTokens: int)
    requires NoBraces(Header(ctx))
    ensures FinalDraft(Template(Header(ctx)), ReadmeOf(ctx), TreeOf(ctx), maxContextTokens * CHARS_PER_TOKEN).Ok?
    ensures var maxChars := maxContextTokens * CHARS_PER_TOKEN;
            var d := FinalDraft(Template(Header(ctx)), ReadmeOf(ctx), TreeOf(ctx), maxChars).value;
            var above, below := AboveReadme(Header(ctx)), BelowReadme(d.tree);
            && Clean(PATTERNS, d.readme)
            && (Clean(PATTERNS, d.text) <==> Clean(PATTERNS, above) && Clean(PATTERNS, below))
  {
    var header, readme, tree, maxChars := Header(ctx), ReadmeOf(ctx), TreeOf(ctx), maxContextTokens * CHARS_PER_TOKEN;
    PatternsRegular();
    SubstituteIsClean(PATTERNS, Strip(match ctx.readme case None => "" case Some(text) => text));
    DraftIsPrompt(header, readme, tree, maxChars);
    ShownAndReported(Template(header), readme, tree, maxChars);
    var d := FinalDraft(Template(header), readme, tree, maxChars).value;
    ShownReadmeClean(d.readme, readme, README_FLOOR, README_CUT in d.warnings);
    FrameAround(header, d.tree);
    EmbeddedCleanIff(AboveReadme(header), d.readme, BelowReadme(d.tree));
  }

  lemma EmbeddedCleanIff(above: string, readme: string, below: string)
    requires Clean(PATTERNS, readme)
    requires |above| >= 2 && above[|above| - 2] == ':' && above[|above| - 1] == '\n'
    requires |below| >= 6 && below[..6] == "\n\nTop-"
    ensures Clean(PATTERNS, above + readme + below) <==> Clean(PATTERNS, above) && Clean(PATTERNS, below)
  {
    var whole := above + readme + below;
    var lo, hi := |above|, |above| + |readme|;
    PatternsRegular();
    assert whole[0..lo] == above && whole[hi..|whole|] == below;
    if Clean(PATTERNS, whole) {
      CleanPart(PATTERNS, whole, 0, lo);
      CleanPart(PATTERNS, whole, hi, |whole|);
    }
    if Clean(PATTERNS, above) && Clean(PATTERNS, below) {
      forall a, b | 0 <= a <= b <= |whole| ensures !IsMatch(PATTERNS, whole[a..b]) {
        EmbeddedNoMatch(above, readme, below, a, b);
      }
    }
  }

  lemma EmbeddedNoMatch(above: string, readme: string, below: string, a: nat, b: nat)
    requires Clean(PATTERNS, above) && Clean(PATTERNS, readme) && Clean(PATTERNS, below)
    requires |above| >= 2 && above[|above| - 2] == ':' && above[|above| - 1] == '\n'
    requires |below| >= 6 && below[..6] == "\n\nTop-"
    requires a <= b <= |above + readme + below|
    ensures !IsMatch(PATTERNS, (above + readme + below)[a..b])
  {
    var whole := above + readme + below;
    var lo, hi := |above|, |above| + |readme|;
    if b <= lo {
      assert whole[a..b] == above[a..b];
    } else if a >= hi {
      var x, y := a - hi, b - hi;
      assert whole[a..b] == below[x..y];
    } else {
      PatternsRegular();
      EmbeddedStaysClean(PATTERNS, above, readme, below, a, b);
    }
  }

  /** Sanitizing is idempotent, and leaves a text alone exactly when nothing in it matches. */
  lemma SanitizeStable(s: string)
    ensures Clean(PATTERNS, SanitizeText(s))
    ensures SanitizeText(SanitizeText(s)) == SanitizeText(s)
    ensures SanitizeText(s) == s <==> Clean(PATTERNS, s)
  {
    PatternsRegular();
    SubstituteIsClean(PATTERNS, s);
    SubstituteFixesIff(PATTERNS, s);
    SubstituteFixesIff(PATTERNS, SanitizeText(s));
  }
}
