/** What the prompt tells of the repository: the metadata lines, the README and the file list. */
module PromptContents {
  import opened Prelude
  import opened Text
  import opened Schema
  import opened UnsafeInstructions
  import opened Redaction
  import opened ContextSanitizer
  import opened PromptBounds

  // ---------------------------------------------------------------- the metadata

  function Language(lang: Option<string>): string {
    match lang
    case None => "Unknown"
    case Some(text) => if |text| == 0 then "Unknown" else text
  }

  lemma BehindHead(head: string, rest: string, end: string, sep: char)
    requires sep !in head
    ensures Split(head + [sep] + rest + end, sep) == [head] + Split(rest + end, sep)
  {
    assert head + [sep] + rest + end == head + [sep] + (rest + end);
    SplitFirst(head, rest + end, sep);
  }

  lemma FirstLine(line: string, sep: char)
    requires sep !in line
    ensures Split("" + (line + [sep]), sep) == [line, ""]
  {
    assert "" + (line + [sep]) == line + [sep] + "";
    SplitFirst(line, "", sep);
    SplitWhole("", sep);
  }

  lemma HeadOfLines(head: string, parts: seq<string>, lines: seq<string>)
    requires [head] + parts == lines + [""] && parts != []
    ensures lines == [head] + lines[1..] && parts == lines[1..] + [""]
  {
    assert ([head] + parts)[1..] == parts;
  }

  lemma BehindMore(head: string, rest: string, end: string, sep: char, lines: seq<string>, more: seq<string>)
    requires sep !in head && lines != [] && lines[0] == head && Split(rest + end, sep) == lines[1..] + more
    ensures Split(head + [sep] + rest + end, sep) == lines + more
  {
    BehindHead(head, rest, end, sep);
    assert [head] + (lines[1..] + more) == lines + more;
  }

  lemma LinesOf(before: string, sep: char, lines: seq<string>) returns (head: string, rest: string)
    requires Split(before, sep) == lines + [""] && lines != []
    ensures sep !in head && before == head + [sep] + rest && lines[0] == head && Split(rest, sep) == lines[1..] + [""]
  {
    head := Before(before, {sep});
    assert |Split(before, sep)| > 1;
    rest := before[|head| + 1..];
    HeadOfLines(head, Split(rest, sep), lines);
  }

  /** A line written behind whole lines. */
  lemma {:induction false} LineBehind(before: string, line: string, sep: char, lines: seq<string>)
    requires sep !in line && Split(before, sep) == lines + [""]
    ensures Split(before + (line + [sep]), sep) == lines + [line, ""]
    decreases |lines|
  {
    if lines == [] {
      assert lines + [""] == [""];
      OnlyEmpty(before, sep);
      FirstLine(line, sep);
    } else {
      var head, rest := LinesOf(before, sep, lines);
      LineBehind(rest, line, sep, lines[1..]);
      BehindMore(head, rest, line + [sep], sep, lines, [line, ""]);
    }
  }

  lemma OnlyEmpty(before: string, sep: char)
    requires Split(before, sep) == [""]
    ensures before == ""
  {
    assert |Before(before, {sep})| == |before|;
  }

  lemma NamedLine(before: string, name: string, text: string, lines: seq<string>)
    requires Split(before, '\n') == lines + [""] && '\n' !in name && '\n' !in text
    ensures Split(before + name + text + "\n", '\n') == lines + [name + text] + [""]
  {
    LineBehind(before, name + text, '\n', lines);
    assert before + name + text + "\n" == before + ((name + text) + ['\n']);
    assert lines + [name + text, ""] == lines + [name + text] + [""];
  }

  lemma NumberLine(before: string, name: string, n: int, lines: seq<string>)
    requires Split(before, '\n') == lines + [""] && '\n' !in name
    ensures Split(before + name + Decimal(n) + "\n", '\n') == lines + [name + Decimal(n)] + [""]
  {
    DecimalDigits(n);
    NamedLine(before, name, Decimal(n), lines);
  }

  lemma NoBreaks()
    ensures '\n' !in "Repository URL: " && '\n' !in "Default branch: " && '\n' !in "Commit SHA: "
    ensures '\n' !in "Stars: " && '\n' !in "Forks: " && '\n' !in "Primary language: "
  {
  }

  lemma TextLines(ctx: RawContext) returns (text: string)
    requires '\n' !in ctx.repositoryUrl && '\n' !in ctx.defaultBranch && '\n' !in ctx.commitSha
    ensures text == "Repository URL: " + ctx.repositoryUrl + "\n" + "Default branch: " + ctx.defaultBranch + "\n"
                    + "Commit SHA: " + ctx.commitSha + "\n"
    ensures Split(text, '\n')
         == [] + ["Repository URL: " + ctx.repositoryUrl] + ["Default branch: " + ctx.defaultBranch]
            + ["Commit SHA: " + ctx.commitSha] + [""]
  {
    NoBreaks();
    SplitWhole("", '\n');
    assert Split("", '\n') == [] + [""];
    NamedLine("", "Repository URL: ", ctx.repositoryUrl, []);
    assert "" + "Repository URL: " == "Repository URL: ";
    var url := "Repository URL: " + ctx.repositoryUrl + "\n";
    var lines := [] + ["Repository URL: " + ctx.repositoryUrl];
    NamedLine(url, "Default branch: ", ctx.defaultBranch, lines);
    var branch := url + "Default branch: " + ctx.defaultBranch + "\n";
    NamedLine(branch, "Commit SHA: ", ctx.commitSha, lines + ["Default branch: " + ctx.defaultBranch]);
    text := branch + "Commit SHA: " + ctx.commitSha + "\n";
  }

  /** The header is these six lines, if no text in it holds a line break. The counts read back by DecimalReads. */
  lemma HeaderLines(ctx: RawContext)
    requires '\n' !in ctx.repositoryUrl && '\n' !in ctx.defaultBranch && '\n' !in ctx.commitSha
    requires '\n' !in Language(ctx.instant.primaryLang)
    ensures Split(Header(ctx), '\n')
         == [] + ["Repository URL: " + ctx.repositoryUrl] + ["Default branch: " + ctx.defaultBranch]
            + ["Commit SHA: " + ctx.commitSha]
            + ["Stars: " + Decimal(ctx.instant.stars)] + ["Forks: " + Decimal(ctx.instant.forks)]
            + ["Primary language: " + Language(ctx.instant.primaryLang)] + [""]
  {
    var text := TextLines(ctx);
    var lines := [] + ["Repository URL: " + ctx.repositoryUrl] + ["Default branch: " + ctx.defaultBranch]
                 + ["Commit SHA: " + ctx.commitSha];
    NoBreaks();
    CountLines(text, ctx.instant, lines);
  }

  lemma CountLines(text: string, instant: InstantMetadata, lines: seq<string>)
    requires Split(text, '\n') == lines + [""] && '\n' !in Language(instant.primaryLang)
    ensures Split(text + "Stars: " + Decimal(instant.stars) + "\n" + "Forks: " + Decimal(instant.forks) + "\n"
                  + "Primary language: " + PrimaryLanguage(instant.primaryLang) + "\n", '\n')
         == lines + ["Stars: " + Decimal(instant.stars)] + ["Forks: " + Decimal(instant.forks)]
            + ["Primary language: " + Language(instant.primaryLang)] + [""]
  {
    NoBreaks();
    NumberLine(text, "Stars: ", instant.stars, lines);
    var stars := text + "Stars: " + Decimal(instant.stars) + "\n";
    NumberLine(stars, "Forks: ", instant.forks, lines + ["Stars: " + Decimal(instant.stars)]);
    var forks := stars + "Forks: " + Decimal(instant.forks) + "\n";
    assert PrimaryLanguage(instant.primaryLang) == Language(instant.primaryLang);
    NamedLine(forks, "Primary language: ", Language(instant.primaryLang),
              lines + ["Stars: " + Decimal(instant.stars)] + ["Forks: " + Decimal(instant.forks)]);
  }

  // ---------------------------------------------------------------- the README

  /**
   The README in the prompt is the given one without the white space around it, cut into kept pieces and unsafe
   instructions, with the note in the place of each of these.
   */
  lemma ReadmeIs(ctx: RawContext)
    returns (front: string, core: string, back: string, kept: seq<string>, matched: seq<string>)
    requires ctx.readme.Some?
    ensures ctx.readme.value == front + core + back
    ensures (forall c :: c in front ==> IsSpace(c)) && (forall c :: c in back ==> IsSpace(c))
    ensures core == "" || (!IsSpace(core[0]) && !IsSpace(core[|core| - 1]))
    ensures CutInto(PATTERNS, core, kept, matched)
    ensures ReadmeOf(ctx) == Woven(kept, Repeated("[redacted]", |matched|))
  {
    PatternsRegular();
    core := Strip(ctx.readme.value);
    front, back := TrimIs(ctx.readme.value, IsSpace);
    kept, matched := SubstituteReplaces(PATTERNS, core);
  }

  lemma NoReadmeIsEmpty(ctx: RawContext)
    requires ctx.readme.None?
    ensures ReadmeOf(ctx) == ""
  {
    assert Strip("") == "";
  }

  // ---------------------------------------------------------------- the file list

  /** The text is this lower-case one, in whatever ASCII case. */
  predicate InAnyCase(text: string, low: string) {
    && |text| == |low|
    && forall k :: 0 <= k < |text| ==>
         text[k] == low[k] || ('A' <= text[k] <= 'Z' && text[k] as int + 32 == low[k] as int)
  }

  ghost predicate NoCapitals(text: string) {
    forall k :: 0 <= k < |text| ==> !('A' <= text[k] <= 'Z')
  }

  ghost predicate IsPart(name: string) {
    exists part :: part in BLOCKED_PATH_PARTS && InAnyCase(name, part)
  }

  ghost predicate EndsInSuffix(name: string) {
    exists suffix :: suffix in BLOCKED_SUFFIXES && |suffix| <= |name| && InAnyCase(name[|name| - |suffix|..], suffix)
  }

  /** One of the blocked names, or one that ends in a blocked suffix. */
  ghost predicate HasBlockedName(entry: TreeEntry) {
    IsPart(entry.name) || EndsInSuffix(entry.name)
  }

  lemma PartHasNoCapitals(part: string)
    requires part in BLOCKED_PATH_PARTS
    ensures NoCapitals(part)
  {
  }

  lemma SuffixHasNoCapitals(suffix: string)
    requires suffix in BLOCKED_SUFFIXES
    ensures NoCapitals(suffix)
  {
  }

  lemma LowerIs(text: string, low: string)
    requires NoCapitals(low)
    ensures LowerAscii(text) == low <==> InAnyCase(text, low)
  {
    if LowerAscii(text) == low {
      assert forall k :: 0 <= k < |text| ==> low[k] == LowerAscii(text)[k];
    }
    if InAnyCase(text, low) {
      assert forall k :: 0 <= k < |text| ==> LowerAscii(text)[k] == low[k];
    }
  }

  lemma LowerEnds(text: string, low: string)
    requires NoCapitals(low)
    ensures EndsWith(LowerAscii(text), low) <==> |low| <= |text| && InAnyCase(text[|text| - |low|..], low)
  {
    if |low| <= |text| {
      var at := |text| - |low|;
      assert LowerAscii(text)[at..] == LowerAscii(text[at..]);
      LowerIs(text[at..], low);
    }
  }

  lemma PartIs(name: string, part: string)
    requires part in BLOCKED_PATH_PARTS
    ensures LowerAscii(name) == part <==> InAnyCase(name, part)
  {
    PartHasNoCapitals(part);
    LowerIs(name, part);
  }

  lemma SuffixIs(name: string, suffix: string)
    requires suffix in BLOCKED_SUFFIXES
    ensures EndsWith(LowerAscii(name), suffix) <==>
              |suffix| <= |name| && InAnyCase(name[|name| - |suffix|..], suffix)
  {
    SuffixHasNoCapitals(suffix);
    LowerEnds(name, suffix);
  }

  lemma PartIff(name: string)
    ensures LowerAscii(name) in BLOCKED_PATH_PARTS <==> IsPart(name)
  {
    if LowerAscii(name) in BLOCKED_PATH_PARTS {
      PartIs(name, LowerAscii(name));
    }
    if IsPart(name) {
      var part :| part in BLOCKED_PATH_PARTS && InAnyCase(name, part);
      PartIs(name, part);
    }
  }

  lemma SuffixIff(name: string)
    ensures (exists suffix :: suffix in BLOCKED_SUFFIXES && EndsWith(LowerAscii(name), suffix)) <==> EndsInSuffix(name)
  {
    forall suffix | suffix in BLOCKED_SUFFIXES
      ensures EndsWith(LowerAscii(name), suffix) <==>
                |suffix| <= |name| && InAnyCase(name[|name| - |suffix|..], suffix)
    {
      SuffixIs(name, suffix);
    }
  }

  lemma BlockedIff(entry: TreeEntry)
    ensures IsBlocked(entry) <==> HasBlockedName(entry)
  {
    PartIff(entry.name);
    SuffixIff(entry.name);
  }

  function LineOf(entry: TreeEntry): string {
    "- " + entry.name + " (" + entry.kind + ")"
  }

  /** These are the positions of the first n entries that are not blocked, in order. */
  ghost predicate ListsAt(entries: seq<TreeEntry>, n: nat, blocked: TreeEntry -> bool, at: seq<nat>)
    requires n <= |entries|
  {
    && (forall i, j :: 0 <= i < j < |at| ==> at[i] < at[j])
    && (forall i :: 0 <= i < |at| ==> at[i] < n && !blocked(entries[at[i]]))
    && (forall k :: 0 <= k < n && !blocked(entries[k]) ==> k in at)
  }

  lemma {:induction false} KeptAt(entries: seq<TreeEntry>, n: nat, blocked: TreeEntry -> bool) returns (at: seq<nat>)
    requires n <= |entries| && forall e {:trigger IsBlocked(e)} :: blocked(e) <==> IsBlocked(e)
    ensures ListsAt(entries, n, blocked, at)
    ensures |Kept(entries, n)| == |at| && forall i :: 0 <= i < |at| ==> Kept(entries, n)[i] == entries[at[i]]
  {
    if n == 0 {
      at := [];
    } else {
      at := KeptAt(entries, n - 1, blocked);
      if !IsBlocked(entries[n - 1]) {
        at := at + [n - 1];
      }
    }
  }

  lemma LinesSplit(ctx: RawContext, lines: seq<string>)
    requires lines == Lines(Kept(ctx.tree, |ctx.tree|)) && lines != [] && forall line :: line in lines ==> '\n' !in line
    ensures Split(TreeOf(ctx), '\n') == lines
  {
    SplitJoin(lines, '\n');
  }

  /** The file list holds one line for each entry whose name is not blocked, in the order of the entries. */
  lemma FileListIs(ctx: RawContext) returns (at: seq<nat>, lines: seq<string>)
    ensures ListsAt(ctx.tree, |ctx.tree|, HasBlockedName, at)
    ensures |lines| == |at| && forall i :: 0 <= i < |at| ==> lines[i] == LineOf(ctx.tree[at[i]])
    ensures lines == [] ==> TreeOf(ctx) == ""
    ensures lines != [] && (forall line :: line in lines ==> '\n' !in line) ==> Split(TreeOf(ctx), '\n') == lines
  {
    forall e ensures HasBlockedName(e) <==> IsBlocked(e) {
      BlockedIff(e);
    }
    at := KeptAt(ctx.tree, |ctx.tree|, HasBlockedName);
    lines := Lines(Kept(ctx.tree, |ctx.tree|));
    if lines != [] && forall line :: line in lines ==> '\n' !in line {
      LinesSplit(ctx, lines);
    }
  }

  // ---------------------------------------------------------------- the prompt

  /** The prompt around the three texts. */
  function Around(header: string, readme: string, tree: string): string {
    "<repository_content>\n" + header + "\nREADME:\n" + readme + "\n\nTop-level structure:\n" + tree
    + "\n</repository_content>"
  }

  /** How much of a text a cut keeps: so much less than it is too long, but not less than its floor. */
  function KeptLength(length: nat, overflow: int, slack: nat, floor: nat): nat
    requires overflow > 0
  {
    var left := length - overflow - slack;
    if left >= floor then left else if floor < length then floor else length
  }

  /** The text, or if the prompt is too long for the budget what a cut leaves of it, with the note. */
  function ShownText(text: string, overflow: int, slack: nat, floor: nat): string {
    if overflow > 0 && text != "" then text[..KeptLength(|text|, overflow, slack, floor)] + "\n...[truncated]" else text
  }

  lemma CutIsShownText(text: string, overflow: int, slack: nat, floor: nat)
    requires overflow > 0 && text != ""
    ensures CutText(text, overflow, slack, floor) == ShownText(text, overflow, slack, floor)
  {
    assert text[..|text|] == text;
  }

  lemma AroundIs(header: string, readme: string, tree: string)
    ensures PromptText(header, readme, tree) == Around(header, readme, tree)
  {
    var above, list := AboveReadme(header) + readme, TREE_HEADING;
    assert above + (list + tree + CLOSING) == above + list + tree + CLOSING;
  }

  lemma DraftHolds(header: string, readme: string, tree: string, maxChars: int)
    requires NoBraces(header)
    ensures var readme' := ShownText(readme, |Around(header, readme, tree)| - maxChars, 64, 256);
            var tree' := ShownText(tree, |Around(header, readme', tree)| - maxChars, 32, 128);
            var d := FinalDraft(Template(header), readme, tree, maxChars);
            d.Ok? && d.value.text == Around(header, readme', tree')
  {
    PlainHeaderFills(header, readme, tree);
    AroundIs(header, readme, tree);
    var overflow := |Around(header, readme, tree)| - maxChars;
    var readme' := ShownText(readme, overflow, 64, 256);
    if overflow > 0 && readme != "" {
      CutIsShownText(readme, overflow, 64, 256);
      PlainHeaderFills(header, readme', tree);
      AroundIs(header, readme', tree);
    }
    var overflow' := |Around(header, readme', tree)| - maxChars;
    if overflow' > 0 && tree != "" {
      var tree' := ShownText(tree, overflow', 32, 128);
      CutIsShownText(tree, overflow', 32, 128);
      PlainHeaderFills(header, readme', tree');
      AroundIs(header, readme', tree');
    }
  }

  /**
   The prompt holds the header, the README and the file list in their places. If it is too long, the README is
   cut by what is too much and 64 characters more, down to 256; if it still is, the list by 32 more, down to 128.
   */
  lemma PromptHolds(ctx: RawContext, maxContextTokens: int)
    requires NoBraces(Header(ctx))
    ensures PromptFor(ctx, maxContextTokens).Ok?
    ensures var header, readme, tree, maxChars := Header(ctx), ReadmeOf(ctx), TreeOf(ctx), maxContextTokens * 4;
            var readme' := ShownText(readme, |Around(header, readme, tree)| - maxChars, 64, 256);
            var tree' := ShownText(tree, |Around(header, readme', tree)| - maxChars, 32, 128);
            PromptFor(ctx, maxContextTokens).value.promptText == Around(header, readme', tree')
  {
    DraftHolds(Header(ctx), ReadmeOf(ctx), TreeOf(ctx), maxContextTokens * 4);
  }

  /** What else goes to the model with the text, and the key its answer is cached under. */
  lemma PromptNames(ctx: RawContext, maxContextTokens: int)
    requires PromptFor(ctx, maxContextTokens).Ok?
    ensures var prompt := PromptFor(ctx, maxContextTokens).value;
            && prompt.repositoryUrl == ctx.repositoryUrl && prompt.commitSha == ctx.commitSha
            && prompt.deterministicData == ctx.instant
            && prompt.cacheKey.text == ctx.target.owner + "/" + ctx.target.repo + "@" + ctx.commitSha
  {
  }
}
