/**
 Inputs and runs on which a promise of the design is broken, for those exact conditions of the other modules
 whose failing inputs are not given beside them.
 */
module Witnesses {
  import opened Prelude
  import opened Text
  import opened UrlValidator
  import opened Schema
  import opened Stores
  import opened UnsafeInstructions
  import opened ContextSanitizer
  import opened PromptBounds
  import opened PipelineSteps
  import opened SubmitSteps
  import opened System
  import opened Delivery
  import opened Submission
  import opened Worker
  import opened Poll
  import opened Expiry
  import Q = MessageQueue

  /** An everyday repository, whose branch and file list are left open. */
  function Sample(branch: string, tree: seq<TreeEntry>): RawContext {
    RawContext(Target("octocat", "hello", CanonicalUrl("octocat", "hello")), CanonicalUrl("octocat", "hello"), branch,
               "7fd1a60b", InstantMetadata(0, 0, None, ""), None, tree)
  }

  lemma PlainLine(before: string, name: string, value: string)
    requires NoBraces(before) && NoBraces(name) && NoBraces(value)
    ensures NoBraces(before + name + value + "\n")
    ensures |before + name + value + "\n"| > |before| + |value|
  {
  }

  lemma PlainLabels()
    ensures NoBraces("Repository URL: ") && NoBraces("Default branch: ") && NoBraces("Commit SHA: ")
  {
  }

  lemma PlainCounts()
    ensures NoBraces("Stars: ") && NoBraces("Forks: ") && NoBraces("Primary language: ")
  {
  }

  lemma PlainNumber(n: int)
    ensures NoBraces(Decimal(n))
  {
    DecimalDigits(n);
    var digits := Decimal(n);
    assert forall i :: 0 <= i < |digits| ==> digits[i] in digits;
  }

  /** A header is without braces if the four texts in it are, and longer than the branch name in it. */
  lemma PlainHeader(ctx: RawContext)
    requires NoBraces(ctx.repositoryUrl) && NoBraces(ctx.defaultBranch) && NoBraces(ctx.commitSha)
    requires NoBraces(PrimaryLanguage(ctx.instant.primaryLang))
    ensures NoBraces(Header(ctx)) && |Header(ctx)| > |ctx.defaultBranch|
  {
    PlainLabels();
    PlainCounts();
    PlainNumber(ctx.instant.stars);
    PlainNumber(ctx.instant.forks);
    var url := "Repository URL: " + ctx.repositoryUrl + "\n";
    PlainLine("", "Repository URL: ", ctx.repositoryUrl);
    assert "" + "Repository URL: " == "Repository URL: ";
    PlainLine(url, "Default branch: ", ctx.defaultBranch);
    var branch := url + "Default branch: " + ctx.defaultBranch + "\n";
    PlainLine(branch, "Commit SHA: ", ctx.commitSha);
    var sha := branch + "Commit SHA: " + ctx.commitSha + "\n";
    PlainLine(sha, "Stars: ", Decimal(ctx.instant.stars));
    var stars := sha + "Stars: " + Decimal(ctx.instant.stars) + "\n";
    PlainLine(stars, "Forks: ", Decimal(ctx.instant.forks));
    var forks := stars + "Forks: " + Decimal(ctx.instant.forks) + "\n";
    PlainLine(forks, "Primary language: ", PrimaryLanguage(ctx.instant.primaryLang));
  }

  lemma PlainNames()
    ensures NoBraces(CanonicalUrl("octocat", "hello")) && NoBraces("7fd1a60b") && NoBraces("Unknown")
    ensures Strip("") == ""
  {
  }

  lemma SampleIsPlain(branch: string, tree: seq<TreeEntry>)
    requires NoBraces(branch)
    ensures NoBraces(Header(Sample(branch, tree))) && ReadmeOf(Sample(branch, tree)) == ""
    ensures FrameLength(Header(Sample(branch, tree))) > |branch|
  {
    PlainNames();
    PlainHeader(Sample(branch, tree));
  }

  lemma SampleIsParsed(branch: string, tree: seq<TreeEntry>)
    ensures IsParsed(Sample(branch, tree).target) && !EndsWith("hello", ".git")
  {
  }

  // ---------------------------------------------------------------- the prompt

  /** Whatever the budget, some repository's prompt exceeds it: one with a long enough branch name. */
  lemma PromptExceedsBudget(maxContextTokens: int) returns (ctx: RawContext)
    ensures IsParsed(ctx.target) && PromptFor(ctx, maxContextTokens).Ok?
    ensures |PromptFor(ctx, maxContextTokens).value.promptText| > maxContextTokens * CHARS_PER_TOKEN
  {
    var branch := seq(Max(0, maxContextTokens * CHARS_PER_TOKEN), _ => 'x');
    ctx := Sample(branch, []);
    SampleIsPlain(branch, []);
    SampleIsParsed(branch, []);
    PromptFitsIff(ctx, maxContextTokens);
  }

  /** A README no longer than its floor is not shortened when the prompt is too long, but lengthened by the note. */
  lemma CutLengthensShortReadme(ctx: RawContext, maxContextTokens: int)
    requires NoBraces(Header(ctx)) && 0 < |ReadmeOf(ctx)| <= README_FLOOR && TreeOf(ctx) == ""
    requires FrameLength(Header(ctx)) + |ReadmeOf(ctx)| > maxContextTokens * CHARS_PER_TOKEN
    ensures PromptFor(ctx, maxContextTokens).Ok?
    ensures |PromptFor(ctx, maxContextTokens).value.promptText|
         == FrameLength(Header(ctx)) + |ReadmeOf(ctx)| + |TRUNCATED|
  {
    TruncatedText();
    DraftIsPrompt(Header(ctx), ReadmeOf(ctx), TreeOf(ctx), maxContextTokens * CHARS_PER_TOKEN);
  }

  /** What the file list says within its floor reaches the model, whatever the budget. */
  lemma UnsafeFileNameStays(ctx: RawContext, maxContextTokens: int, a: nat, b: nat)
    requires NoBraces(Header(ctx))
    requires a <= b <= |TreeOf(ctx)| && b <= TREE_FLOOR && IsMatch(PATTERNS, TreeOf(ctx)[a..b])
    ensures PromptFor(ctx, maxContextTokens).Ok?
    ensures !Clean(PATTERNS, PromptFor(ctx, maxContextTokens).value.promptText)
  {
    var template, maxChars := Template(Header(ctx)), maxContextTokens * CHARS_PER_TOKEN;
    PromptCleanIff(ctx, maxContextTokens);
    ShownAndReported(template, ReadmeOf(ctx), TreeOf(ctx), maxChars);
    var d := FinalDraft(template, ReadmeOf(ctx), TreeOf(ctx), maxChars).value;
    ShownFront(d.tree, TreeOf(ctx), TREE_FLOOR, TREE_CUT in d.warnings, a, b);
    ListedBelow(d.tree, a, b);
  }

  lemma ListedBelow(tree: string, a: nat, b: nat)
    requires a <= b <= |tree| && IsMatch(PATTERNS, tree[a..b])
    ensures !Clean(PATTERNS, BelowReadme(tree))
  {
    var below, x, y := BelowReadme(tree), |TREE_HEADING| + a, |TREE_HEADING| + b;
    assert below[x..y] == tree[a..b];
  }

  lemma ShownFront(shown: string, text: string, floor: nat, cut: bool, a: nat, b: nat)
    requires ShownFrom(shown, text, floor, cut) && a <= b <= |text| && b <= floor
    ensures b <= |shown| && shown[a..b] == text[a..b]
  {
    if cut {
      var n: nat :| Min(|text|, floor) <= n <= |text| && shown == text[..n] + TRUNCATED;
      assert shown[a..b] == text[..n][a..b];
    }
  }

  lemma {:induction false} WordMatches(w: string, p: string, rest: string)
    requires IsWord(w) && Matches(p, rest)
    ensures Matches(w + p, w + rest)
    decreases |w|
  {
    assert (w + p)[1..] == w[1..] + p && (w + rest)[1..] == w[1..] + rest;
    if |w| > 1 {
      WordMatches(w[1..], p, rest);
    } else {
      assert w[1..] + p == p && w[1..] + rest == rest;
    }
  }

  lemma SystemPromptMatches()
    ensures IsMatch(PATTERNS, "system prompt")
  {
    WordMatches("prompt", "", "");
    assert "prompt" + "" == "prompt";
    assert (" " + "prompt")[1..] == "prompt";
    assert Matches(" " + "prompt", " " + "prompt");
    WordMatches("system", " " + "prompt", " " + "prompt");
    assert "system" + (" " + "prompt") == PATTERNS[1];
    assert "system" + (" " + "prompt") == "system prompt";
  }

  lemma OneEntryListed(ctx: RawContext, entry: TreeEntry)
    requires ctx.tree == [entry] && !IsBlocked(entry)
    ensures TreeOf(ctx) == EntryLine(entry) && EntryLine(entry)[2..2 + |entry.name|] == entry.name
  {
    assert Kept([entry], 1) == [entry];
    assert Lines([entry]) == [EntryLine(entry)];
  }

  /** A file whose name is an unsafe instruction brings it into the prompt; no budget keeps it out. */
  lemma PromptKeepsUnsafeName(entry: TreeEntry, maxContextTokens: int)
    requires !IsBlocked(entry) && IsMatch(PATTERNS, entry.name) && 2 + |entry.name| <= TREE_FLOOR
    ensures var prompt := PromptFor(Sample("main", [entry]), maxContextTokens);
            prompt.Ok? && !Clean(PATTERNS, prompt.value.promptText)
  {
    var ctx := Sample("main", [entry]);
    SampleIsPlain("main", [entry]);
    OneEntryListed(ctx, entry);
    UnsafeFileNameStays(ctx, maxContextTokens, 2, 2 + |entry.name|);
  }

  lemma SuffixHasDot(suffix: string)
    requires suffix in BLOCKED_SUFFIXES
    ensures suffix != "" && suffix[0] == '.'
  {
  }

  lemma PartIsShort(part: string)
    requires part in BLOCKED_PATH_PARTS
    ensures |part| < 13
  {
  }

  lemma NameIsKept(entry: TreeEntry)
    requires |entry.name| == 13 && '.' !in entry.name
    ensures !IsBlocked(entry)
  {
    var name := LowerAscii(entry.name);
    if name in BLOCKED_PATH_PARTS {
      PartIsShort(name);
      assert false;
    }
    forall suffix | suffix in BLOCKED_SUFFIXES ensures !EndsWith(name, suffix) {
      SuffixHasDot(suffix);
      if |suffix| <= |name| {
        var at := |name| - |suffix|;
        assert entry.name[at] in entry.name;
        assert name[at..][0] != '.';
      }
    }
  }

  /** "system prompt" is such a name. */
  lemma SystemPromptIsUnsafe()
    ensures var entry := TreeEntry("system prompt", "file"); !IsBlocked(entry) && IsMatch(PATTERNS, entry.name)
  {
    SystemPromptMatches();
    NameIsKept(TreeEntry("system prompt", "file"));
  }

  // ---------------------------------------------------------------- whole runs

  /** A request whose analysis is not cached, and whose message the queue takes. */
  lemma QueuedRun(s: State, job: JobId, ctx: RawContext) returns (run: seq<Label>, s': State)
    requires job !in s.submissions && IsParsed(ctx.target) && CacheKey(ctx) !in s.stores.insights
    ensures IsRun(s, run) && After(s, run) == s'
    ensures s'.workers == s.workers && s'.submissions == s.submissions[job := Accepted]
    ensures s'.messages == s.messages[job := Envelope(ctx.target.canonicalUrl, 0, Visible)]
    ensures s'.stores.reports == s.stores.reports && s'.stores.insights == s.stores.insights
    ensures job in s'.stores.jobs
  {
    QueuedSubmission(s.stores, job, ctx, Sent);
    run := RequestRun(s, job, ctx, Sent);
    s' := After(s, run);
  }

  /** A first delivery that comes to an analysis, or to the reason there is none. */
  lemma HandledRun(s: State, job: JobId, ctx: RawContext, world: World, builder: Builder)
    returns (run: seq<Label>, s': State)
    requires s.workers == map[0 := Idle] && job in s.messages
    requires s.messages[job] == Envelope(ctx.target.canonicalUrl, 0, Visible)
    requires IsParsed(ctx.target) && !EndsWith(ctx.target.repo, ".git")
    requires KeepsKey(builder) && world.github == Ok(ctx) && Analysed(s.stores.insights, ctx, world, builder).Ok?
    ensures IsRun(s, run) && After(s, run) == s'
    ensures s'.workers == s.workers && s'.submissions == s.submissions && s'.messages.Keys == s.messages.Keys
    ensures var (analysis, reason) := Analysed(s.stores.insights, ctx, world, builder).value;
            GoneThrough(s.stores, s'.stores, job, ctx, analysis, reason)
  {
    var url := ctx.target.canonicalUrl;
    ParseOfCanonical(ctx.target.owner, ctx.target.repo);
    var start := Start(ParseRepositoryUrl(url));
    assert start == Start(Ok(ctx.target));
    run := DeliveryRun(s, Q.Received(job, url, 1), start, world, builder);
    s' := After(s, run);
    assert Asked(ctx, ctx.target) == ctx;
    DeliveryGoesThrough(s.stores, job, 1, ctx.target, world, builder);
  }

  /** A request that is queued and a delivery that comes to an analysis, one after the other. */
  lemma ServedRun(s: State, job: JobId, ctx: RawContext, world: World, builder: Builder)
    returns (run: seq<Label>, s': State)
    requires s.workers == map[0 := Idle] && job !in s.submissions
    requires IsParsed(ctx.target) && !EndsWith(ctx.target.repo, ".git") && CacheKey(ctx) !in s.stores.insights
    requires KeepsKey(builder) && world.github == Ok(ctx) && Analysed(s.stores.insights, ctx, world, builder).Ok?
    ensures IsRun(s, run) && After(s, run) == s'
    ensures s'.workers == s.workers && s'.submissions == s.submissions[job := Accepted]
    ensures s'.messages.Keys == s.messages.Keys + {job}
    ensures var (analysis, reason) := Analysed(s.stores.insights, ctx, world, builder).value;
            && s'.stores.reports == s.stores.reports[job := MakeReport(ctx, analysis, reason)]
            && s'.stores.insights == (if analysis.Some? then s.stores.insights[CacheKey(ctx) := analysis.value]
                                      else s.stores.insights)
            && job in s'.stores.jobs && s'.stores.jobs[job].status.Completed?
            && job in s'.stores.snapshots && s'.stores.snapshots[job] == DoneSnapshot(ctx, reason)
  {
    var request, s1 := QueuedRun(s, job, ctx);
    var delivery, s2 := HandledRun(s1, job, ctx, world, builder);
    RunsJoin(s, request, delivery);
    run, s' := request + delivery, s2;
  }

  /**
   Whatever the repository, a model that declines without a reason leaves a completed report without an
   analysis that does not say so.
   */
  lemma EmptyReasonLosesFlag(job: JobId, ctx: RawContext, builder: Builder) returns (init: State, run: seq<Label>)
    requires IsParsed(ctx.target) && !EndsWith(ctx.target.repo, ".git") && KeepsKey(builder) && builder(ctx).Ok?
    ensures IsInit(init) && IsRun(init, run)
    ensures var st := After(init, run).stores;
            && job in st.reports && st.reports[job].insights.None? && !st.reports[job].fallback
            && job in st.jobs && st.jobs[job].status.Completed?
            && job in st.snapshots && st.snapshots[job] == DoneSnapshot(ctx, Some(""))
  {
    init := State(Stores(map[], map[], map[], map[], []), map[], map[0 := Idle], map[]);
    var end;
    run, end := ServedRun(init, job, ctx, World(Ok(ctx), Declines("")), builder);
  }

  /** A job without a message is never handed over, so no two of its deliveries overlap. */
  lemma {:induction false} NeverQueued(s: State, run: seq<Label>, job: JobId)
    requires IsRun(s, run) && job !in After(s, run).messages
    ensures job !in s.messages && RunApart(s, run, job)
    decreases |run|
  {
    if run != [] {
      NeverQueued(Next(s, run[0]), run[1..], job);
      MessagesStay(s, run[0]);
    }
  }

  lemma MessagesStay(s: State, l: Label)
    requires Possible(s, l)
    ensures s.messages.Keys <= Next(s, l).messages.Keys
  {
  }

  /**
   Whatever the repository, a second request for it after the first was served is answered from the
   cache; and when its snapshot expires, the poll answer changes: the fallback flag was unset and is false.
   */
  lemma CachedAnswerChanges(first: JobId, second: JobId, ctx: RawContext, answer: Insights, builder: Builder)
    returns (init: State, run: seq<Label>)
    requires first != second
    requires IsParsed(ctx.target) && !EndsWith(ctx.target.repo, ".git") && KeepsKey(builder) && builder(ctx).Ok?
    ensures IsInit(init) && IsRun(init, run) && RunApart(init, run, second)
    ensures var st := After(init, run).stores;
            var live := PollAnswer(st, st, second);
            var rebuilt := PollAnswer(Expired(st, second), Expired(st, second), second);
            && live.Found? && live.status.Completed? && live.fallback == None
            && rebuilt.Found? && rebuilt.fallback == Some(false)
  {
    init := State(Stores(map[], map[], map[], map[], []), map[], map[0 := Idle], map[]);
    var served, s1 := ServedRun(init, first, ctx, World(Ok(ctx), Answers(answer)), builder);
    CachedSubmission(s1.stores, second, ctx, Sent);
    var request := RequestRun(s1, second, ctx, Sent);
    RunsJoin(init, served, request);
    run := served + request;
    NeverQueued(init, run, second);
  }

  /** The service's own prompt builder and the everyday repository are such a builder and such a repository. */
  lemma SampleIsServed()
    ensures var ctx := Sample("main", []);
            IsParsed(ctx.target) && !EndsWith(ctx.target.repo, ".git") && ServicePrompt(ctx).Ok?
  {
    SampleIsPlain("main", []);
    SampleIsParsed("main", []);
    PromptBound(Sample("main", []), TOKEN_BUDGET);
  }
}
