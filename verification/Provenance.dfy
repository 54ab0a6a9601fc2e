/**
 Where an analysis comes from: whatever is cached under a key, and whatever a report carries, is an
 answer the model gave to a prompt for that key, with that prompt's warnings merged in.
 */
module Provenance {
  import opened Prelude
  import opened UrlValidator
  import opened Schema
  import opened Stores
  import opened PipelineSteps
  import opened SubmitSteps
  import opened System

  /** The call asked about the key's commit and its answer, with its warnings merged in, is the analysis. */
  predicate IsAnswerOf(c: LlmCall, key: AiKey, insights: Insights) {
    c.prompt.cacheKey == key && insights == MergeWarnings(c.answer, c.prompt.warnings)
  }

  predicate Sourced(calls: seq<LlmCall>, key: AiKey, insights: Insights) {
    exists i :: 0 <= i < |calls| && IsAnswerOf(calls[i], key, insights)
  }

  /** Every call was made with a prompt for the commit of a valid target. */
  predicate CallsSourced(calls: seq<LlmCall>) {
    forall c :: c in calls ==> c.prompt.cacheKey == CacheKey(c.ctx) && ValidTarget(c.ctx.target)
  }

  /** A report is the one made from its context and exactly one of an analysis and a reason for having none. */
  predicate WellMade(calls: seq<LlmCall>, r: Report) {
    && ValidTarget(r.markdown.ctx.target)
    && r == MakeReport(r.markdown.ctx, r.insights, r.fallbackReason)
    && (r.insights.Some? <==> r.fallbackReason.None?)
    && (r.insights.Some? ==> Sourced(calls, CacheKey(r.markdown.ctx), r.insights.value))
  }

  predicate StoresSourced(st: Stores) {
    && CallsSourced(st.calls)
    && (forall key :: key in st.insights ==> Sourced(st.calls, key, st.insights[key]))
    && (forall job :: job in st.reports ==> WellMade(st.calls, st.reports[job]))
  }

  /** What the local variables of a handling are known to hold. */
  predicate PcSourced(calls: seq<LlmCall>, pc: Pc) {
    match pc
    case Start(parsed) => parsed.Ok? ==> ValidTarget(parsed.value)
    case MarkSnapshot(target, _) => ValidTarget(target)
    case MarkRow(target) => ValidTarget(target)
    case Fetch(target) => ValidTarget(target)
    case SnapshotFetched(ctx) => ValidTarget(ctx.target)
    case RowFetched(ctx) => ValidTarget(ctx.target)
    case LookupCache(ctx) => ValidTarget(ctx.target)
    case SnapshotAnalyzing(ctx, prompt) => ValidTarget(ctx.target) && prompt.cacheKey == CacheKey(ctx)
    case Analyze(ctx, prompt) => ValidTarget(ctx.target) && prompt.cacheKey == CacheKey(ctx)
    case CacheAnswer(ctx, insights) => ValidTarget(ctx.target) && Sourced(calls, CacheKey(ctx), insights)
    case StoreReport(ctx, analysis, reason) =>
      && ValidTarget(ctx.target) && (analysis.Some? <==> reason.None?)
      && (analysis.Some? ==> Sourced(calls, CacheKey(ctx), analysis.value))
    case _ => true
  }

  predicate SubmitPcSourced(calls: seq<LlmCall>, pc: SubmitPc) {
    && (!Ended(pc) ==> ValidTarget(pc.ctx.target))
    && (pc.SaveCached? ==> Sourced(calls, CacheKey(pc.ctx), pc.insights))
  }

  ghost predicate AllSourced(s: State) {
    && StoresSourced(s.stores)
    && (forall w :: BusyAt(s, w) ==> PcSourced(s.stores.calls, s.workers[w].pc))
    && (forall job :: job in s.submissions ==> SubmitPcSourced(s.stores.calls, s.submissions[job]))
  }

  // ---------------------------------------------------------------- a call more

  lemma SourcedGrows(calls: seq<LlmCall>, c: LlmCall, key: AiKey, insights: Insights)
    requires Sourced(calls, key, insights)
    ensures Sourced(calls + [c], key, insights)
  {
    var i :| 0 <= i < |calls| && IsAnswerOf(calls[i], key, insights);
    assert (calls + [c])[i] == calls[i];
  }

  lemma NewestSourced(calls: seq<LlmCall>, c: LlmCall)
    ensures Sourced(calls + [c], c.prompt.cacheKey, MergeWarnings(c.answer, c.prompt.warnings))
  {
    assert (calls + [c])[|calls|] == c;
  }

  lemma PcSourcedGrows(calls: seq<LlmCall>, c: LlmCall, pc: Pc)
    requires PcSourced(calls, pc)
    ensures PcSourced(calls + [c], pc)
  {
    if pc.CacheAnswer? {
      SourcedGrows(calls, c, CacheKey(pc.ctx), pc.insights);
    }
    if pc.StoreReport? && pc.analysis.Some? {
      SourcedGrows(calls, c, CacheKey(pc.ctx), pc.analysis.value);
    }
  }

  lemma StoresSourcedGrows(st: Stores, c: LlmCall)
    requires StoresSourced(st) && c.prompt.cacheKey == CacheKey(c.ctx) && ValidTarget(c.ctx.target)
    ensures StoresSourced(st.(calls := st.calls + [c]))
  {
    forall key | key in st.insights ensures Sourced(st.calls + [c], key, st.insights[key]) {
      SourcedGrows(st.calls, c, key, st.insights[key]);
    }
    forall job | job in st.reports ensures WellMade(st.calls + [c], st.reports[job]) {
      var r := st.reports[job];
      if r.insights.Some? {
        SourcedGrows(st.calls, c, CacheKey(r.markdown.ctx), r.insights.value);
      }
    }
  }

  // ---------------------------------------------------------------- single steps

  lemma AnswerSourced(st: Stores, job: JobId, receives: nat, pc: Pc, ev: Event)
    requires pc.Analyze? && ev.Answered? && StoresSourced(st) && PcSourced(st.calls, pc)
    ensures var (st', pc') := Advance(st, job, receives, pc, ev);
            StoresSourced(st') && PcSourced(st'.calls, pc')
  {
    var c := LlmCall(pc.ctx, pc.prompt, ev.insights);
    StoresSourcedGrows(st, c);
    NewestSourced(st.calls, c);
  }

  /** Reports and analyses are written at two points of a handling only. */
  lemma OtherKeepsResults(st: Stores, job: JobId, receives: nat, pc: Pc, ev: Event)
    requires Fits(pc, ev) && !ev.Answered? && !pc.StoreReport? && !pc.CacheAnswer?
    ensures var st' := Advance(st, job, receives, pc, ev).0;
            st'.reports == st.reports && st'.insights == st.insights && st'.calls == st.calls
  {
  }

  lemma WriteSourced(st: Stores, job: JobId, receives: nat, pc: Pc, ev: Event)
    requires Fits(pc, ev) && (pc.StoreReport? || pc.CacheAnswer?) && StoresSourced(st) && PcSourced(st.calls, pc)
    ensures var st' := Advance(st, job, receives, pc, ev).0;
            StoresSourced(st') && st'.calls == st.calls
  {
  }

  lemma OtherStoresSourced(st: Stores, job: JobId, receives: nat, pc: Pc, ev: Event)
    requires Fits(pc, ev) && !ev.Answered? && StoresSourced(st) && PcSourced(st.calls, pc)
    ensures var st' := Advance(st, job, receives, pc, ev).0;
            StoresSourced(st') && st'.calls == st.calls
  {
    if pc.StoreReport? || pc.CacheAnswer? {
      WriteSourced(st, job, receives, pc, ev);
    } else {
      OtherKeepsResults(st, job, receives, pc, ev);
    }
  }

  lemma OtherPcSourced(st: Stores, job: JobId, receives: nat, pc: Pc, ev: Event)
    requires Fits(pc, ev) && !ev.Answered? && StoresSourced(st) && PcSourced(st.calls, pc)
    ensures PcSourced(st.calls, Advance(st, job, receives, pc, ev).1)
  {
  }

  lemma SubmitSourced(st: Stores, job: JobId, pc: SubmitPc, sev: SubmitEvent)
    requires SubmitFits(pc, sev) && StoresSourced(st) && SubmitPcSourced(st.calls, pc)
    ensures var (st', pc') := SubmitAdvance(st, job, pc, sev);
            StoresSourced(st') && SubmitPcSourced(st'.calls, pc') && st'.calls == st.calls
  {
  }

  lemma WorkSourced(s: State, w: nat, ev: Event)
    requires AllSourced(s) && Possible(s, Work(w, ev))
    ensures AllSourced(WorkStep(s, w, ev))
  {
    var worker, s' := s.workers[w], WorkStep(s, w, ev);
    if ev.Answered? {
      var c := LlmCall(worker.pc.ctx, worker.pc.prompt, ev.insights);
      AnswerSourced(s.stores, worker.job, worker.receives, worker.pc, ev);
      assert s'.stores.calls == s.stores.calls + [c];
      forall v | BusyAt(s', v) ensures PcSourced(s'.stores.calls, s'.workers[v].pc) {
        if v != w {
          PcSourcedGrows(s.stores.calls, c, s.workers[v].pc);
        }
      }
      forall job | job in s.submissions ensures SubmitPcSourced(s'.stores.calls, s.submissions[job]) {
        if s.submissions[job].SaveCached? {
          SourcedGrows(s.stores.calls, c, CacheKey(s.submissions[job].ctx), s.submissions[job].insights);
        }
      }
    } else {
      OtherStoresSourced(s.stores, worker.job, worker.receives, worker.pc, ev);
      OtherPcSourced(s.stores, worker.job, worker.receives, worker.pc, ev);
    }
  }

  lemma AsideSourced(s: State, l: Label)
    requires AllSourced(s) && Possible(s, l) && !l.Submit? && !l.Work?
    ensures AllSourced(Next(s, l))
  {
    assert Next(s, l).stores.calls == s.stores.calls;
  }

  lemma NextSourced(s: State, l: Label)
    requires AllSourced(s) && Possible(s, l)
    ensures AllSourced(Next(s, l))
  {
    match l
    case Submit(job, sev) => SubmitSourced(s.stores, job, s.submissions[job], sev);
    case Work(w, ev) => WorkSourced(s, w, ev);
    case _ => AsideSourced(s, l);
  }

  // ---------------------------------------------------------------- whole runs

  lemma {:induction false} RunSourced(s: State, run: seq<Label>)
    requires AllSourced(s) && IsRun(s, run)
    ensures AllSourced(After(s, run))
    decreases |run|
  {
    if run != [] {
      NextSourced(s, run[0]);
      RunSourced(Next(s, run[0]), run[1..]);
    }
  }

  lemma ReachableSourced(s: State)
    requires Reachable(s)
    ensures AllSourced(s)
  {
    var init, run :| IsInit(init) && IsRun(init, run) && After(init, run) == s;
    RunSourced(init, run);
  }

  /** A cached analysis is an answer to a prompt for the commit its key names, warnings merged in. */
  lemma CachedAnalysisIsAnAnswer(s: State, key: AiKey)
    requires Reachable(s) && key in s.stores.insights
    ensures exists c :: c in s.stores.calls && CacheKey(c.ctx) == key && IsAnswerOf(c, key, s.stores.insights[key])
  {
    ReachableSourced(s);
    var i :| 0 <= i < |s.stores.calls| && IsAnswerOf(s.stores.calls[i], key, s.stores.insights[key]);
    assert s.stores.calls[i] in s.stores.calls;
  }

  predicate SameCommit(a: RawContext, b: RawContext) {
    a.target.owner == b.target.owner && a.target.repo == b.target.repo && a.commitSha == b.commitSha
  }

  /**
   An analysis in a report, fresh or from the cache, is an answer to a prompt for the very owner,
   repository and commit the report was built from, with that prompt's warnings merged in.
   */
  lemma ReportedAnalysisIsAnAnswer(s: State, job: JobId) returns (c: LlmCall)
    requires Reachable(s) && job in s.stores.reports && s.stores.reports[job].insights.Some?
    ensures c in s.stores.calls && SameCommit(c.ctx, s.stores.reports[job].markdown.ctx)
    ensures s.stores.reports[job].insights.value == MergeWarnings(c.answer, c.prompt.warnings)
  {
    ReachableSourced(s);
    var r := s.stores.reports[job];
    var key := CacheKey(r.markdown.ctx);
    var i :| 0 <= i < |s.stores.calls| && IsAnswerOf(s.stores.calls[i], key, r.insights.value);
    c := s.stores.calls[i];
    SameKeySameCommit(c.ctx, r.markdown.ctx);
  }

  /** A stored report holds exactly one of an analysis and a reason why there is none. */
  lemma ReportHasOneOfTwo(s: State, job: JobId)
    requires Reachable(s) && job in s.stores.reports
    ensures var r := s.stores.reports[job];
            && (r.insights.Some? <==> r.fallbackReason.None?)
            && (r.fallback <==> r.fallbackReason.Some? && r.fallbackReason.value != "")
            && r.markdown == Rendered(r.markdown.ctx, r.insights, r.fallbackReason)
  {
    ReachableSourced(s);
  }

  /** A stored report names the repository, the commit and the metadata of the context it was built from. */
  lemma ReportTellsItsContext(s: State, job: JobId)
    requires Reachable(s) && job in s.stores.reports
    ensures var r := s.stores.reports[job];
            && r.repositoryUrl == r.markdown.ctx.repositoryUrl
            && r.commitSha == Some(r.markdown.ctx.commitSha)
            && r.deterministicData == r.markdown.ctx.instant
            && r.markdown.insights == r.insights && r.markdown.reason == r.fallbackReason
  {
    ReachableSourced(s);
  }

  /**
   The fallback column is meant to say that there is no analysis. It does unless the model declined
   with an empty reason, which counts as no fallback.
   */
  lemma FallbackFlagIff(s: State, job: JobId)
    requires Reachable(s) && job in s.stores.reports
    ensures var r := s.stores.reports[job];
            (r.fallback <==> r.insights.None?) <==> r.fallbackReason != Some("")
  {
    ReportHasOneOfTwo(s, job);
  }

  // ---------------------------------------------------------------- warnings reach the report

  /** If the step asks for a prompt, the builder answers. */
  predicate Asks(builder: Builder, s: State, l: Label) {
    l.Work? && BusyAt(s, l.worker) && s.workers[l.worker].pc.LookupCache? && l.ev.Prompted? ==>
      l.ev.prompt == builder(s.workers[l.worker].pc.ctx)
  }

  predicate RunAsks(builder: Builder, s: State, run: seq<Label>)
    requires IsRun(s, run)
    decreases |run|
  {
    run == [] || (Asks(builder, s, run[0]) && RunAsks(builder, Next(s, run[0]), run[1..]))
  }

  ghost predicate AllBuilt(builder: Builder, s: State) {
    && (forall c :: c in s.stores.calls ==> builder(c.ctx) == Ok(c.prompt))
    && (forall w :: BusyAt(s, w) && (s.workers[w].pc.SnapshotAnalyzing? || s.workers[w].pc.Analyze?) ==>
                      builder(s.workers[w].pc.ctx) == Ok(s.workers[w].pc.prompt))
  }

  lemma SubmitKeepsCalls(st: Stores, job: JobId, pc: SubmitPc, sev: SubmitEvent)
    requires SubmitFits(pc, sev)
    ensures SubmitAdvance(st, job, pc, sev).0.calls == st.calls
  {
  }

  lemma WorkBuilt(builder: Builder, s: State, w: nat, ev: Event)
    requires AllBuilt(builder, s) && Possible(s, Work(w, ev)) && Asks(builder, s, Work(w, ev))
    ensures AllBuilt(builder, WorkStep(s, w, ev))
  {
  }

  lemma NextBuilt(builder: Builder, s: State, l: Label)
    requires AllBuilt(builder, s) && Possible(s, l) && Asks(builder, s, l)
    ensures AllBuilt(builder, Next(s, l))
  {
    match l
    case Submit(job, sev) => SubmitKeepsCalls(s.stores, job, s.submissions[job], sev);
    case Work(w, ev) => WorkBuilt(builder, s, w, ev);
    case _ =>
  }

  lemma {:induction false} RunBuilt(builder: Builder, s: State, run: seq<Label>)
    requires AllBuilt(builder, s) && IsRun(s, run) && RunAsks(builder, s, run)
    ensures AllBuilt(builder, After(s, run))
    decreases |run|
  {
    if run != [] {
      NextBuilt(builder, s, run[0]);
      RunBuilt(builder, Next(s, run[0]), run[1..]);
    }
  }

  /**
   With prompts made by the builder, a report's analysis names every warning of the prompt it answers,
   whether the report was made with the fresh answer or with the cached one.
   */
  lemma WarningsReachTheReport(builder: Builder, init: State, run: seq<Label>, job: JobId) returns (c: LlmCall)
    requires IsInit(init) && IsRun(init, run) && RunAsks(builder, init, run)
    requires job in After(init, run).stores.reports && After(init, run).stores.reports[job].insights.Some?
    ensures var r := After(init, run).stores.reports[job];
            && SameCommit(c.ctx, r.markdown.ctx) && builder(c.ctx) == Ok(c.prompt)
            && (forall w :: w in c.prompt.warnings ==> w.message in r.insights.value.securityHealth.limitations)
            && c.answer.securityHealth.limitations <= r.insights.value.securityHealth.limitations
  {
    RunBuilt(builder, init, run);
    c := ReportedAnalysisIsAnAnswer(After(init, run), job);
    MergeContains(c.answer.securityHealth.limitations, c.prompt.warnings);
  }
}
