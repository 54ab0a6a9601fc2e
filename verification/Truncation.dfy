/** From the prompt budget to the report: a text that was cut is named among the limitations. */
module Truncation {
  import opened Prelude
  import opened Schema
  import opened Stores
  import opened ContextSanitizer
  import opened PromptBounds
  import opened PipelineSteps
  import opened System
  import opened Provenance

  function ServiceDraft(ctx: RawContext): Result<Draft, PromptError> {
    FinalDraft(Template(Header(ctx)), ReadmeOf(ctx), TreeOf(ctx), TOKEN_BUDGET * CHARS_PER_TOKEN)
  }

  lemma PromptShowsDraft(ctx: RawContext, prompt: PromptPayload)
    requires ServicePrompt(ctx) == Ok(prompt)
    ensures ServiceDraft(ctx).Ok?
    ensures var d := ServiceDraft(ctx).value;
            && prompt.promptText == d.text && prompt.warnings == d.warnings
            && (README_CUT !in d.warnings ==> d.readme == ReadmeOf(ctx))
            && (TREE_CUT !in d.warnings ==> d.tree == TreeOf(ctx))
  {
    ShownAndReported(Template(Header(ctx)), ReadmeOf(ctx), TreeOf(ctx), TOKEN_BUDGET * CHARS_PER_TOKEN);
  }

  /**
   When the limitations of a reported analysis do not say that the README was cut, the model answered
   with the whole sanitized README before it; and likewise for the file list.
   */
  lemma UnmentionedMeansWhole(init: State, run: seq<Label>, job: JobId) returns (c: LlmCall)
    requires IsInit(init) && IsRun(init, run) && RunAsks(ServicePrompt, init, run)
    requires job in After(init, run).stores.reports && After(init, run).stores.reports[job].insights.Some?
    ensures SameCommit(c.ctx, After(init, run).stores.reports[job].markdown.ctx) && ServiceDraft(c.ctx).Ok?
    ensures var d := ServiceDraft(c.ctx).value;
            var limitations := After(init, run).stores.reports[job].insights.value.securityHealth.limitations;
            && c.prompt.promptText == d.text
            && (README_CUT.message !in limitations ==> d.readme == ReadmeOf(c.ctx))
            && (TREE_CUT.message !in limitations ==> d.tree == TreeOf(c.ctx))
  {
    c := WarningsReachTheReport(ServicePrompt, init, run, job);
    PromptShowsDraft(c.ctx, c.prompt);
  }
}
