/** The records the research service passes between its stages. */
module Schema {
  import opened Prelude
  import opened UrlValidator

  /** A job id: a random UUID, as text. */
  datatype JobId = JobId(text: string)

  /** The key an analysis is cached under, as text. */
  datatype AiKey = AiKey(text: string)

  /** The other metadata fields are carried along unread; details stands for all of them. */
  datatype InstantMetadata = InstantMetadata(stars: nat, forks: nat, primaryLang: Option<string>, details: string)

  datatype TreeEntry = TreeEntry(name: string, kind: string)

  datatype RawContext = RawContext(
    target: Target,
    repositoryUrl: string,
    defaultBranch: string,
    commitSha: string,
    instant: InstantMetadata,
    readme: Option<string>,
    tree: seq<TreeEntry>)

  datatype Warning = Warning(stage: string, message: string)

  datatype PromptPayload = PromptPayload(
    repositoryUrl: string,
    cacheKey: AiKey,
    commitSha: string,
    deterministicData: InstantMetadata,
    promptText: string,
    warnings: seq<Warning>)

  datatype Overview = Overview(purpose: string, techStack: seq<string>, architecture: string)

  datatype SecurityHealth = SecurityHealth(
    riskLevel: string, confidence: string, findings: seq<string>, limitations: seq<string>)

  datatype Insights = Insights(overview: Overview, securityHealth: SecurityHealth, recommendations: seq<string>)

  /** The key under which an analysis of this context is cached. */
  function CacheKey(ctx: RawContext): AiKey {
    AiKey(BuildAiCacheKey(ctx.target.owner, ctx.target.repo, ctx.commitSha))
  }

  /** Targets reach the service only through the URL parser. */
  predicate ValidTarget(target: Target) {
    ValidName(target.owner) && ValidName(target.repo)
  }

  lemma SameKeySameCommit(a: RawContext, b: RawContext)
    requires ValidTarget(a.target) && ValidTarget(b.target) && CacheKey(a) == CacheKey(b)
    ensures a.target.owner == b.target.owner && a.target.repo == b.target.repo && a.commitSha == b.commitSha
  {
    CacheKeyInjective(a.target.owner, a.target.repo, a.commitSha, b.target.owner, b.target.repo, b.commitSha);
  }

  /** The client fetches the target it was asked for. */
  function Asked(ctx: RawContext, target: Target): RawContext {
    ctx.(target := target)
  }
}
