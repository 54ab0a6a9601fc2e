/**
 Building the prompt: filtering the file list, sanitizing the README, filling the template and
 cutting README and file list when the prompt is longer than the budget.
 */
module ContextSanitizer {
  import opened Prelude
  import opened Text
  import opened Schema
  import opened UnsafeInstructions

  const CHARS_PER_TOKEN := 4
  const README_SLACK := 64
  const README_FLOOR := 256
  const TREE_SLACK := 32
  const TREE_FLOOR := 128

  const BLOCKED_PATH_PARTS: set<string> := {".git", "node_modules", "__pycache__", ".venv", "venv"}
  const BLOCKED_SUFFIXES: set<string> := {
    ".png", ".jpg", ".jpeg", ".gif", ".webp", ".svg", ".ico", ".pdf",
    ".zip", ".tar", ".gz", ".exe", ".bin", ".woff", ".woff2", ".ttf"}

  const STAGE := "context_sanitizer"
  const README_CUT := Warning(STAGE, "README content was truncated to stay within the AI context budget.")
  const TREE_CUT := Warning(STAGE, "Repository structure was truncated to stay within the AI context budget.")

  // ---------------------------------------------------------------- str.format

  datatype Formatted = Text(text: string) | BadField

  function Prepend(head: string, tail: Formatted): Formatted {
    match tail
    case BadField => BadField
    case Text(text) => Text(head + text)
  }

  predicate StartsWith(s: string, prefix: string) {
    |s| >= |prefix| && s[..|prefix|] == prefix
  }

  const README_FIELD := "{readme}"
  const TREE_FIELD := "{tree}"

  /**
   str.format with the two fields of the template. A doubled brace prints one brace; a brace that
   starts any other field, or closes none, raises. Conversions and format specifications of the two
   fields are not followed here and count as other fields.
   */
  function Format(t: string, readme: string, tree: string): Formatted
    decreases |t|
  {
    if t == "" then Text("")
    else if t[0] == '{' then
      if |t| > 1 && t[1] == '{' then Prepend("{", Format(t[2..], readme, tree))
      else if StartsWith(t, README_FIELD) then Prepend(readme, Format(t[8..], readme, tree))
      else if StartsWith(t, TREE_FIELD) then Prepend(tree, Format(t[6..], readme, tree))
      else BadField
    else if t[0] == '}' then
      if |t| > 1 && t[1] == '}' then Prepend("}", Format(t[2..], readme, tree)) else BadField
    else Prepend([t[0]], Format(t[1..], readme, tree))
  }

  function Braces(s: string): nat {
    if s == "" then 0 else (if s[0] == '{' || s[0] == '}' then 1 else 0) + Braces(s[1..])
  }

  ghost predicate NoBraces(s: string) {
    forall i :: 0 <= i < |s| ==> s[i] != '{' && s[i] != '}'
  }

  // ---------------------------------------------------------------- the template

  const OPENING := "<repository_content>\n"
  const README_HEADING := "\nREADME:\n"
  const TREE_HEADING := "\n\nTop-level structure:\n"
  const CLOSING := "\n</repository_content>"

  function PrimaryLanguage(lang: Option<string>): string {
    if lang.None? || lang.value == "" then "Unknown" else lang.value
  }

  function Header(ctx: RawContext): string {
    "Repository URL: " + ctx.repositoryUrl + "\n"
    + "Default branch: " + ctx.defaultBranch + "\n"
    + "Commit SHA: " + ctx.commitSha + "\n"
    + "Stars: " + Decimal(ctx.instant.stars) + "\n"
    + "Forks: " + Decimal(ctx.instant.forks) + "\n"
    + "Primary language: " + PrimaryLanguage(ctx.instant.primaryLang) + "\n"
  }

  function TemplateTail(): string {
    README_HEADING + (README_FIELD + (TREE_HEADING + (TREE_FIELD + CLOSING)))
  }

  function Template(header: string): string {
    OPENING + (header + TemplateTail())
  }

  function AboveReadme(header: string): string {
    OPENING + header + README_HEADING
  }

  function BelowReadme(tree: string): string {
    TREE_HEADING + tree + CLOSING
  }

  /** The prompt as the template reads: header, README and file list in their places. */
  function PromptText(header: string, readme: string, tree: string): string {
    AboveReadme(header) + readme + BelowReadme(tree)
  }

  // ---------------------------------------------------------------- cutting

  function Take(s: string, n: nat): string {
    if n <= |s| then s[..n] else s
  }

  function Max(a: int, b: int): int {
    if a >= b then a else b
  }

  function Min(a: int, b: int): int {
    if a <= b then a else b
  }

  function CutText(s: string, overflow: int, slack: int, floor: nat): string {
    Take(s, Max(|s| - overflow - slack, floor)) + TRUNCATED
  }

  datatype Draft = Draft(readme: string, tree: string, text: string, warnings: seq<Warning>)

  datatype PromptError = FormatError

  function Fill(template: string, readme: string, tree: string, warnings: seq<Warning>): Result<Draft, PromptError> {
    match Format(template, readme, tree)
    case BadField => Err(FormatError)
    case Text(text) => Ok(Draft(readme, tree, text, warnings))
  }

  function CutReadme(template: string, d: Draft, maxChars: int): Result<Draft, PromptError> {
    if |d.text| > maxChars && d.readme != "" then
      Fill(template, CutText(d.readme, |d.text| - maxChars, README_SLACK, README_FLOOR), d.tree,
           d.warnings + [README_CUT])
    else Ok(d)
  }

  function CutTree(template: string, d: Draft, maxChars: int): Result<Draft, PromptError> {
    if |d.text| > maxChars && d.tree != "" then
      Fill(template, d.readme, CutText(d.tree, |d.text| - maxChars, TREE_SLACK, TREE_FLOOR), d.warnings + [TREE_CUT])
    else Ok(d)
  }

  /** Fill the template, then cut the README, then the file list, each only while too long. */
  function FinalDraft(template: string, readme: string, tree: string, maxChars: int): Result<Draft, PromptError> {
    match Fill(template, readme, tree, [])
    case Err(e) => Err(e)
    case Ok(first) =>
      match CutReadme(template, first, maxChars)
      case Err(e) => Err(e)
      case Ok(second) => CutTree(template, second, maxChars)
  }

  // ---------------------------------------------------------------- the payload

  function SanitizeText(s: string): string {
    PatternsRegular();
    Substitute(PATTERNS, s)
  }

  function ReadmeOf(ctx: RawContext): string {
    SanitizeText(Strip(match ctx.readme case None => "" case Some(text) => text))
  }

  /** ASCII lower-casing decides this: no letter of the blocked names is the lower case of another one. */
  predicate IsBlocked(entry: TreeEntry) {
    var name := LowerAscii(entry.name);
    name in BLOCKED_PATH_PARTS || exists suffix :: suffix in BLOCKED_SUFFIXES && EndsWith(name, suffix)
  }

  function Kept(entries: seq<TreeEntry>, n: nat): seq<TreeEntry>
    requires n <= |entries|
  {
    if n == 0 then []
    else if IsBlocked(entries[n - 1]) then Kept(entries, n - 1)
    else Kept(entries, n - 1) + [entries[n - 1]]
  }

  function EntryLine(entry: TreeEntry): string {
    "- " + entry.name + " (" + entry.kind + ")"
  }

  function Lines(entries: seq<TreeEntry>): seq<string> {
    seq(|entries|, i requires 0 <= i < |entries| => EntryLine(entries[i]))
  }

  function TreeOf(ctx: RawContext): string {
    Join(Lines(Kept(ctx.tree, |ctx.tree|)), "\n")
  }

  /** The payload for a context under a token budget; every result below is about this function. */
  function PromptFor(ctx: RawContext, maxContextTokens: int): Result<PromptPayload, PromptError> {
    match FinalDraft(Template(Header(ctx)), ReadmeOf(ctx), TreeOf(ctx), maxContextTokens * CHARS_PER_TOKEN)
    case Err(e) => Err(e)
    case Ok(d) =>
      Ok(PromptPayload(ctx.repositoryUrl, CacheKey(ctx), ctx.commitSha, ctx.instant, d.text, d.warnings))
  }

  /** The budgeting half of the builder: fill, and refill after each cut that is needed. */
  method FillToBudget(template: string, readme: string, tree: string, maxChars: int)
    returns (draft: Result<Draft, PromptError>)
    ensures draft == FinalDraft(template, readme, tree, maxChars)
  {
    var readmeText, treeText, warnings := readme, tree, [];
    var prompt := Format(template, readmeText, treeText);
    if prompt.BadField? {
      return Err(FormatError);
    }
    if |prompt.text| > maxChars && readmeText != "" {
      var overflow := |prompt.text| - maxChars;
      var budget := Max(|readmeText| - overflow - README_SLACK, README_FLOOR);
      readmeText := Take(readmeText, budget) + TRUNCATED;
      warnings := warnings + [README_CUT];
      prompt := Format(template, readmeText, treeText);
      if prompt.BadField? {
        return Err(FormatError);
      }
    }
    if |prompt.text| > maxChars && treeText != "" {
      var overflow := |prompt.text| - maxChars;
      var budget := Max(|treeText| - overflow - TREE_SLACK, TREE_FLOOR);
      treeText := Take(treeText, budget) + TRUNCATED;
      warnings := warnings + [TREE_CUT];
      prompt := Format(template, readmeText, treeText);
      if prompt.BadField? {
        return Err(FormatError);
      }
    }
    return Ok(Draft(readmeText, treeText, prompt.text, warnings));
  }

  method FilterEntries(entries: seq<TreeEntry>) returns (filtered: seq<TreeEntry>)
    ensures filtered == Kept(entries, |entries|)
  {
    filtered := [];
    for i := 0 to |entries|
      invariant filtered == Kept(entries, i)
    {
      var entry := entries[i];
      var lowerName := LowerAscii(entry.name);
      if lowerName in BLOCKED_PATH_PARTS {
        continue;
      }
      if exists suffix :: suffix in BLOCKED_SUFFIXES && EndsWith(lowerName, suffix) {
        continue;
      }
      filtered := filtered + [entry];
    }
  }

  method BuildPromptPayload(ctx: RawContext, maxContextTokens: int)
    returns (payload: Result<PromptPayload, PromptError>)
    ensures payload == PromptFor(ctx, maxContextTokens)
  {
    var maxChars := maxContextTokens * CHARS_PER_TOKEN;
    var filtered := FilterEntries(ctx.tree);
    var readmeText := ReadmeOf(ctx);
    var treeText := Join(Lines(filtered), "\n");
    var draft := FillToBudget(Template(Header(ctx)), readmeText, treeText, maxChars);
    match draft {
      case Err(e) =>
        return Err(e);
      case Ok(d) =>
        return Ok(PromptPayload(ctx.repositoryUrl, CacheKey(ctx), ctx.commitSha, ctx.instant, d.text, d.warnings));
    }
  }
}
