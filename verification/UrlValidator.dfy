/** Validation of submitted repository URLs, and the canonical URL and cache key built from them. */
module UrlValidator {
  import opened Prelude
  import opened Text

  datatype Target = Target(owner: string, repo: string, canonicalUrl: string)

  datatype UrlError = NotGithub | NotRepositoryRoot | ReservedName | UnsupportedCharacters

  const SITE := "https://github.com"

  /** Characters that urlsplit deletes before it looks at a URL. */
  const REMOVED: set<char> := {'\t', '\r', '\n'}

  predicate IsReserved(owner: string) {
    owner in {"orgs", "users", "settings", "explore", "features"}
  }

  predicate IsGithubHost(netloc: string) {
    netloc in {"github.com", "www.github.com"}
  }

  predicate IsLetter(c: char) {
    'a' <= c <= 'z' || 'A' <= c <= 'Z'
  }

  predicate IsNameChar(c: char) {
    IsLetter(c) || '0' <= c <= '9' || c == '_' || c == '.' || c == '-'
  }

  /** The pattern an owner and a repository name must match as a whole. */
  predicate ValidName(s: string) {
    s != "" && forall c :: c in s ==> IsNameChar(c)
  }

  // ---------------------------------------------------------------- splitting a URL

  predicate IsSlash(c: char) {
    c == '/'
  }

  predicate IsControlOrSpace(c: char) {
    c as int <= 0x20
  }

  predicate IsSchemeChar(c: char) {
    IsLetter(c) || '0' <= c <= '9' || c == '+' || c == '-' || c == '.'
  }

  datatype UrlParts = UrlParts(scheme: string, netloc: string, path: string)

  /** Scheme and remainder: a letter and scheme characters up to the first colon, or no scheme. */
  function SplitScheme(url: string): (string, string) {
    var head := Before(url, {':'});
    if 0 < |head| < |url| && IsLetter(head[0]) && forall c :: c in head ==> IsSchemeChar(c) then
      (LowerAscii(head), url[|head| + 1..])
    else ("", url)
  }

  /** Authority and remainder: what follows a double slash up to the next slash, question or hash mark. */
  function SplitAuthority(rest: string): (string, string) {
    if |rest| >= 2 && rest[0] == '/' && rest[1] == '/' then
      var netloc := Before(rest[2..], {'/', '?', '#'});
      (netloc, rest[2 + |netloc|..])
    else ("", rest)
  }

  /** Where the last path segment starts: after the last slash, or at the beginning. */
  function LastSegment(path: string): (n: nat)
    ensures n <= |path|
  {
    if path == "" || path[|path| - 1] == '/' then |path| else LastSegment(path[..|path| - 1])
  }

  /** Parameters are cut off the last path segment. */
  function CutParams(path: string): string {
    var n := LastSegment(path);
    path[..n] + Before(path[n..], {';'})
  }

  /** What urlsplit looks at. */
  function Cleaned(url: string): string {
    Without(TrimLeft(url, IsControlOrSpace), REMOVED)
  }

  function PathOf(tail: string): string {
    Before(Before(tail, {'#'}), {'?'})
  }

  /** The scheme, authority and path that urlparse returns, for the https scheme. */
  function UrlParse(url: string): UrlParts {
    var (scheme, rest) := SplitScheme(Cleaned(url));
    var (netloc, tail) := SplitAuthority(rest);
    UrlParts(scheme, netloc, CutParams(PathOf(tail)))
  }

  function NonEmpty(parts: seq<string>): seq<string> {
    if parts == [] then []
    else (if parts[0] == "" then [] else [parts[0]]) + NonEmpty(parts[1..])
  }

  function Segments(path: string): seq<string> {
    NonEmpty(Split(Trim(path, IsSlash), '/'))
  }

  function RepositoryPath(owner: string, repo: string): string {
    "/" + owner + "/" + repo
  }

  function CanonicalUrl(owner: string, repo: string): string {
    SITE + RepositoryPath(owner, repo)
  }

  /** The checks on the two path segments. */
  function CheckNames(owner: string, segment: string): Result<Target, UrlError> {
    if IsReserved(owner) then Err(ReservedName)
    else
      var repo := RemoveSuffix(segment, ".git");
      if owner == "" || repo == "" || !ValidName(owner) || !ValidName(repo) then Err(UnsupportedCharacters)
      else Ok(Target(owner, repo, CanonicalUrl(owner, repo)))
  }

  function ParseRepositoryUrl(url: string): (r: Result<Target, UrlError>)
    ensures r.Ok? ==>
              && ValidName(r.value.owner) && ValidName(r.value.repo)
              && !IsReserved(r.value.owner)
              && r.value.canonicalUrl == CanonicalUrl(r.value.owner, r.value.repo)
  {
    var parts := UrlParse(Strip(url));
    if parts.scheme != "https" || !IsGithubHost(parts.netloc) then Err(NotGithub)
    else
      var segments := Segments(parts.path);
      if |segments| != 2 then Err(NotRepositoryRoot)
      else CheckNames(segments[0], segments[1])
  }

  // ---------------------------------------------------------------- round trip

  lemma NameCharsPlain(s: string)
    requires ValidName(s)
    ensures forall c :: c in s ==> !IsSpace(c) && !IsControlOrSpace(c)
    ensures forall c :: c in s ==> c !in {'/', '?', '#', ':', ';', '@', '\t', '\r', '\n'}
  {
  }

  lemma {:induction false} LastSegmentIs(head: string, last: string)
    requires '/' !in last && (head == "" || head[|head| - 1] == '/')
    ensures LastSegment(head + last) == |head|
  {
    if last == "" {
      assert head + last == head;
    } else {
      var path, front := head + last, last[..|last| - 1];
      assert path[|path| - 1] == last[|last| - 1] && last[|last| - 1] in last;
      assert path[..|path| - 1] == head + front;
      LastSegmentIs(head, front);
    }
  }

  lemma CutParamsNothing(owner: string, segment: string)
    requires ValidName(owner) && ValidName(segment)
    ensures CutParams(RepositoryPath(owner, segment)) == RepositoryPath(owner, segment)
  {
    var head, path := "/" + owner + "/", RepositoryPath(owner, segment);
    NameCharsPlain(segment);
    assert path == head + segment;
    LastSegmentIs(head, segment);
    assert segment + "" == segment;
    BeforeIs(segment, "", {';'});
    assert path[|head|..] == segment;
  }

  lemma LowerHttps()
    ensures LowerAscii("https") == "https"
    ensures forall c :: c in "https" ==> IsSchemeChar(c)
  {
  }

  lemma SiteParts()
    ensures SITE == "https" + (":" + "//github.com")
  {
  }

  lemma Regroup(a: string, b: string, c: string, d: string)
    ensures (a + (b + c)) + d == a + (b + (c + d))
    ensures |b| == 1 ==> ((a + (b + c)) + d)[|a| + 1..] == c + d
  {
  }

  lemma CanonicalScheme(path: string)
    ensures SplitScheme(SITE + path) == ("https", "//github.com" + path)
  {
    var url, rest := SITE + path, "//github.com" + path;
    SiteParts();
    Regroup("https", ":", "//github.com", path);
    BeforeIs("https", ":" + rest, {':'});
    LowerHttps();
  }

  lemma CanonicalAuthority(path: string)
    requires path != "" && path[0] == '/'
    ensures SplitAuthority("//github.com" + path) == ("github.com", path)
  {
    var rest := "//github.com" + path;
    assert rest[2..] == "github.com" + path;
    BeforeIs("github.com", path, {'/', '?', '#'});
    assert rest[12..] == path;
  }

  lemma CanonicalPath(owner: string, segment: string)
    requires ValidName(owner) && ValidName(segment)
    ensures var path := RepositoryPath(owner, segment);
            CutParams(Before(Before(path, {'#'}), {'?'})) == path
  {
    var path := RepositoryPath(owner, segment);
    NameCharsPlain(owner);
    NameCharsPlain(segment);
    assert path + "" == path;
    BeforeIs(path, "", {'#'});
    BeforeIs(path, "", {'?'});
    CutParamsNothing(owner, segment);
  }

  ghost predicate Avoids(s: string, drop: set<char>) {
    forall c :: c in s ==> c !in drop
  }

  lemma AvoidsConcat(a: string, b: string, drop: set<char>)
    requires Avoids(a, drop) && Avoids(b, drop)
    ensures Avoids(a + b, drop)
  {
  }

  lemma CanonicalIsClean(owner: string, segment: string)
    requires ValidName(owner) && ValidName(segment)
    ensures var url := CanonicalUrl(owner, segment);
            Strip(url) == url && Without(TrimLeft(url, IsControlOrSpace), REMOVED) == url
  {
    var url := CanonicalUrl(owner, segment);
    NameCharsPlain(owner);
    NameCharsPlain(segment);
    assert Avoids(SITE, REMOVED) && Avoids("/", REMOVED);
    AvoidsConcat("/", owner, REMOVED);
    AvoidsConcat("/" + owner, "/", REMOVED);
    AvoidsConcat("/" + owner + "/", segment, REMOVED);
    AvoidsConcat(SITE, RepositoryPath(owner, segment), REMOVED);
    CleanEnds(url, segment);
    WithoutNothing(url, REMOVED);
  }

  lemma CleanEnds(url: string, segment: string)
    requires ValidName(segment) && |url| >= |segment| && url[|url| - |segment|..] == segment && url[0] == 'h'
    ensures Strip(url) == url && TrimLeft(url, IsControlOrSpace) == url
  {
    NameCharsPlain(segment);
    assert url[|url| - 1] == segment[|segment| - 1] && segment[|segment| - 1] in segment;
    TrimKeeps(url, IsSpace);
  }

  lemma CanonicalSplits(owner: string, segment: string)
    requires ValidName(owner) && ValidName(segment)
    ensures UrlParse(CanonicalUrl(owner, segment)) == UrlParts("https", "github.com", RepositoryPath(owner, segment))
  {
    var path := RepositoryPath(owner, segment);
    CanonicalIsClean(owner, segment);
    CanonicalScheme(path);
    CanonicalAuthority(path);
    CanonicalPath(owner, segment);
  }

  lemma PathSegments(owner: string, segment: string)
    requires ValidName(owner) && ValidName(segment)
    ensures Split(RepositoryPath(owner, segment), '/') == ["", owner, segment]
    ensures Split(owner + "/" + segment, '/') == [owner, segment]
  {
    NameCharsPlain(owner);
    NameCharsPlain(segment);
    var inner := owner + "/" + segment;
    SplitFirst(owner, segment, '/');
    SplitWhole(segment, '/');
    SplitFirst("", inner, '/');
    assert "" + "/" + inner == RepositoryPath(owner, segment);
  }

  /** A URL in canonical form is accepted or refused by its two names alone. */
  lemma ParseOfCanonical(owner: string, segment: string)
    requires ValidName(owner) && ValidName(segment)
    ensures ParseRepositoryUrl(CanonicalUrl(owner, segment)) == CheckNames(owner, segment)
  {
    CanonicalIsClean(owner, segment);
    CanonicalSplits(owner, segment);
    TrimSlash(owner, segment);
    PathSegments(owner, segment);
    TwoSegments(owner, segment);
  }

  lemma TwoSegments(a: string, b: string)
    requires a != "" && b != ""
    ensures NonEmpty([a, b]) == [a, b]
  {
    assert [a, b][1..] == [b];
    assert [b][1..] == [];
    assert NonEmpty([b]) == [b];
  }

  lemma TrimSlash(owner: string, segment: string)
    requires ValidName(owner) && ValidName(segment)
    ensures Trim(RepositoryPath(owner, segment), IsSlash) == owner + "/" + segment
  {
    var path, inner := RepositoryPath(owner, segment), owner + "/" + segment;
    NameCharsPlain(owner);
    NameCharsPlain(segment);
    assert path[1..] == inner && inner[0] == owner[0] && owner[0] in owner;
    assert inner[|inner| - 1] == segment[|segment| - 1] && segment[|segment| - 1] in segment;
    assert TrimLeft(path, IsSlash) == TrimLeft(inner, IsSlash) == inner;
    assert TrimRight(inner, IsSlash) == inner;
  }

  /**
   Parsing the canonical URL of an accepted target, as the worker does, gives the same target back
   exactly when the repository name does not still end in ".git" after the one suffix removal.
   */
  lemma CanonicalRoundTripIff(url: string)
    requires ParseRepositoryUrl(url).Ok?
    ensures var target := ParseRepositoryUrl(url).value;
            ParseRepositoryUrl(target.canonicalUrl) == Ok(target) <==> !EndsWith(target.repo, ".git")
  {
    var target := ParseRepositoryUrl(url).value;
    ParseOfCanonical(target.owner, target.repo);
  }

  /** What the worker parses instead: one more suffix is removed, or the name ".git" is refused. */
  lemma CanonicalReparse(url: string)
    requires ParseRepositoryUrl(url).Ok? && EndsWith(ParseRepositoryUrl(url).value.repo, ".git")
    ensures var target := ParseRepositoryUrl(url).value;
            var shorter := RemoveSuffix(target.repo, ".git");
            ParseRepositoryUrl(target.canonicalUrl)
            == if target.repo == ".git" then Err(UnsupportedCharacters)
               else Ok(Target(target.owner, shorter, CanonicalUrl(target.owner, shorter)))
  {
    var target := ParseRepositoryUrl(url).value;
    ParseOfCanonical(target.owner, target.repo);
    var shorter := RemoveSuffix(target.repo, ".git");
    assert forall c :: c in shorter ==> c in target.repo;
    assert shorter == "" <==> target.repo == ".git";
  }

  /**
   Such URLs exist for every owner and name: with the suffix doubled, the target submitted and the
   target the worker parses are different repositories.
   */
  lemma DoubleSuffixChangesTarget(owner: string, name: string)
    requires ValidName(owner) && ValidName(name) && !IsReserved(owner)
    ensures var once := name + ".git";
            && ParseRepositoryUrl(CanonicalUrl(owner, once + ".git"))
               == Ok(Target(owner, once, CanonicalUrl(owner, once)))
            && ParseRepositoryUrl(CanonicalUrl(owner, once)) == Ok(Target(owner, name, CanonicalUrl(owner, name)))
  {
    SuffixIsDropped(owner, name);
    SuffixIsDropped(owner, name + ".git");
  }

  lemma SuffixIsDropped(owner: string, name: string)
    requires ValidName(owner) && ValidName(name) && !IsReserved(owner)
    ensures ValidName(name + ".git")
    ensures ParseRepositoryUrl(CanonicalUrl(owner, name + ".git")) == Ok(Target(owner, name, CanonicalUrl(owner, name)))
  {
    ParseOfCanonical(owner, name + ".git");
    assert RemoveSuffix(name + ".git", ".git") == name;
  }

  // ---------------------------------------------------------------- the AI cache key

  function BuildAiCacheKey(owner: string, repo: string, commitSha: string): string {
    owner + "/" + repo + "@" + commitSha
  }

  /** On validated names the key determines owner, repository and commit, whatever the commit string. */
  lemma CacheKeyInjective(owner: string, repo: string, sha: string, owner': string, repo': string, sha': string)
    requires ValidName(owner) && ValidName(repo) && ValidName(owner') && ValidName(repo')
    requires BuildAiCacheKey(owner, repo, sha) == BuildAiCacheKey(owner', repo', sha')
    ensures owner == owner' && repo == repo' && sha == sha'
  {
    NameCharsPlain(owner);
    NameCharsPlain(repo);
    NameCharsPlain(owner');
    NameCharsPlain(repo');
    var tail, tail' := repo + ("@" + sha), repo' + ("@" + sha');
    assert BuildAiCacheKey(owner, repo, sha) == owner + ("/" + tail);
    assert BuildAiCacheKey(owner', repo', sha') == owner' + ("/" + tail');
    CutUnique(owner, tail, owner', tail', '/');
    CutUnique(repo, sha, repo', sha', '@');
  }
}
