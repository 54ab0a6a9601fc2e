/** Which URLs are accepted, stated on the text of the URL. */
module UrlShape {
  import opened Prelude
  import opened Text
  import opened UrlValidator

  /** A URL in its pieces. */
  datatype Shape = Shape(
    scheme: string, host: string,
    before: string, owner: string, between: string, segment: string, after: string,
    params: string, tail: string)

  function PathText(u: Shape): string {
    u.before + (u.owner + (u.between + (u.segment + u.after)))
  }

  function AuthorityText(u: Shape): string {
    "//" + (u.host + (PathText(u) + u.params + u.tail))
  }

  function TextOf(u: Shape): string {
    u.scheme + (":" + AuthorityText(u))
  }

  predicate Slashes(s: string) {
    forall c :: c in s ==> c == '/'
  }

  /** "https", in any case of its letters. */
  predicate IsHttps(s: string) {
    |s| == 5 && s[0] in "hH" && s[1] in "tT" && s[2] in "tT" && s[3] in "pP" && s[4] in "sS"
  }

  predicate IsHost(host: string) {
    host == "github.com" || host == "www.github.com"
  }

  /**
   The scheme and one of the two hosts; a path of two segments, with any number of slashes around them and
   at least one in front of each; then parameters, query and fragment, which are ignored.
   */
  predicate IsRoot(u: Shape) {
    && IsHttps(u.scheme)
    && IsHost(u.host)
    && Slashes(u.before) && u.before != "" && Slashes(u.between) && u.between != "" && Slashes(u.after)
    && (u.params == "" || u.params[0] == ';') && '/' !in u.params && '?' !in u.params && '#' !in u.params
    && (u.tail == "" || u.tail[0] == '?' || u.tail[0] == '#')
  }

  predicate IsName(s: string) {
    && s != ""
    && forall c :: c in s ==> 'a' <= c <= 'z' || 'A' <= c <= 'Z' || '0' <= c <= '9' || c == '_' || c == '.' || c == '-'
  }

  predicate MayOwn(owner: string) {
    owner != "orgs" && owner != "users" && owner != "settings" && owner != "explore" && owner != "features"
  }

  /** The segment with one ".git" less, if it ends in one. */
  predicate NamesRepo(segment: string, repo: string) {
    segment == repo + ".git" || (segment == repo && !EndsWith(repo, ".git"))
  }

  /** The text is a root URL of this owner and repository. */
  ghost predicate IsRootOf(text: string, owner: string, repo: string) {
    exists u :: IsRoot(u) && TextOf(u) == text && u.owner == owner && NamesRepo(u.segment, repo)
  }

  // ---------------------------------------------------------------- path segments

  lemma NonEmptyCons(x: string, parts: seq<string>)
    ensures NonEmpty([x] + parts) == (if x == "" then [] else [x]) + NonEmpty(parts)
  {
    assert ([x] + parts)[1..] == parts;
  }

  lemma NoText()
    ensures NonEmpty(Split("", '/')) == []
  {
    SplitWhole("", '/');
    assert [""][1..] == [];
  }

  lemma SegmentsBehindSlash(rest: string)
    ensures NonEmpty(Split("/" + rest, '/')) == NonEmpty(Split(rest, '/'))
  {
    assert "/" + rest == "" + ['/'] + rest;
    SplitFirst("", rest, '/');
    NonEmptyCons("", Split(rest, '/'));
  }

  lemma SegmentsOfWord(x: string, rest: string)
    requires x != "" && '/' !in x && (rest == "" || rest[0] == '/')
    ensures NonEmpty(Split(x + rest, '/')) == [x] + NonEmpty(Split(rest, '/'))
  {
    if rest == "" {
      assert x + rest == x;
      SplitWhole(x, '/');
      NoText();
      NonEmptyCons(x, []);
      assert [x] + [] == [x];
    } else {
      var tail := rest[1..];
      assert rest == "/" + tail && x + rest == x + ['/'] + tail;
      SplitFirst(x, tail, '/');
      SegmentsBehindSlash(tail);
      NonEmptyCons(x, Split(tail, '/'));
    }
  }

  lemma {:induction false} SegmentsBehindSlashes(a: string, rest: string)
    requires Slashes(a)
    ensures NonEmpty(Split(a + rest, '/')) == NonEmpty(Split(rest, '/'))
  {
    if a == "" {
      assert a + rest == rest;
    } else {
      assert a[0] in a && a + rest == "/" + (a[1..] + rest);
      assert forall c :: c in a[1..] ==> c in a;
      SegmentsBehindSlash(a[1..] + rest);
      SegmentsBehindSlashes(a[1..], rest);
    }
  }

  lemma {:induction false} SegmentsBeforeSlash(s: string)
    ensures NonEmpty(Split(s + "/", '/')) == NonEmpty(Split(s, '/'))
    decreases |s|
  {
    if s == "" {
      assert s + "/" == "/" + "";
      SegmentsBehindSlash("");
    } else if s[0] == '/' {
      var rest := s[1..];
      assert s == "/" + rest && s + "/" == "/" + (rest + "/");
      SegmentsBehindSlash(rest);
      SegmentsBehindSlash(rest + "/");
      SegmentsBeforeSlash(rest);
    } else {
      var x := Before(s, {'/'});
      var rest := s[|x|..];
      assert s == x + rest && s + "/" == x + (rest + "/");
      SegmentsOfWord(x, rest);
      SegmentsOfWord(x, rest + "/");
      SegmentsBeforeSlash(rest);
    }
  }

  lemma {:induction false} TrimLeftKeepsSegments(path: string)
    ensures NonEmpty(Split(TrimLeft(path, IsSlash), '/')) == NonEmpty(Split(path, '/'))
  {
    if path != "" && IsSlash(path[0]) {
      assert path == "/" + path[1..];
      SegmentsBehindSlash(path[1..]);
      TrimLeftKeepsSegments(path[1..]);
    }
  }

  lemma {:induction false} TrimRightKeepsSegments(path: string)
    ensures NonEmpty(Split(TrimRight(path, IsSlash), '/')) == NonEmpty(Split(path, '/'))
  {
    if path != "" && IsSlash(path[|path| - 1]) {
      var front := path[..|path| - 1];
      assert path == front + "/";
      SegmentsBeforeSlash(front);
      TrimRightKeepsSegments(front);
    }
  }

  lemma SegmentsUntrimmed(path: string)
    ensures Segments(path) == NonEmpty(Split(path, '/'))
  {
    TrimLeftKeepsSegments(path);
    TrimRightKeepsSegments(TrimLeft(path, IsSlash));
  }

  lemma LastSegmentAlone(y: string, c: string)
    requires y != "" && '/' !in y && Slashes(c)
    ensures NonEmpty(Split(y + c, '/')) == [y]
  {
    assert c != "" ==> c[0] in c;
    SegmentsOfWord(y, c);
    assert c + "" == c;
    SegmentsBehindSlashes(c, "");
    NoText();
  }

  lemma TwoSegmentsIf(a: string, x: string, b: string, y: string, c: string)
    requires Slashes(a) && Slashes(b) && b != "" && Slashes(c)
    requires x != "" && '/' !in x && y != "" && '/' !in y
    ensures Segments(a + (x + (b + (y + c)))) == [x, y]
  {
    var path, end := a + (x + (b + (y + c))), b + (y + c);
    assert b[0] in b && end[0] == b[0];
    SegmentsUntrimmed(path);
    SegmentsBehindSlashes(a, x + end);
    SegmentsOfWord(x, end);
    SegmentsBehindSlashes(b, y + c);
    LastSegmentAlone(y, c);
  }

  lemma WordInFront(s: string) returns (x: string, rest: string)
    requires s != "" && s[0] != '/'
    ensures s == x + rest && x != "" && '/' !in x && (rest == "" || rest[0] == '/')
    ensures NonEmpty(Split(s, '/')) == [x] + NonEmpty(Split(rest, '/'))
  {
    x := Before(s, {'/'});
    rest := s[|x|..];
    SegmentsOfWord(x, rest);
  }

  /** The first segment of a path, the slashes in front of it, and what follows it. */
  lemma {:induction false} FirstSegment(s: string) returns (a: string, x: string, rest: string)
    requires NonEmpty(Split(s, '/')) != []
    ensures s == a + (x + rest) && Slashes(a) && x != "" && '/' !in x && (rest == "" || rest[0] == '/')
    ensures NonEmpty(Split(s, '/')) == [x] + NonEmpty(Split(rest, '/'))
    decreases |s|
  {
    NoText();
    if s[0] == '/' {
      var tail := s[1..];
      assert s == "/" + tail;
      SegmentsBehindSlash(tail);
      var b;
      b, x, rest := FirstSegment(tail);
      a := "/" + b;
      assert s == a + (x + rest);
    } else {
      a := "";
      x, rest := WordInFront(s);
      assert s == a + (x + rest);
    }
  }

  lemma {:induction false} NoSegments(s: string)
    ensures NonEmpty(Split(s, '/')) == [] ==> Slashes(s)
  {
    if s != "" {
      if s[0] == '/' {
        assert s == "/" + s[1..];
        SegmentsBehindSlash(s[1..]);
        NoSegments(s[1..]);
      } else {
        var x := Before(s, {'/'});
        assert s == x + s[|x|..];
        SegmentsOfWord(x, s[|x|..]);
      }
    }
  }

  lemma TwoSegmentsOnlyIf(path: string)
    returns (before: string, owner: string, between: string, segment: string, after: string)
    requires |Segments(path)| == 2
    ensures path == before + (owner + (between + (segment + after)))
    ensures Slashes(before) && Slashes(between) && between != "" && Slashes(after)
    ensures Segments(path) == [owner, segment] && owner != "" && '/' !in owner && segment != "" && '/' !in segment
  {
    SegmentsUntrimmed(path);
    var rest;
    before, owner, rest := FirstSegment(path);
    assert NonEmpty(Split(rest, '/')) == Segments(path)[1..];
    between, segment, after := FirstSegment(rest);
    assert NonEmpty(Split(after, '/')) == Segments(path)[2..];
    NoSegments(after);
    assert (between + (segment + after))[|between|] == segment[0] && segment[0] in segment;
  }

  // ---------------------------------------------------------------- scheme, authority, path

  lemma HttpsIff(s: string)
    ensures IsHttps(s) <==> LowerAscii(s) == "https"
    ensures IsHttps(s) ==> forall c :: c in s ==> IsSchemeChar(c) && c != ':'
  {
    var low := LowerAscii(s);
    assert forall k :: 0 <= k < |s| ==> low[k] == if 'A' <= s[k] <= 'Z' then (s[k] as int + 32) as char else s[k];
    if IsHttps(s) {
      assert low == [low[0], low[1], low[2], low[3], low[4]];
      assert low == "https";
    }
  }

  lemma SchemeIf(scheme: string, rest: string)
    requires IsHttps(scheme)
    ensures SplitScheme(scheme + (":" + rest)) == ("https", rest)
  {
    HttpsIff(scheme);
    BeforeIs(scheme, ":" + rest, {':'});
    assert (scheme + (":" + rest))[|scheme| + 1..] == rest;
  }

  lemma SchemeOnlyIf(t: string) returns (scheme: string)
    requires SplitScheme(t).0 == "https"
    ensures IsHttps(scheme) && t == scheme + (":" + SplitScheme(t).1)
  {
    scheme := Before(t, {':'});
    HttpsIff(scheme);
    assert t == t[..|scheme|] + ([t[|scheme|]] + t[|scheme| + 1..]);
  }

  lemma HostPlain(host: string)
    requires IsHost(host)
    ensures forall c :: c in host ==> c !in {'/', '?', '#'}
  {
  }

  lemma AuthorityIf(host: string, tail: string)
    requires IsHost(host) && (tail == "" || tail[0] in {'/', '?', '#'})
    ensures SplitAuthority("//" + (host + tail)) == (host, tail)
  {
    var rest := "//" + (host + tail);
    HostPlain(host);
    assert rest[2..] == host + tail;
    BeforeIs(host, tail, {'/', '?', '#'});
    assert rest[2 + |host|..] == tail;
  }

  lemma InThree(s: string, n: nat, k: nat)
    requires n + k <= |s|
    ensures s == s[..n] + (s[n..][..k] + s[n + k..]) && s == (s[..n] + s[n..][..k]) + s[n + k..]
    ensures s[n..][k..] == s[n + k..]
  {
  }

  lemma AuthorityOnlyIf(rest: string)
    requires IsHost(SplitAuthority(rest).0)
    ensures var (host, tail) := SplitAuthority(rest);
            rest == "//" + (host + tail) && (tail == "" || tail[0] in {'/', '?', '#'})
  {
    var (host, tail) := SplitAuthority(rest);
    assert rest[..2] == "//";
    InThree(rest, 2, |host|);
  }

  lemma PathIf(path: string, tail: string)
    requires '?' !in path && '#' !in path && (tail == "" || tail[0] == '?' || tail[0] == '#')
    ensures PathOf(path + tail) == path
  {
    if tail != "" && tail[0] == '?' {
      var h := Before(tail, {'#'});
      assert h == tail[..|h|] && |h| > 0;
      BeforeThrough(path, tail, {'#'});
      BeforeIs(path, h, {'?'});
    } else {
      BeforeIs(path, tail, {'#'});
      assert path + "" == path;
      BeforeIs(path, "", {'?'});
    }
  }

  lemma {:induction false} BeforeThrough(head: string, tail: string, stops: set<char>)
    requires forall c :: c in head ==> c !in stops
    ensures Before(head + tail, stops) == head + Before(tail, stops)
  {
    if head == "" {
      assert head + tail == tail;
    } else {
      assert (head + tail)[1..] == head[1..] + tail;
      BeforeThrough(head[1..], tail, stops);
    }
  }

  lemma PathOnlyIf(text: string) returns (tail: string)
    ensures text == PathOf(text) + tail && (tail == "" || tail[0] == '?' || tail[0] == '#')
    ensures '?' !in PathOf(text) && '#' !in PathOf(text)
  {
    var h, path := Before(text, {'#'}), PathOf(text);
    tail := text[|path|..];
    assert path == h[..|path|] == text[..|path|];
    assert forall c :: c in path ==> c in h;
  }

  lemma {:induction false} NoSlashInLast(path: string)
    ensures '/' !in path[LastSegment(path)..]
    ensures LastSegment(path) > 0 ==> path[LastSegment(path) - 1] == '/'
  {
    if path != "" && path[|path| - 1] != '/' {
      var front, n := path[..|path| - 1], LastSegment(path);
      NoSlashInLast(front);
      assert path[n..] == front[n..] + [path[|path| - 1]];
    }
  }

  lemma ParamsIf(head: string, last: string, params: string)
    requires (head == "" || head[|head| - 1] == '/') && '/' !in last && ';' !in last
    requires (params == "" || params[0] == ';') && '/' !in params
    ensures CutParams(head + last + params) == head + last
  {
    var path := head + last + params;
    assert path == head + (last + params);
    LastSegmentIs(head, last + params);
    BeforeIs(last, params, {';'});
    assert path[..|head|] == head && path[|head|..] == last + params;
  }

  lemma ParamsOnlyIf(path: string) returns (params: string)
    ensures path == CutParams(path) + params && (params == "" || params[0] == ';') && '/' !in params
  {
    var n := LastSegment(path);
    var rest := path[n..];
    NoSlashInLast(path);
    var last := Before(rest, {';'});
    params := rest[|last|..];
    NotInPart(rest, |last|, '/');
    InThree(path, n, |last|);
  }

  lemma NotInPart(s: string, n: nat, c: char)
    requires n <= |s| && c !in s
    ensures c !in s[n..] && c !in s[..n]
  {
  }

  // ---------------------------------------------------------------- cleaning

  /**
   What is left of a URL: white space is cut off at both ends, then control characters and blanks in front,
   and then the tabs and line breaks in it are dropped.
   */
  lemma CleanedIs(url: string) returns (front: string, lead: string, kept: string, back: string)
    ensures url == front + (lead + kept) + back
    ensures (forall c :: c in front ==> IsSpace(c)) && (forall c :: c in back ==> IsSpace(c))
    ensures lead + kept == "" || (!IsSpace((lead + kept)[0]) && !IsSpace((lead + kept)[|lead + kept| - 1]))
    ensures (forall c :: c in lead ==> c as int <= 32) && (kept == "" || kept[0] as int > 32)
    ensures Cleaned(Strip(url)) == Without(kept, {'\t', '\r', '\n'})
  {
    front, back := TrimIs(url, IsSpace);
    lead := TrimLeftIs(Strip(url), IsControlOrSpace);
    kept := TrimLeft(Strip(url), IsControlOrSpace);
  }

  // ---------------------------------------------------------------- accepted URLs

  lemma NamesAlike(s: string)
    ensures IsName(s) <==> ValidName(s)
  {
  }

  lemma OwnersAlike(owner: string)
    ensures MayOwn(owner) <==> !IsReserved(owner)
  {
  }

  lemma SegmentNames(segment: string, repo: string)
    ensures NamesRepo(segment, repo) <==> RemoveSuffix(segment, ".git") == repo
    ensures NamesRepo(segment, repo) && ValidName(repo) ==> ValidName(segment)
  {
    assert ValidName(".git");
    if segment == repo + ".git" {
      assert segment[|repo|..] == ".git" && segment[..|repo|] == repo;
    }
    if EndsWith(segment, ".git") {
      assert segment == segment[..|segment| - 4] + ".git";
    }
  }

  /** The path of a root URL has no separator of query or fragment in it. */
  lemma PathIsPlain(u: Shape)
    requires IsRoot(u) && ValidName(u.owner) && ValidName(u.segment)
    ensures var path := PathText(u); '?' !in path && '#' !in path && path != "" && path[0] == '/'
  {
    NameCharsPlain(u.owner);
    NameCharsPlain(u.segment);
    assert u.before[0] in u.before;
  }

  lemma LastIn(a: string, b: string)
    requires b != ""
    ensures (a + b)[|a + b| - 1] == b[|b| - 1] && b[|b| - 1] in b
  {
  }

  lemma ParamsBehindSegment(u: Shape)
    requires IsRoot(u) && ValidName(u.segment) && u.after == ""
    ensures CutParams(PathText(u) + u.params) == PathText(u)
  {
    var front := u.before + u.owner;
    NameCharsPlain(u.segment);
    LastIn(front, u.between);
    ParamsIf(front + u.between, u.segment, u.params);
    assert u.segment + u.after == u.segment;
    assert PathText(u) == front + u.between + u.segment;
  }

  lemma ParamsBehindSlash(u: Shape)
    requires IsRoot(u) && u.after != ""
    ensures CutParams(PathText(u) + u.params) == PathText(u)
  {
    var front := u.before + u.owner + u.between + u.segment;
    assert PathText(u) == front + u.after;
    LastIn(front, u.after);
    ParamsIf(PathText(u), "", u.params);
    assert PathText(u) + "" == PathText(u);
  }

  lemma PathWithoutParams(u: Shape)
    requires IsRoot(u) && ValidName(u.owner) && ValidName(u.segment)
    ensures CutParams(PathText(u) + u.params) == PathText(u)
  {
    if u.after == "" {
      ParamsBehindSegment(u);
    } else {
      ParamsBehindSlash(u);
    }
  }

  lemma RootSplits(url: string, u: Shape)
    requires IsRoot(u) && TextOf(u) == Cleaned(url) && ValidName(u.owner) && ValidName(u.segment)
    ensures UrlParse(url) == UrlParts("https", u.host, PathText(u))
  {
    var whole := PathText(u) + u.params;
    PathIsPlain(u);
    PathWithoutParams(u);
    SchemeIf(u.scheme, AuthorityText(u));
    assert (whole + u.tail)[0] == '/';
    AuthorityIf(u.host, whole + u.tail);
    PathIf(whole, u.tail);
  }

  lemma CheckedFromSplit(url: string, owner: string, segment: string)
    requires var parts := UrlParse(Strip(url));
             parts.scheme == "https" && IsHost(parts.netloc) && Segments(parts.path) == [owner, segment]
    ensures ParseRepositoryUrl(url) == CheckNames(owner, segment)
  {
  }

  lemma RootParses(url: string, u: Shape)
    requires IsRoot(u) && TextOf(u) == Cleaned(Strip(url)) && ValidName(u.owner) && ValidName(u.segment)
    ensures ParseRepositoryUrl(url) == CheckNames(u.owner, u.segment)
  {
    RootSplits(Strip(url), u);
    NameCharsPlain(u.owner);
    NameCharsPlain(u.segment);
    TwoSegmentsIf(u.before, u.owner, u.between, u.segment, u.after);
    CheckedFromSplit(url, u.owner, u.segment);
  }

  lemma SlashInFront(before: string, owner: string, rest: string)
    requires owner != "" && '/' !in owner && (before + (owner + rest))[0] == '/'
    ensures before != ""
  {
    assert owner[0] in owner && (before + (owner + rest))[|before|] == owner[0];
  }

  lemma StartsWithSlash(core: string, params: string, end: string)
    requires core != "" && '?' !in core + params && '#' !in core + params
    requires (core + params + end)[0] in {'/', '?', '#'}
    ensures core[0] == '/'
  {
    assert (core + params)[0] in core + params;
  }

  /** The pieces of a URL with one of the two hosts and a path of two segments. */
  lemma SplitIsRoot(url: string) returns (u: Shape)
    requires var parts := UrlParse(url); parts.scheme == "https" && IsHost(parts.netloc) && |Segments(parts.path)| == 2
    ensures IsRoot(u) && TextOf(u) == Cleaned(url) && Segments(UrlParse(url).path) == [u.owner, u.segment]
  {
    var (scheme, rest) := SplitScheme(Cleaned(url));
    var (host, tail) := SplitAuthority(rest);
    var whole := PathOf(tail);
    var scheme' := SchemeOnlyIf(Cleaned(url));
    AuthorityOnlyIf(rest);
    var end := PathOnlyIf(tail);
    var params := ParamsOnlyIf(whole);
    var core := CutParams(whole);
    NotInPart(whole, |core|, '?');
    NotInPart(whole, |core|, '#');
    assert whole[|core|..] == params;
    var before, owner, between, segment, after := TwoSegmentsOnlyIf(core);
    StartsWithSlash(core, params, end);
    SlashInFront(before, owner, between + (segment + after));
    u := Shape(scheme', host, before, owner, between, segment, after, params, end);
  }

  lemma ParsedIsRoot(url: string) returns (u: Shape)
    requires ParseRepositoryUrl(url).Ok?
    ensures IsRoot(u) && TextOf(u) == Cleaned(Strip(url))
    ensures ParseRepositoryUrl(url) == CheckNames(u.owner, u.segment)
  {
    u := SplitIsRoot(Strip(url));
  }

  lemma CheckedIff(owner: string, segment: string, target: Target)
    requires segment != ""
    ensures CheckNames(owner, segment) == Ok(target) <==>
            && target.canonicalUrl == "https://github.com/" + target.owner + "/" + target.repo
            && IsName(target.owner) && MayOwn(target.owner) && IsName(target.repo)
            && owner == target.owner && NamesRepo(segment, target.repo)
  {
    NamesAlike(target.owner);
    NamesAlike(target.repo);
    OwnersAlike(target.owner);
    SegmentNames(segment, target.repo);
    CanonicalText(target.owner, target.repo);
  }

  lemma CanonicalText(owner: string, repo: string)
    ensures CanonicalUrl(owner, repo) == "https://github.com/" + owner + "/" + repo
  {
    assert SITE + ("/" + owner + "/" + repo) == (SITE + "/") + owner + "/" + repo;
    assert SITE + "/" == "https://github.com/";
  }

  lemma RootIsAccepted(url: string, target: Target)
    requires target.canonicalUrl == "https://github.com/" + target.owner + "/" + target.repo
    requires IsName(target.owner) && MayOwn(target.owner) && IsName(target.repo)
    requires IsRootOf(Cleaned(Strip(url)), target.owner, target.repo)
    ensures ParseRepositoryUrl(url) == Ok(target)
  {
    var u :| IsRoot(u) && TextOf(u) == Cleaned(Strip(url)) && u.owner == target.owner
             && NamesRepo(u.segment, target.repo);
    NamesAlike(target.owner);
    NamesAlike(target.repo);
    SegmentNames(u.segment, target.repo);
    RootParses(url, u);
    CheckedIff(u.owner, u.segment, target);
  }

  /**
   A URL is accepted, as this target, exactly if what is left of it after cleaning is a root URL of the owner
   and the repository, both well formed and the owner not reserved.
   */
  lemma AcceptedIff(url: string, target: Target)
    ensures ParseRepositoryUrl(url) == Ok(target) <==>
            && target.canonicalUrl == "https://github.com/" + target.owner + "/" + target.repo
            && IsName(target.owner) && MayOwn(target.owner) && IsName(target.repo)
            && IsRootOf(Cleaned(Strip(url)), target.owner, target.repo)
  {
    if ParseRepositoryUrl(url) == Ok(target) {
      var u := ParsedIsRoot(url);
      CheckedIff(u.owner, u.segment, target);
      assert IsRoot(u) && TextOf(u) == Cleaned(Strip(url)) && u.owner == target.owner
             && NamesRepo(u.segment, target.repo);
    }
    if && target.canonicalUrl == "https://github.com/" + target.owner + "/" + target.repo
       && IsName(target.owner) && MayOwn(target.owner) && IsName(target.repo)
       && IsRootOf(Cleaned(Strip(url)), target.owner, target.repo)
    {
      RootIsAccepted(url, target);
    }
  }
}
