/**
 * Repository data from GitHub (blingo/lib/github.ts): URL parsing, repository metadata,
 * latest release with a fall-back to the latest tag, and README probing on two branches.
 *
 * Every HTTP exchange is an input: a function from the requested URL to what came back
 * (a status and a body, or a network failure).
 */
module GitHub {
  import opened Wrappers
  import opened Text

  const GithubPrefix: string := "https://github.com/"

  /** A response body: decoded, or the message of the exception `response.json()`/`text()` threw. */
  datatype Body<T> = Parsed(value: T) | Unparseable(message: string)

  /**
   * What `fetch` produced: a response, or the message of the exception it threw (`"Unknown"`
   * when what was thrown is not an Error).
   */
  datatype HttpReply<T> = Response(status: int, body: Body<T>) | Failed(message: string)

  /** `response.ok`. */
  predicate IsOk(status: int) {
    200 <= status <= 299
  }

  datatype RepoRef = RepoRef(owner: string, repo: string)

  predicate SlashFree(s: string) {
    forall i :: 0 <= i < |s| ==> s[i] != '/'
  }

  predicate LineFree(s: string) {
    forall i :: 0 <= i < |s| ==> !IsLineTerminator(s[i])
  }

  /** What `(\/.*)?$` accepts after the repository name: nothing, or a slash and the rest of one line. */
  predicate ValidTail(t: string) {
    t == "" || (t[0] == '/' && LineFree(t))
  }

  /** The length of the longest slash-free prefix (what a greedy `[^\/]+` consumes). */
  function SlashFreeLength(s: string): (n: nat)
    ensures n <= |s| && SlashFree(s[..n])
    ensures n < |s| ==> s[n] == '/'
  {
    if s == [] || s[0] == '/' then 0
    else
      var n := 1 + SlashFreeLength(s[1..]);
      assert s[..n] == [s[0]] + s[1..][..n - 1];
      n
  }

  lemma {:induction false} SlashFreeLengthOf(a: string, b: string)
    requires SlashFree(a)
    requires b == [] || b[0] == '/'
    ensures SlashFreeLength(a + b) == |a|
  {
    if a != [] {
      assert (a + b)[1..] == a[1..] + b;
      SlashFreeLengthOf(a[1..], b);
    } else {
      assert a + b == b;
    }
  }

  /**
   * parseGithubUrl: the match of `^https:\/\/github\.com\/([^\/]+)\/([^\/]+)(\/.*)?$`.
   * The owner and the repository are non-empty and slash-free (they may hold any other character),
   * and whatever follows them is a valid tail.
   */
  function ParseGithubUrl(url: string): (r: Option<RepoRef>)
    ensures r.Some? ==>
      var o, rp := r.value.owner, r.value.repo;
      && o != "" && rp != "" && SlashFree(o) && SlashFree(rp)
      && StartsWith(url, GithubPrefix + o + "/" + rp)
      && ValidTail(url[|GithubPrefix + o + "/" + rp|..])
  {
    if !StartsWith(url, GithubPrefix) then None
    else
      var rest := url[|GithubPrefix|..];
      var i := SlashFreeLength(rest);
      if i == 0 || i == |rest| then None
      else
        var after := rest[i + 1..];
        var j := SlashFreeLength(after);
        if j == 0 || !ValidTail(after[j..]) then None
        else
          var o, rp := rest[..i], after[..j];
          assert url == GithubPrefix + o + "/" + rp + after[j..];
          Some(RepoRef(o, rp))
  }

  /** Every URL of the accepted shape parses, to exactly its owner and repository. */
  lemma ParseGithubUrlComplete(owner: string, repo: string, tail: string)
    requires owner != "" && repo != "" && SlashFree(owner) && SlashFree(repo) && ValidTail(tail)
    ensures ParseGithubUrl(GithubPrefix + owner + "/" + repo + tail) == Some(RepoRef(owner, repo))
  {
    var url := GithubPrefix + owner + "/" + repo + tail;
    SplitAtPrefix(owner, repo, tail);
    SplitAtSlashFree(owner, "/" + repo + tail);
    SplitAtSlashFree(repo, tail);
    assert ("/" + repo + tail)[1..] == repo + tail;
  }

  lemma SplitAtPrefix(owner: string, repo: string, tail: string)
    ensures var url := GithubPrefix + owner + "/" + repo + tail;
      StartsWith(url, GithubPrefix) && url[|GithubPrefix|..] == owner + ("/" + repo + tail)
  {
    assert GithubPrefix + owner + "/" + repo + tail == GithubPrefix + (owner + ("/" + repo + tail));
  }

  /** A slash-free word followed by nothing or a slash splits off at its own length. */
  lemma SplitAtSlashFree(a: string, b: string)
    requires SlashFree(a) && (b == [] || b[0] == '/')
    ensures SlashFreeLength(a + b) == |a| && (a + b)[..|a|] == a && (a + b)[|a|..] == b
  {
    SlashFreeLengthOf(a, b);
  }

  /** The round trip: parsing the canonical URL of (owner, repo) gives back (owner, repo). */
  lemma ParseGithubUrlRoundTrip(owner: string, repo: string)
    requires owner != "" && repo != "" && SlashFree(owner) && SlashFree(repo)
    ensures ParseGithubUrl(GithubPrefix + owner + "/" + repo) == Some(RepoRef(owner, repo))
  {
    ParseGithubUrlComplete(owner, repo, "");
    assert GithubPrefix + owner + "/" + repo + "" == GithubPrefix + owner + "/" + repo;
  }

  // ---------------------------------------------------------------- repository metadata

  /** RepoInfo: every field independently nullable, plus an error on failure. */
  datatype RepoInfo = RepoInfo(
    stars: Option<int>, forks: Option<int>, openIssues: Option<int>,
    language: Option<string>, description: Option<string>, homepage: Option<string>,
    license: Option<string>, error: Option<string>)

  /**
   * The fields of the repository JSON that are read; `licenseName` is `license?.name`
   * (absent when either the license or its name is).
   */
  datatype RepoPayload = RepoPayload(
    stargazersCount: Option<int>, forksCount: Option<int>, openIssuesCount: Option<int>,
    language: Option<string>, description: Option<string>, homepage: Option<string>,
    licenseName: Option<string>)

  function NullRepoInfo(error: string): RepoInfo {
    RepoInfo(None, None, None, None, None, None, None, Some(error))
  }

  predicate AllNullRepoInfo(r: RepoInfo) {
    r.stars.None? && r.forks.None? && r.openIssues.None? && r.language.None?
    && r.description.None? && r.homepage.None? && r.license.None?
  }

  const ApiReposPrefix: string := "https://api.github.com/repos/"

  /** The repository endpoint of the REST API. */
  function RepoApiUrl(owner: string, repo: string): (u: string)
    ensures StartsWith(u, ApiReposPrefix) && |u| == |ApiReposPrefix| + |owner| + 1 + |repo|
  {
    ApiReposPrefix + owner + "/" + repo
  }

  /** getRepoInfo. */
  function GetRepoInfo(owner: string, repo: string, fetch: string -> HttpReply<RepoPayload>): (r: RepoInfo)
    ensures var reply := fetch(RepoApiUrl(owner, repo));
      && (r.error.None? <==> reply.Response? && IsOk(reply.status) && reply.body.Parsed?)
      && (r.error.Some? ==> AllNullRepoInfo(r))
      && (reply.Response? && !IsOk(reply.status) ==> r.error == Some("GitHub API error: " + IntToString(reply.status)))
      && (reply.Failed? ==> r.error == Some("Network error: " + reply.message))
      && (reply.Response? && IsOk(reply.status) && reply.body.Parsed? ==>
            var d := reply.body.value;
            && r.stars == d.stargazersCount && r.forks == d.forksCount && r.openIssues == d.openIssuesCount
            && r.language == d.language && r.description == d.description && r.license == d.licenseName
            && (r.homepage.Some? <==> d.homepage.Some? && d.homepage.value != "")
            && (r.homepage.Some? ==> r.homepage == d.homepage))
  {
    match fetch(RepoApiUrl(owner, repo))
    case Failed(message) => NullRepoInfo("Network error: " + message)
    case Response(status, body) =>
      if !IsOk(status) then NullRepoInfo("GitHub API error: " + IntToString(status))
      else match body
        case Unparseable(message) => NullRepoInfo("Network error: " + message)
        case Parsed(d) =>
          RepoInfo(d.stargazersCount, d.forksCount, d.openIssuesCount, d.language, d.description,
                   if d.homepage == Some("") then None else d.homepage,   // `homepage || null`
                   d.licenseName, None)
  }

  // ---------------------------------------------------------------- latest release

  /** ReleaseInfo. */
  datatype ReleaseInfo = ReleaseInfo(
    latestVersion: Option<string>, releaseName: Option<string>, releaseDate: Option<string>,
    releaseUrl: Option<string>, error: Option<string>)

  /** The fields of the latest-release JSON that are read. */
  datatype ReleasePayload = ReleasePayload(
    tagName: Option<string>, name: Option<string>, publishedAt: Option<string>, htmlUrl: Option<string>)

  function NullReleaseInfo(error: string): ReleaseInfo {
    ReleaseInfo(None, None, None, None, Some(error))
  }

  predicate AllNullReleaseInfo(r: ReleaseInfo) {
    r.latestVersion.None? && r.releaseName.None? && r.releaseDate.None? && r.releaseUrl.None?
  }

  function ReleaseApiUrl(owner: string, repo: string): string {
    "https://api.github.com/repos/" + owner + "/" + repo + "/releases/latest"
  }

  function TagsApiUrl(owner: string, repo: string): string {
    "https://api.github.com/repos/" + owner + "/" + repo + "/tags"
  }

  /** The web page of a tag's release. */
  function TagPageUrl(owner: string, repo: string, tag: string): (u: string)
    ensures StartsWith(u, GithubPrefix) && |u| == |GithubPrefix| + |owner| + |repo| + 15 + |tag|
  {
    GithubPrefix + owner + "/" + repo + "/releases/tag/" + tag
  }

  /** getLatestTag: the first tag of the list (the list's own order), named "Tag: <name>", undated. */
  function GetLatestTag(owner: string, repo: string, fetchTags: string -> HttpReply<seq<string>>): (r: ReleaseInfo)
    ensures var reply := fetchTags(TagsApiUrl(owner, repo));
      && (r.error.None? <==> reply.Response? && IsOk(reply.status) && reply.body.Parsed? && reply.body.value != [])
      && (r.error.Some? ==> AllNullReleaseInfo(r))
      && (reply.Response? && !IsOk(reply.status) ==> r.error == Some("No releases or tags found"))
      && (reply.Response? && IsOk(reply.status) && reply.body == Parsed([]) ==> r.error == Some("No tags found"))
      // a thrown fetch or an unreadable body lands in the catch
      && (reply.Failed? ==> r.error == Some("Network error: " + reply.message))
      && (reply.Response? && IsOk(reply.status) && reply.body.Unparseable? ==>
            r.error == Some("Network error: " + reply.body.message))
      && (r.error.None? ==>
            var tag := reply.body.value[0];
            && r.latestVersion == Some(tag) && r.releaseName == Some("Tag: " + tag)
            && r.releaseDate.None? && r.releaseUrl == Some(TagPageUrl(owner, repo, tag)))
  {
    match fetchTags(TagsApiUrl(owner, repo))
    case Failed(message) => NullReleaseInfo("Network error: " + message)
    case Response(status, body) =>
      if !IsOk(status) || status == 404 then NullReleaseInfo("No releases or tags found")
      else match body
        case Unparseable(message) => NullReleaseInfo("Network error: " + message)
        case Parsed(tags) =>
          if |tags| == 0 then NullReleaseInfo("No tags found")
          else
            var tag := tags[0];
            ReleaseInfo(Some(tag), Some("Tag: " + tag), None, Some(TagPageUrl(owner, repo, tag)), None)
  }

  /** getLatestRelease: a 404 (no release) falls back to the latest tag; any other failure does not. */
  function GetLatestRelease(owner: string, repo: string,
                            fetchRelease: string -> HttpReply<ReleasePayload>,
                            fetchTags: string -> HttpReply<seq<string>>): (r: ReleaseInfo)
    ensures var reply := fetchRelease(ReleaseApiUrl(owner, repo));
      && (reply.Response? && reply.status == 404 ==> r == GetLatestTag(owner, repo, fetchTags))
      && (reply.Response? && !IsOk(reply.status) && reply.status != 404 ==> r == NullReleaseInfo("No releases found"))
      && (reply.Failed? ==> r == NullReleaseInfo("Network error: " + reply.message))
      && (reply.Response? && IsOk(reply.status) && reply.body.Parsed? ==>
            var d := reply.body.value;
            r == ReleaseInfo(d.tagName, d.name, d.publishedAt, d.htmlUrl, None))
      && (r.error.Some? ==> AllNullReleaseInfo(r))
  {
    match fetchRelease(ReleaseApiUrl(owner, repo))
    case Failed(message) => NullReleaseInfo("Network error: " + message)
    case Response(status, body) =>
      if !IsOk(status) then
        if status == 404 then GetLatestTag(owner, repo, fetchTags)
        else NullReleaseInfo("No releases found")
      else match body
        case Unparseable(message) => NullReleaseInfo("Network error: " + message)
        case Parsed(d) => ReleaseInfo(d.tagName, d.name, d.publishedAt, d.htmlUrl, None)
  }

  /** The tags endpoint matters only when the release endpoint answered 404. */
  lemma TagsOnlyAfter404(owner: string, repo: string, fetchRelease: string -> HttpReply<ReleasePayload>,
                         tags1: string -> HttpReply<seq<string>>, tags2: string -> HttpReply<seq<string>>)
    requires !(fetchRelease(ReleaseApiUrl(owner, repo)).Response? && fetchRelease(ReleaseApiUrl(owner, repo)).status == 404)
    ensures GetLatestRelease(owner, repo, fetchRelease, tags1) == GetLatestRelease(owner, repo, fetchRelease, tags2)
  {
  }

  // ---------------------------------------------------------------- README

  /** ReadmeResult: the README text, or no text and the reason. */
  datatype ReadmeResult = ReadmeResult(content: Option<string>, error: Option<string>)

  /** The branches probed, in order. */
  const Branches: seq<string> := ["main", "master"]

  const RawPrefix: string := "https://raw.githubusercontent.com/"

  /** The raw README file of a branch. */
  function ReadmeUrl(owner: string, repo: string, branch: string): (u: string)
    ensures StartsWith(u, RawPrefix) && |u| == |RawPrefix| + |owner| + |repo| + |branch| + 12
    ensures u[|u| - 10..] == "/README.md"
  {
    RawPrefix + owner + "/" + repo + "/" + branch + "/README.md"
  }

  function ReadmeUrls(owner: string, repo: string): (urls: seq<string>)
    ensures |urls| == |Branches|
    ensures forall k :: 0 <= k < |urls| ==> urls[k] == ReadmeUrl(owner, repo, Branches[k])
  {
    [ReadmeUrl(owner, repo, Branches[0]), ReadmeUrl(owner, repo, Branches[1])]
  }

  /** Equal repository endpoints (for slash-free owners) name the same owner and repository. */
  lemma RepoApiUrlIdentifies(o1: string, r1: string, o2: string, r2: string)
    requires SlashFree(o1) && SlashFree(o2) && RepoApiUrl(o1, r1) == RepoApiUrl(o2, r2)
    ensures o1 == o2 && r1 == r2
  {
    JoinedAfterPrefix(ApiReposPrefix, o1, r1, o2, r2);
  }

  /** Equal tag pages (for slash-free owners and repositories) name the same repository and tag. */
  lemma TagPageUrlIdentifies(o1: string, r1: string, t1: string, o2: string, r2: string, t2: string)
    requires SlashFree(o1) && SlashFree(o2) && SlashFree(r1) && SlashFree(r2)
    requires TagPageUrl(o1, r1, t1) == TagPageUrl(o2, r2, t2)
    ensures o1 == o2 && r1 == r2 && t1 == t2
  {
    var rest1, rest2 := "releases/tag/" + t1, "releases/tag/" + t2;
    assert "/releases/tag/" == "/" + "releases/tag/";
    Regroup(GithubPrefix, o1, r1, "releases/tag/", t1);
    Regroup(GithubPrefix, o2, r2, "releases/tag/", t2);
    JoinedAfterPrefix(GithubPrefix, o1, r1 + "/" + rest1, o2, r2 + "/" + rest2);
    SlashJoinInjective(r1, rest1, r2, rest2);
    assert t1 == rest1[13..] && t2 == rest2[13..];
  }

  /** Equal README URLs (for slash-free owners and repositories) name the same repository and branch. */
  lemma ReadmeUrlIdentifies(o1: string, r1: string, b1: string, o2: string, r2: string, b2: string)
    requires SlashFree(o1) && SlashFree(o2) && SlashFree(r1) && SlashFree(r2)
    requires ReadmeUrl(o1, r1, b1) == ReadmeUrl(o2, r2, b2)
    ensures o1 == o2 && r1 == r2 && b1 == b2
  {
    var rest1, rest2 := b1 + "/README.md", b2 + "/README.md";
    Regroup(RawPrefix, o1, r1, b1, "/README.md");
    Regroup(RawPrefix, o2, r2, b2, "/README.md");
    JoinedAfterPrefix(RawPrefix, o1, r1 + "/" + rest1, o2, r2 + "/" + rest2);
    SlashJoinInjective(r1, rest1, r2, rest2);
    assert b1 == rest1[..|b1|] && b2 == rest2[..|b2|];
  }

  /** Regrouping a URL after its owner. */
  lemma Regroup(prefix: string, o: string, r: string, b: string, x: string)
    ensures prefix + o + "/" + r + "/" + b + x == prefix + o + "/" + (r + "/" + (b + x))
    ensures prefix + o + "/" + r + ("/" + b) + x == prefix + o + "/" + (r + "/" + (b + x))
  {
  }

  /** Two prefixed joins that are equal have equal halves. */
  lemma JoinedAfterPrefix(prefix: string, a1: string, b1: string, a2: string, b2: string)
    requires SlashFree(a1) && SlashFree(a2)
    requires prefix + a1 + "/" + b1 == prefix + a2 + "/" + b2
    ensures a1 == a2 && b1 == b2
  {
    assert prefix + a1 + "/" + b1 == prefix + (a1 + "/" + b1);
    assert prefix + a2 + "/" + b2 == prefix + (a2 + "/" + b2);
    assert (prefix + (a1 + "/" + b1))[|prefix|..] == a1 + "/" + b1;
    assert (prefix + (a2 + "/" + b2))[|prefix|..] == a2 + "/" + b2;
    SlashJoinInjective(a1, b1, a2, b2);
  }

  /** A slash-free part before the first slash is determined, and so is the rest. */
  lemma SlashJoinInjective(a1: string, b1: string, a2: string, b2: string)
    requires SlashFree(a1) && SlashFree(a2)
    requires a1 + "/" + b1 == a2 + "/" + b2
    ensures a1 == a2 && b1 == b2
  {
    var x := a1 + "/" + b1;
    assert x == a1 + ("/" + b1) && x == a2 + ("/" + b2);
    SlashFreeLengthOf(a1, "/" + b1);
    SlashFreeLengthOf(a2, "/" + b2);
    assert a1 == x[..|a1|] && a2 == x[..|a2|];
    assert b1 == x[|a1| + 1..] && b2 == x[|a2| + 1..];
  }

  function NetworkReadmeError(message: string): ReadmeResult {
    ReadmeResult(None, Some("Network error fetching README: " + message))
  }

  /**
   * What one probe decides: `None` to try the next branch (an HTTP error status), otherwise
   * the final result (the text of an OK response, or the network error that ends the probing).
   */
  function Probe(reply: HttpReply<string>): (r: Option<ReadmeResult>)
    ensures r.None? <==> reply.Response? && !IsOk(reply.status)
    ensures r.Some? && r.value.content.Some? <==> reply.Response? && IsOk(reply.status) && reply.body.Parsed?
  {
    match reply
    case Failed(message) => Some(NetworkReadmeError(message))
    case Response(status, body) =>
      if !IsOk(status) then None
      else match body
        case Parsed(text) => Some(ReadmeResult(Some(text), None))
        case Unparseable(message) => Some(NetworkReadmeError(message))
  }

  const ReadmeNotFound: string := "README not found in main or master branch"

  /** The README a URL yields: the first branch whose probe decides, or "not found" when neither does. */
  function ReadmeOf(githubUrl: string, fetch: string -> HttpReply<string>): (r: ReadmeResult)
    ensures r.content.Some? <==> r.error.None?
    ensures ParseGithubUrl(githubUrl).None? ==> r == ReadmeResult(None, Some("Invalid GitHub URL format"))
    ensures ParseGithubUrl(githubUrl).Some? ==>
      var urls := ReadmeUrls(ParseGithubUrl(githubUrl).value.owner, ParseGithubUrl(githubUrl).value.repo);
      && (Probe(fetch(urls[0])).Some? ==> r == Probe(fetch(urls[0])).value)
      && (Probe(fetch(urls[0])).None? && Probe(fetch(urls[1])).Some? ==> r == Probe(fetch(urls[1])).value)
      && (Probe(fetch(urls[0])).None? && Probe(fetch(urls[1])).None? ==> r == ReadmeResult(None, Some(ReadmeNotFound)))
  {
    match ParseGithubUrl(githubUrl)
    case None => ReadmeResult(None, Some("Invalid GitHub URL format"))
    case Some(RepoRef(owner, repo)) =>
      var urls := ReadmeUrls(owner, repo);
      if Probe(fetch(urls[0])).Some? then Probe(fetch(urls[0])).value
      else if Probe(fetch(urls[1])).Some? then Probe(fetch(urls[1])).value
      else ReadmeResult(None, Some(ReadmeNotFound))
  }

  /**
   * The URLs requested for a README, in order: none for an unparseable URL, at most two,
   * and `master` only when `main` answered with an HTTP error status.
   */
  function ReadmeFetches(githubUrl: string, fetch: string -> HttpReply<string>): (urls: seq<string>)
    ensures |urls| <= 2
    ensures ParseGithubUrl(githubUrl).None? <==> urls == []
    ensures ParseGithubUrl(githubUrl).Some? ==>
      var all := ReadmeUrls(ParseGithubUrl(githubUrl).value.owner, ParseGithubUrl(githubUrl).value.repo);
      && urls[0] == all[0]
      && (|urls| == 2 <==> Probe(fetch(all[0])).None?)
      && (|urls| == 2 ==> urls[1] == all[1])
  {
    match ParseGithubUrl(githubUrl)
    case None => []
    case Some(RepoRef(owner, repo)) =>
      var all := ReadmeUrls(owner, repo);
      if Probe(fetch(all[0])).Some? then all[..1] else all
  }

  /** getReadmeContent: probes the branches in order and stops at the first probe that decides. */
  method GetReadmeContent(githubUrl: string, fetch: string -> HttpReply<string>)
    returns (r: ReadmeResult, fetched: seq<string>)
    ensures r == ReadmeOf(githubUrl, fetch)
    ensures fetched == ReadmeFetches(githubUrl, fetch)
  {
    fetched := [];
    var parsed := ParseGithubUrl(githubUrl);
    if parsed.None? {
      return ReadmeResult(None, Some("Invalid GitHub URL format")), fetched;
    }
    var urls := ReadmeUrls(parsed.value.owner, parsed.value.repo);
    for i := 0 to |Branches|
      invariant fetched == urls[..i]
      invariant forall k :: 0 <= k < i ==> Probe(fetch(urls[k])).None?
    {
      var url := ReadmeUrl(parsed.value.owner, parsed.value.repo, Branches[i]);
      fetched := fetched + [url];
      var reply := fetch(url);
      match reply {
        case Failed(message) =>
          return NetworkReadmeError(message), fetched;
        case Response(status, body) =>
          if IsOk(status) {
            match body {
              case Parsed(text) => return ReadmeResult(Some(text), None), fetched;
              case Unparseable(message) => return NetworkReadmeError(message), fetched;
            }
          }
      }
    }
    r := ReadmeResult(None, Some(ReadmeNotFound));
  }

  /** When `main` has the README, `master` is never requested and cannot change the result. */
  lemma MainWins(owner: string, repo: string, text: string, status: int, fetch: string -> HttpReply<string>)
    requires owner != "" && repo != "" && SlashFree(owner) && SlashFree(repo) && IsOk(status)
    requires fetch(ReadmeUrl(owner, repo, "main")) == Response(status, Parsed(text))
    ensures var url := GithubPrefix + owner + "/" + repo;
      && ReadmeOf(url, fetch) == ReadmeResult(Some(text), None)
      && ReadmeFetches(url, fetch) == [ReadmeUrl(owner, repo, "main")]
  {
    ParseGithubUrlRoundTrip(owner, repo);
  }

  // ---------------------------------------------------------------- all together

  datatype FullRepoData = FullRepoData(repoInfo: RepoInfo, releaseInfo: ReleaseInfo, readme: ReadmeResult)

  /**
   * getFullRepoData: an unparseable URL yields the "Invalid URL" results without any request;
   * otherwise the three independent results, each exactly what its own operation yields.
   */
  method GetFullRepoData(githubUrl: string,
                         fetchRepo: string -> HttpReply<RepoPayload>,
                         fetchRelease: string -> HttpReply<ReleasePayload>,
                         fetchTags: string -> HttpReply<seq<string>>,
                         fetchReadme: string -> HttpReply<string>)
    returns (data: FullRepoData, readmeFetched: seq<string>)
    ensures ParseGithubUrl(githubUrl).None? ==>
      && data == FullRepoData(NullRepoInfo("Invalid URL"), NullReleaseInfo("Invalid URL"),
                              ReadmeResult(None, Some("Invalid GitHub URL format")))
      && readmeFetched == []
    ensures ParseGithubUrl(githubUrl).Some? ==>
      var o, rp := ParseGithubUrl(githubUrl).value.owner, ParseGithubUrl(githubUrl).value.repo;
      && data.repoInfo == GetRepoInfo(o, rp, fetchRepo)
      && data.releaseInfo == GetLatestRelease(o, rp, fetchRelease, fetchTags)
      && data.readme == ReadmeOf(githubUrl, fetchReadme)
      && readmeFetched == ReadmeFetches(githubUrl, fetchReadme)
  {
    var parsed := ParseGithubUrl(githubUrl);
    if parsed.None? {
      data := FullRepoData(NullRepoInfo("Invalid URL"), NullReleaseInfo("Invalid URL"),
                           ReadmeResult(None, Some("Invalid GitHub URL format")));
      readmeFetched := [];
      return;
    }
    var repoInfo := GetRepoInfo(parsed.value.owner, parsed.value.repo, fetchRepo);
    var releaseInfo := GetLatestRelease(parsed.value.owner, parsed.value.repo, fetchRelease, fetchTags);
    var readme;
    readme, readmeFetched := GetReadmeContent(githubUrl, fetchReadme);
    data := FullRepoData(repoInfo, releaseInfo, readme);
  }
}
