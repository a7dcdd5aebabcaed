/**
 * The GitHub summarizer endpoint (blingo/app/api/github-summarizer/route.ts): API-key
 * extraction from the request headers, the optional development bypass, key validation against
 * the quota, body and input checks, the README fetch, the usage charge, the summary, and the
 * JSON reply.
 *
 * What the outside world answers is an input: the deployment's bypass flag, the key store (a
 * `KeyStore`, whose usage counter the handler charges), the store's faults, the HTTP replies
 * for README requests, and the outcome of the model call. The handler's own README fetch is
 * the same loop over `main` and `master`, with the same URL pattern, as `GitHub.GetReadmeContent`,
 * which it uses here. Besides its reply, `Post` returns the steps it took that reach the outside
 * world, in order, so that their order can be stated.
 */
module SummarizerRoute {
  import opened Wrappers
  import opened Text
  import opened RateLimit
  import opened GitHub
  import opened Chain

  /** The two request headers a key can come from. */
  datatype Headers = Headers(xApiKey: Option<string>, authorization: Option<string>)

  /** The request body: not JSON at all, or a JSON object with the two (string) fields the handler reads. */
  datatype RequestBody = Malformed | Json(githubUrl: Option<string>, readmeContent: Option<string>)

  /** The JSON objects the handler replies with; an `Option` field is `null` (or an absent key) when `None`. */
  datatype ResponseBody =
    | ErrorBody(error: string)
    | RateLimitBody(error: string, usedSoFar: Option<int>, limit: int)
    | ReadyBody(message: string, usage: int, limit: int, remaining: int)
      /** `success: false, hasReadme: false, summary: null, cool_facts: []` and these two fields. */
    | NoReadmeBody(githubUrl: Option<string>, error: string)
      /** `hasReadme: true`; `mock` is present only when true, `error` (here `summaryError`) only when `Some`. */
    | SummaryBody(success: bool, githubUrl: Option<string>, readmePreview: string, summary: Option<string>,
                  coolFacts: seq<string>, usage: int, limit: int, remaining: int, mock: bool, summaryError: Option<string>)

  datatype Reply = Reply(status: int, body: ResponseBody)

  /** A step of the handler that reaches the outside world. */
  datatype Step = StoreLookup(key: string) | ReadmeRequest(url: string) | Charge(keyId: string) | Summarize

  const BypassPrefix: string := "blingo-"

  /** JavaScript's `s || fallback` on an optional string: the empty string counts as absent. */
  function OrElse(s: Option<string>, fallback: string): (r: string)
    ensures r == fallback || (s.Some? && r == s.value && r != "")
    ensures s.Some? && s.value != "" ==> r == s.value
  {
    if s.Some? && s.value != "" then s.value else fallback
  }

  /** JavaScript's `s || null` on an optional string. */
  function NonEmpty(s: Option<string>): (r: Option<string>)
    ensures r.Some? <==> s.Some? && s.value != ""
    ensures r.Some? ==> r == s
  {
    if s.Some? && s.value != "" then s else None
  }

  /**
   * getApiKeyFromRequest: a non-empty `x-api-key` header wins; otherwise the `Authorization`
   * header with its first "Bearer " removed (wherever it occurs); an empty result is no key.
   */
  function GetApiKeyFromRequest(xApiKey: Option<string>, authorization: Option<string>): (r: Option<string>)
    ensures r.Some? ==> r.value != ""
    ensures xApiKey.Some? && xApiKey.value != "" ==> r == xApiKey
    ensures (xApiKey.None? || xApiKey.value == "") ==>
      (r.Some? <==> authorization.Some? && ReplaceFirst(authorization.value, "Bearer ", "") != "")
      && (r.Some? ==> r.value == ReplaceFirst(authorization.value, "Bearer ", ""))
  {
    if xApiKey.Some? && xApiKey.value != "" then xApiKey
    else if authorization.Some? && ReplaceFirst(authorization.value, "Bearer ", "") != ""
    then Some(ReplaceFirst(authorization.value, "Bearer ", ""))
    else None
  }

  /** A bearer token, alone in the request, is the key; an empty one is no key. */
  lemma BearerTokenIsKey(token: string)
    ensures GetApiKeyFromRequest(None, Some("Bearer " + token)) == if token == "" then None else Some(token)
  {
    ReplaceFirstPrefix("Bearer ", token);
  }

  /** The key carried by a request. */
  function KeyOf(headers: Headers): Option<string> {
    GetApiKeyFromRequest(headers.xApiKey, headers.authorization)
  }

  /** The development bypass: only when the deployment enables it AND the key has the product prefix. */
  predicate IsDevBypass(devBypassFlag: bool, apiKey: Option<string>) {
    devBypassFlag && apiKey.Some? && StartsWith(apiKey.value, BypassPrefix)
  }

  /**
   * The bypass needs the flag and a key with the prefix: with the flag set, a prefixed key
   * bypasses from either header, a key of another form does not, and without the flag no request does.
   */
  lemma BypassFromHeaders(t: string, authorization: Option<string>, headers: Headers)
    ensures IsDevBypass(true, KeyOf(headers)) <==> KeyOf(headers).Some? && BypassPrefix <= KeyOf(headers).value
    ensures IsDevBypass(true, KeyOf(Headers(Some(BypassPrefix + t), authorization)))
    ensures IsDevBypass(true, KeyOf(Headers(None, Some("Bearer " + BypassPrefix + t))))
    ensures !IsDevBypass(false, KeyOf(headers))
  {
    assert BypassPrefix + t != "";
    assert "Bearer " + BypassPrefix + t == "Bearer " + (BypassPrefix + t);
    BearerTokenIsKey(BypassPrefix + t);
    assert StartsWith(BypassPrefix + t, BypassPrefix);
  }

  /**
   * The handler's URL check `^https:\/\/github\.com\/[^\/]+\/[^\/]+` (no end anchor): the
   * prefix, a non-empty slash-free owner, a slash, and one more character that is not a slash.
   */
  predicate HasRepoShape(url: string) {
    StartsWith(url, GithubPrefix)
    && var rest := url[|GithubPrefix|..];
       var i := SlashFreeLength(rest);
       0 < i && i + 1 < |rest| && rest[i + 1] != '/'
  }

  /** Every URL of the form prefix, owner, slash, a non-slash character, anything: the regex matches. */
  lemma RepoShapeOf(owner: string, c: char, tail: string)
    requires owner != "" && SlashFree(owner) && c != '/'
    ensures HasRepoShape(GithubPrefix + owner + "/" + [c] + tail)
  {
    var url := GithubPrefix + owner + "/" + [c] + tail;
    var after := "/" + [c] + tail;
    assert url == GithubPrefix + (owner + after);
    assert url[|GithubPrefix|..] == owner + after;
    SlashFreeLengthOf(owner, after);
    assert (owner + after)[|owner| + 1] == c;
  }

  /** Conversely, a URL that passes is of that form, split at the owner's end. */
  lemma RepoShapeParts(url: string)
    requires HasRepoShape(url)
    ensures var rest := url[|GithubPrefix|..];
      var i := SlashFreeLength(rest);
      && rest[..i] != "" && SlashFree(rest[..i]) && rest[i + 1] != '/'
      && url == GithubPrefix + rest[..i] + "/" + [rest[i + 1]] + rest[i + 2..]
  {
    var rest := url[|GithubPrefix|..];
    var i := SlashFreeLength(rest);
    assert rest == rest[..i] + "/" + [rest[i + 1]] + rest[i + 2..];
    assert url == GithubPrefix + rest;
  }

  /** Every URL the README fetch can parse passes the handler's check. */
  lemma ParsedUrlHasShape(url: string)
    requires ParseGithubUrl(url).Some?
    ensures HasRepoShape(url)
  {
    var r := ParseGithubUrl(url).value;
    PartsHaveShape(url, r.owner, r.repo);
  }

  /** A URL that starts with the prefix, an owner, a slash and a repository passes the check. */
  lemma PartsHaveShape(url: string, o: string, rp: string)
    requires o != "" && rp != "" && SlashFree(o) && SlashFree(rp)
    requires StartsWith(url, GithubPrefix + o + "/" + rp)
    ensures HasRepoShape(url)
  {
    var head := GithubPrefix + o + "/" + rp;
    var tail := url[|head|..];
    assert url == head + tail;
    assert rp == [rp[0]] + rp[1..];
    assert url == GithubPrefix + o + "/" + [rp[0]] + (rp[1..] + tail);
    RepoShapeOf(o, rp[0], rp[1..] + tail);
  }

  /**
   * The converse fails: the check has no end anchor, so a URL whose tail crosses a line passes
   * it, and the fetch then reports the URL as invalid.
   */
  lemma ShapeWithoutParse()
    ensures HasRepoShape("https://github.com/o/r/\n")
    ensures ParseGithubUrl("https://github.com/o/r/\n").None?
  {
    var url := "https://github.com/o/r/\n";
    assert StartsWith(url, GithubPrefix);
    var rest := url[|GithubPrefix|..];
    assert rest == "o" + "/r/\n";
    SlashFreeLengthOf("o", "/r/\n");
    // the repository "r" is followed by "/\n", which is not a tail of one line
    var after := rest[2..];
    assert after == "r" + "/\n";
    SlashFreeLengthOf("r", "/\n");
    assert after[1..] == "/\n";
    assert IsLineTerminator("/\n"[1]);
  }

  /** The reply's `readmePreview`: the first 500 characters, and "..." when there were more. */
  function ReadmePreview(content: string): (r: string)
    ensures |content| <= 500 ==> r == content
    ensures |content| > 500 ==> |r| == 503 && r[..500] == content[..500] && r[500..] == "..."
  {
    if |content| > 500 then content[..500] + "..." else content
  }

  /** The body of a 429 or 401 reply, or `None` when the key passed. */
  function AuthGate(v: ValidateResult, rateLimitFallback: string): (r: Option<Reply>)
    ensures r.None? <==> v.valid && !v.rateLimited
    ensures v.rateLimited ==>
      r.Some? && r.value.status == 429 && r.value.body.RateLimitBody?
      && r.value.body.limit == DefaultRateLimit
      && r.value.body.error == OrElse(v.error, rateLimitFallback)
      && r.value.body.usedSoFar == (if v.keyData.Some? then Some(v.keyData.value.usage) else None)
    ensures !v.rateLimited && !v.valid ==> r == Some(Reply(401, ErrorBody(OrElse(v.error, "Unauthorized"))))
  {
    if v.rateLimited then
      Some(Reply(429, RateLimitBody(OrElse(v.error, rateLimitFallback),
        if v.keyData.Some? then Some(v.keyData.value.usage) else None, DefaultRateLimit)))
    else if !v.valid then Some(Reply(401, ErrorBody(OrElse(v.error, "Unauthorized"))))
    else None
  }

  /** Validation of a request's key against the default quota. */
  function Validation(headers: Headers, lookup: Lookup<Option<ApiKeyData>>): ValidateResult {
    ValidateApiKeyWithRateLimit(KeyOf(headers).GetOr(""), DefaultRateLimit, lookup)
  }

  /**
   * A request without a key is checked as the empty key, which is refused before the store is
   * asked; a request with one passes exactly when the store has the key below the limit.
   */
  lemma ValidationOfHeaders(headers: Headers, lookup: Lookup<Option<ApiKeyData>>)
    ensures KeyOf(headers).None? ==> Validation(headers, lookup) == Rejected("API key is required")
    ensures Validation(headers, lookup).valid <==>
      KeyOf(headers).Some? && lookup.Rows? && lookup.value.Some? && lookup.value.value.usage < DefaultRateLimit
    ensures Validation(headers, lookup).rateLimited <==>
      KeyOf(headers).Some? && lookup.Rows? && lookup.value.Some? && DefaultRateLimit <= lookup.value.value.usage
  {
  }

  // ---------------------------------------------------------------- GET

  const DevReadyMessage: string := "GitHub Summarizer API is ready (DEV MODE)."
  const ReadyMessage: string := "GitHub Summarizer API is ready. Use POST with a githubUrl in the body."

  /** GET: the status of the key, without charging it. `lookup` is what the store answers for the key. */
  function Get(devBypassFlag: bool, headers: Headers, lookup: Lookup<Option<ApiKeyData>>): (r: Reply)
    ensures r.status == 200 || r.status == 401 || r.status == 429
    ensures IsDevBypass(devBypassFlag, KeyOf(headers)) ==>
      r == Reply(200, ReadyBody(DevReadyMessage, 0, DefaultRateLimit, DefaultRateLimit))
    ensures !IsDevBypass(devBypassFlag, KeyOf(headers)) ==>
      var v := Validation(headers, lookup);
      && (r.status == 200 <==> v.valid)
      && (r.status == 429 <==> v.rateLimited)
      && (v.valid ==> r.body == ReadyBody(ReadyMessage, v.keyData.value.usage, DefaultRateLimit,
                                          DefaultRateLimit - v.keyData.value.usage))
    // a ready reply for a real key always has at least one request left
    ensures r.status == 200 ==> r.body.ReadyBody? && r.body.remaining >= 1
  {
    if IsDevBypass(devBypassFlag, KeyOf(headers)) then
      Reply(200, ReadyBody(DevReadyMessage, 0, DefaultRateLimit, DefaultRateLimit))
    else
      var v := Validation(headers, lookup);
      match AuthGate(v, "Rate limit exceeded")
      case Some(reply) => reply
      case None =>
        var usage := v.keyData.value.usage;
        Reply(200, ReadyBody(ReadyMessage, usage, DefaultRateLimit, DefaultRateLimit - usage))
  }

  // ---------------------------------------------------------------- POST, stage by stage

  const PostRateLimitFallback: string := "Rate limit exceeded. Please upgrade your plan or contact support."
  const InvalidUrlMessage: string := "Invalid GitHub URL format. Expected: https://github.com/owner/repo"
  const MissingInputMessage: string := "Either githubUrl or readmeContent is required"
  const NoReadmeMessage: string := "No README found in this repository."

  /** Where the README comes from, or the 400 reply that ends the request. */
  datatype Plan = Reject(response: Reply) | UseProvided(content: string) | FetchFrom(url: string)

  /** The body and input checks, in the source's order; a provided README wins over a URL. */
  function ChooseInput(body: RequestBody): (r: Plan)
    ensures r.Reject? ==> r.response.status == 400 && r.response.body.ErrorBody?
    ensures body.Malformed? ==> r == Reject(Reply(400, ErrorBody("Invalid JSON body")))
    ensures r.UseProvided? <==> body.Json? && body.readmeContent.Some? && body.readmeContent.value != ""
    ensures r.UseProvided? ==> r.content == body.readmeContent.value
    ensures r.FetchFrom? ==> body.Json? && body.githubUrl == Some(r.url) && HasRepoShape(r.url)
    ensures body.Json? && !r.UseProvided? ==>
      (body.githubUrl.Some? && body.githubUrl.value != "" && HasRepoShape(body.githubUrl.value) ==> r.FetchFrom?)
      && (body.githubUrl.Some? && body.githubUrl.value != "" && !HasRepoShape(body.githubUrl.value) ==>
            r == Reject(Reply(400, ErrorBody(InvalidUrlMessage))))
      && (body.githubUrl.None? || body.githubUrl.value == "" ==> r == Reject(Reply(400, ErrorBody(MissingInputMessage))))
  {
    match body
    case Malformed => Reject(Reply(400, ErrorBody("Invalid JSON body")))
    case Json(githubUrl, provided) =>
      if provided.Some? && provided.value != "" then UseProvided(provided.value)
      else if githubUrl.Some? && githubUrl.value != "" then
        if HasRepoShape(githubUrl.value) then FetchFrom(githubUrl.value)
        else Reject(Reply(400, ErrorBody(InvalidUrlMessage)))
      else Reject(Reply(400, ErrorBody(MissingInputMessage)))
  }

  /** The reply after a summary: `usage` is what the key will have used, counting this request. */
  function SummaryReply(githubUrl: Option<string>, content: string, s: SummaryResult, usage: int): (r: ResponseBody)
    ensures r.SummaryBody? && r.limit == DefaultRateLimit && r.usage + r.remaining == DefaultRateLimit
    ensures r.usage == usage && r.readmePreview == ReadmePreview(content) && r.githubUrl == NonEmpty(githubUrl)
    ensures r.success == s.success && r.summary == s.summary && r.coolFacts == s.coolFacts
    ensures r.mock == s.mock
    // an empty error message leaves the key out
    ensures r.summaryError.Some? <==> s.error.Some? && s.error.value != ""
    ensures r.summaryError.Some? ==> r.summaryError == s.error
  {
    SummaryBody(s.success, NonEmpty(githubUrl), ReadmePreview(content), s.summary, s.coolFacts,
                usage, DefaultRateLimit, DefaultRateLimit - usage, s.mock, NonEmpty(s.error))
  }

  /** The requests made for a list of URLs. */
  function Requests(urls: seq<string>): (r: seq<Step>)
    ensures |r| == |urls| && forall i :: 0 <= i < |r| ==> r[i] == ReadmeRequest(urls[i])
  {
    seq(|urls|, i requires 0 <= i < |urls| => ReadmeRequest(urls[i]))
  }

  /** The store is asked about a key only when there is a key and a store. */
  function LookupSteps(key: string, lookup: Lookup<Option<ApiKeyData>>): (r: seq<Step>)
    ensures r == [] || r == [StoreLookup(key)]
    ensures r != [] <==> key != "" && !lookup.NotConfigured?
  {
    if key != "" && !lookup.NotConfigured? then [StoreLookup(key)] else []
  }

  /** What a POST replies, which steps it takes, and which key it charges. */
  datatype PostOutcome = PostOutcome(response: Reply, trace: seq<Step>, charge: Option<string>)

  /** Steps that change nothing: no charge and no model call among them. */
  predicate NoEffects(t: seq<Step>) {
    forall i :: 0 <= i < |t| ==> !t[i].Charge? && !t[i].Summarize?
  }

  /**
   * The model is called at most once, as the very last step; the only charge, if any, is the
   * step just before it, and a charge is always followed by the call.
   */
  predicate ChargeThenSummary(t: seq<Step>, charge: Option<string>) {
    && (forall i :: 0 <= i < |t| && t[i].Summarize? ==> i == |t| - 1)
    && (forall i :: 0 <= i < |t| && t[i].Charge? ==> charge.Some? && i == |t| - 2)
    && (charge.Some? ==> |t| >= 2 && t[|t| - 2] == Charge(charge.value) && t[|t| - 1] == Summarize)
  }

  /**
   * What a summary reply says about the model: the mock is reported exactly when no credential
   * is configured (and then succeeds); with one, the model's summary and facts are passed on as
   * they are, or its failure is reported with its message (or the fallback) and no facts.
   */
  predicate ModelReflected(body: ResponseBody, credentialConfigured: bool, model: ModelOutcome) {
    body.SummaryBody? ==>
      && (body.mock <==> !credentialConfigured)
      && (!credentialConfigured ==> body.success && body.summaryError.None?)
      && (credentialConfigured && model.Returned? ==>
            && body.success && body.summary == Some(model.summary) && body.coolFacts == model.coolFacts
            && body.summaryError.None?)
      && (credentialConfigured && model.Raised? ==>
            && !body.success && body.summary.None? && body.coolFacts == []
            && body.summaryError == NonEmpty(Some(model.message.GetOr("Failed to summarize repository"))))
  }

  /** The tail of a POST once a README is in hand: charge the key if it has an id, then summarize. */
  function Summarized(steps: seq<Step>, githubUrl: Option<string>, content: string, keyData: Option<ApiKeyData>,
                      credentialConfigured: bool, model: ModelOutcome): (o: PostOutcome)
    requires NoEffects(steps)
    ensures o.charge.Some? <==> keyData.Some? && keyData.value.id != ""
    ensures o.charge.Some? ==> o.charge.value == keyData.value.id
    ensures |o.trace| == |steps| + 1 + (if o.charge.Some? then 1 else 0)
    ensures o.trace[..|steps|] == steps && ChargeThenSummary(o.trace, o.charge)
    ensures o.response.status == 200 && o.response.body.SummaryBody?
    ensures o.response.body.usage == (if keyData.Some? then keyData.value.usage else 0) + 1
    ensures o.response.body.remaining == DefaultRateLimit - o.response.body.usage
    ensures o.response.body == SummaryReply(githubUrl, content, SummarizeGithubRepo(content, credentialConfigured, model),
                                            (if keyData.Some? then keyData.value.usage else 0) + 1)
  {
    var charge := if keyData.Some? && keyData.value.id != "" then Some(keyData.value.id) else None;
    var usage := (if keyData.Some? then keyData.value.usage else 0) + 1;
    var s := SummarizeGithubRepo(content, credentialConfigured, model);
    PostOutcome(Reply(200, SummaryReply(githubUrl, content, s, usage)), ChargedTrace(steps, charge), charge)
  }

  /** The steps of a summary: those so far, the charge when there is one, then the model call. */
  function ChargedTrace(steps: seq<Step>, charge: Option<string>): (t: seq<Step>)
    requires NoEffects(steps)
    ensures |t| == |steps| + 1 + (if charge.Some? then 1 else 0)
    ensures t[..|steps|] == steps && ChargeThenSummary(t, charge)
  {
    steps + (if charge.Some? then [Charge(charge.value)] else []) + [Summarize]
  }

  /** The summary reply carries what the model (or the mock) produced. */
  lemma ReplyReflectsModel(githubUrl: Option<string>, content: string, credentialConfigured: bool,
                           model: ModelOutcome, usage: int)
    ensures ModelReflected(SummaryReply(githubUrl, content, SummarizeGithubRepo(content, credentialConfigured, model), usage),
                           credentialConfigured, model)
  {
    var s := SummarizeGithubRepo(content, credentialConfigured, model);
    var r := SummaryReply(githubUrl, content, s, usage);
  }

  /** After the README fetch: an absent or empty README ends the request with a 200 and no charge. */
  function WithReadme(steps: seq<Step>, githubUrl: Option<string>, readme: ReadmeResult, keyData: Option<ApiKeyData>,
                      credentialConfigured: bool, model: ModelOutcome): (o: PostOutcome)
    requires NoEffects(steps)
    ensures readme.content.None? || readme.content.value == "" ==>
      o == PostOutcome(Reply(200, NoReadmeBody(NonEmpty(githubUrl), OrElse(readme.error, NoReadmeMessage))), steps, None)
    ensures readme.content.Some? && readme.content.value != "" ==>
      o == Summarized(steps, githubUrl, readme.content.value, keyData, credentialConfigured, model)
  {
    if readme.content.None? || readme.content.value == "" then
      PostOutcome(Reply(200, NoReadmeBody(NonEmpty(githubUrl), OrElse(readme.error, NoReadmeMessage))), steps, None)
    else Summarized(steps, githubUrl, readme.content.value, keyData, credentialConfigured, model)
  }

  /** A POST whose key passed (or was bypassed): the body and input checks, the README, then the summary. */
  function Admitted(pre: seq<Step>, keyData: Option<ApiKeyData>, body: RequestBody,
                    fetch: string -> HttpReply<string>, credentialConfigured: bool, model: ModelOutcome): (o: PostOutcome)
    requires NoEffects(pre)
    ensures ChooseInput(body).Reject? ==> o == PostOutcome(ChooseInput(body).response, pre, None)
    ensures ChooseInput(body).UseProvided? ==>
      o == Summarized(pre, body.githubUrl, ChooseInput(body).content, keyData, credentialConfigured, model)
    ensures ChooseInput(body).FetchFrom? ==>
      var url := ChooseInput(body).url;
      o == WithReadme(pre + Requests(ReadmeFetches(url, fetch)), body.githubUrl, ReadmeOf(url, fetch), keyData,
                      credentialConfigured, model)
  {
    match ChooseInput(body)
    case Reject(reply) => PostOutcome(reply, pre, None)
    case UseProvided(content) => Summarized(pre, body.githubUrl, content, keyData, credentialConfigured, model)
    case FetchFrom(url) =>
      RequestsAfter(pre, ReadmeFetches(url, fetch));
      WithReadme(pre + Requests(ReadmeFetches(url, fetch)), body.githubUrl, ReadmeOf(url, fetch), keyData,
                 credentialConfigured, model)
  }

  /**
   * The shape of a request's end once it was admitted after the steps `pre`: it keeps those
   * steps, charges at most the key it was admitted with and only right before the model call,
   * charges nothing when no README was found, and reports the key's usage plus one.
   */
  predicate Shaped(o: PostOutcome, pre: seq<Step>, keyData: Option<ApiKeyData>,
                   credentialConfigured: bool, model: ModelOutcome) {
    && (o.charge.Some? ==> keyData.Some? && o.charge.value == keyData.value.id && o.charge.value != "")
    && |o.trace| >= |pre| && o.trace[..|pre|] == pre && ChargeThenSummary(o.trace, o.charge)
    && (o.response.body.NoReadmeBody? ==> o.response.status == 200 && o.charge.None? && NoEffects(o.trace))
    && (o.response.body.SummaryBody? ==>
          && o.response.body.usage == (if keyData.Some? then keyData.value.usage else 0) + 1
          && o.response.body.remaining == DefaultRateLimit - o.response.body.usage)
    && ModelReflected(o.response.body, credentialConfigured, model)
  }

  lemma SummarizedShaped(steps: seq<Step>, githubUrl: Option<string>, content: string, keyData: Option<ApiKeyData>,
                         credentialConfigured: bool, model: ModelOutcome)
    requires NoEffects(steps)
    ensures Shaped(Summarized(steps, githubUrl, content, keyData, credentialConfigured, model), steps, keyData,
                   credentialConfigured, model)
  {
    ReplyReflectsModel(githubUrl, content, credentialConfigured, model,
                       (if keyData.Some? then keyData.value.usage else 0) + 1);
  }

  lemma WithReadmeShaped(steps: seq<Step>, githubUrl: Option<string>, readme: ReadmeResult, keyData: Option<ApiKeyData>,
                         credentialConfigured: bool, model: ModelOutcome)
    requires NoEffects(steps)
    ensures Shaped(WithReadme(steps, githubUrl, readme, keyData, credentialConfigured, model), steps, keyData,
                   credentialConfigured, model)
  {
    if readme.content.None? || readme.content.value == "" {
      assert steps[..|steps|] == steps;
    } else {
      SummarizedShaped(steps, githubUrl, readme.content.value, keyData, credentialConfigured, model);
    }
  }

  /** Whatever kept a longer run of effect-free steps also kept each of its prefixes. */
  lemma ShapedPrefix(o: PostOutcome, steps: seq<Step>, pre: seq<Step>, keyData: Option<ApiKeyData>,
                     credentialConfigured: bool, model: ModelOutcome)
    requires Shaped(o, steps, keyData, credentialConfigured, model) && |pre| <= |steps| && steps[..|pre|] == pre
    ensures Shaped(o, pre, keyData, credentialConfigured, model)
  {
    PrefixOfPrefix(o.trace, steps, pre);
  }

  /** Every admitted request has the shape above. */
  lemma AdmittedShape(pre: seq<Step>, keyData: Option<ApiKeyData>, body: RequestBody,
                      fetch: string -> HttpReply<string>, credentialConfigured: bool, model: ModelOutcome)
    requires NoEffects(pre)
    ensures Shaped(Admitted(pre, keyData, body, fetch, credentialConfigured, model), pre, keyData,
                   credentialConfigured, model)
  {
    match ChooseInput(body)
    case Reject(reply) =>
      assert pre[..|pre|] == pre;
    case UseProvided(content) =>
      SummarizedShaped(pre, body.githubUrl, content, keyData, credentialConfigured, model);
    case FetchFrom(url) =>
      var steps := pre + Requests(ReadmeFetches(url, fetch));
      RequestsAfter(pre, ReadmeFetches(url, fetch));
      WithReadmeShaped(steps, body.githubUrl, ReadmeOf(url, fetch), keyData, credentialConfigured, model);
      ShapedPrefix(WithReadme(steps, body.githubUrl, ReadmeOf(url, fetch), keyData, credentialConfigured, model),
                   steps, pre, keyData, credentialConfigured, model);
  }

  /** README requests change nothing: appending them keeps a trace free of effects, and keeps its prefix. */
  lemma RequestsAfter(pre: seq<Step>, urls: seq<string>)
    requires NoEffects(pre)
    ensures NoEffects(pre + Requests(urls)) && (pre + Requests(urls))[..|pre|] == pre
  {
    var steps := pre + Requests(urls);
    forall i | 0 <= i < |steps| ensures !steps[i].Charge? && !steps[i].Summarize? {
      if i >= |pre| { assert steps[i] == Requests(urls)[i - |pre|]; }
    }
  }

  lemma PrefixOfPrefix(t: seq<Step>, steps: seq<Step>, pre: seq<Step>)
    requires |steps| <= |t| && t[..|steps|] == steps && |pre| <= |steps| && steps[..|pre|] == pre
    ensures t[..|pre|] == pre
  {
    assert t[..|steps|][..|pre|] == t[..|pre|];
  }

  /**
   * The whole POST, as a function of what the world answers: `lookup` for the key, `fetch`
   * for the README requests, and the model's `credentialConfigured` and `model` outcome.
   * Only the validated key is ever charged, at most once, and only just before the model call.
   */
  function PostSpec(devBypassFlag: bool, headers: Headers, lookup: Lookup<Option<ApiKeyData>>, body: RequestBody,
                    fetch: string -> HttpReply<string>, credentialConfigured: bool, model: ModelOutcome): (o: PostOutcome)
    ensures o.response.status in {200, 400, 401, 429}
    ensures o.charge.Some? ==>
      !IsDevBypass(devBypassFlag, KeyOf(headers)) && Validation(headers, lookup).valid
      && o.charge.value == Validation(headers, lookup).keyData.value.id && o.charge.value != ""
    ensures ChargeThenSummary(o.trace, o.charge)
    ensures o.response.body.NoReadmeBody? ==> o.response.status == 200 && o.charge.None? && NoEffects(o.trace)
  {
    var key := KeyOf(headers).GetOr("");
    var bypass := IsDevBypass(devBypassFlag, KeyOf(headers));
    var v := Validation(headers, lookup);
    var pre := if bypass then [] else LookupSteps(key, lookup);
    if !bypass && AuthGate(v, PostRateLimitFallback).Some? then
      PostOutcome(AuthGate(v, PostRateLimitFallback).value, pre, None)
    else
      var keyData := if bypass then None else v.keyData;
      AdmittedShape(pre, keyData, body, fetch, credentialConfigured, model);
      Admitted(pre, keyData, body, fetch, credentialConfigured, model)
  }

  // ---------------------------------------------------------------- POST properties

  /** A rejected key ends the request before its body is read: the reply does not depend on the body. */
  lemma AuthFailureIgnoresBody(devBypassFlag: bool, headers: Headers, lookup: Lookup<Option<ApiKeyData>>,
                               body1: RequestBody, body2: RequestBody, fetch: string -> HttpReply<string>,
                               credentialConfigured: bool, model: ModelOutcome)
    requires !IsDevBypass(devBypassFlag, KeyOf(headers)) && !Validation(headers, lookup).valid
    ensures var o := PostSpec(devBypassFlag, headers, lookup, body1, fetch, credentialConfigured, model);
      && o == PostSpec(devBypassFlag, headers, lookup, body2, fetch, credentialConfigured, model)
      && (o.response.status == 429 <==> Validation(headers, lookup).rateLimited)
      && (o.response.status == 401 <==> !Validation(headers, lookup).rateLimited)
      && o.charge.None? && Summarize !in o.trace
  {
  }

  /** A request that obtained no README is not charged and never reaches the model. */
  lemma NoReadmeIsNotCharged(devBypassFlag: bool, headers: Headers, lookup: Lookup<Option<ApiKeyData>>,
                             body: RequestBody, fetch: string -> HttpReply<string>,
                             credentialConfigured: bool, model: ModelOutcome)
    ensures var o := PostSpec(devBypassFlag, headers, lookup, body, fetch, credentialConfigured, model);
      o.response.body.NoReadmeBody? ==>
        && o.response.status == 200
        && o.charge.None?
        && NoEffects(o.trace)
  {
  }

  /**
   * The reported usage counts this request: the validated key's usage plus one (1 under the
   * bypass, where no key was looked up), and what remains never goes below zero for a real key.
   */
  lemma ReportedUsage(devBypassFlag: bool, headers: Headers, lookup: Lookup<Option<ApiKeyData>>,
                      body: RequestBody, fetch: string -> HttpReply<string>,
                      credentialConfigured: bool, model: ModelOutcome)
    ensures var o := PostSpec(devBypassFlag, headers, lookup, body, fetch, credentialConfigured, model);
      o.response.body.SummaryBody? ==>
        && o.response.body.remaining == DefaultRateLimit - o.response.body.usage
        && (IsDevBypass(devBypassFlag, KeyOf(headers)) ==> o.response.body.usage == 1)
        && (!IsDevBypass(devBypassFlag, KeyOf(headers)) ==>
              && o.response.body.usage == Validation(headers, lookup).keyData.value.usage + 1
              && o.response.body.remaining >= 0)
  {
    var bypass := IsDevBypass(devBypassFlag, KeyOf(headers));
    var v := Validation(headers, lookup);
    if bypass || AuthGate(v, PostRateLimitFallback).None? {
      var pre := if bypass then [] else LookupSteps(KeyOf(headers).GetOr(""), lookup);
      var keyData := if bypass then None else v.keyData;
      AdmittedShape(pre, keyData, body, fetch, credentialConfigured, model);
      assert PostSpec(devBypassFlag, headers, lookup, body, fetch, credentialConfigured, model)
          == Admitted(pre, keyData, body, fetch, credentialConfigured, model);
      if !bypass {
        assert v.valid && v.keyData.value.usage < DefaultRateLimit;
      }
    }
  }

  /**
   * Whatever path led to the summary, the reply reflects the model: the mock exactly when no
   * credential is configured, otherwise the model's answer as it is, or its failure.
   */
  lemma SummaryFollowsModel(devBypassFlag: bool, headers: Headers, lookup: Lookup<Option<ApiKeyData>>,
                            body: RequestBody, fetch: string -> HttpReply<string>,
                            credentialConfigured: bool, model: ModelOutcome)
    ensures var o := PostSpec(devBypassFlag, headers, lookup, body, fetch, credentialConfigured, model);
      ModelReflected(o.response.body, credentialConfigured, model)
  {
    var bypass := IsDevBypass(devBypassFlag, KeyOf(headers));
    var v := Validation(headers, lookup);
    if bypass || AuthGate(v, PostRateLimitFallback).None? {
      var pre := if bypass then [] else LookupSteps(KeyOf(headers).GetOr(""), lookup);
      var keyData := if bypass then None else v.keyData;
      AdmittedShape(pre, keyData, body, fetch, credentialConfigured, model);
      assert PostSpec(devBypassFlag, headers, lookup, body, fetch, credentialConfigured, model)
          == Admitted(pre, keyData, body, fetch, credentialConfigured, model);
    }
  }

  /** A provided README is used as it is: no README request is made, and the URL is not checked. */
  lemma ProvidedReadmeSkipsFetch(devBypassFlag: bool, headers: Headers, lookup: Lookup<Option<ApiKeyData>>,
                                 githubUrl: Option<string>, readme: string, fetch: string -> HttpReply<string>,
                                 credentialConfigured: bool, model: ModelOutcome)
    requires readme != ""
    requires IsDevBypass(devBypassFlag, KeyOf(headers)) || Validation(headers, lookup).valid
    ensures var o := PostSpec(devBypassFlag, headers, lookup, Json(githubUrl, Some(readme)), fetch, credentialConfigured, model);
      && o.response.body.SummaryBody?
      && o.response.body.readmePreview == ReadmePreview(readme)
      && forall i :: 0 <= i < |o.trace| ==> !o.trace[i].ReadmeRequest?
  {
    var bypass := IsDevBypass(devBypassFlag, KeyOf(headers));
    var body := Json(githubUrl, Some(readme));
    var pre := if bypass then [] else LookupSteps(KeyOf(headers).GetOr(""), lookup);
    var keyData := if bypass then None else Validation(headers, lookup).keyData;
    assert ChooseInput(body) == UseProvided(readme);
    var o := Summarized(pre, githubUrl, readme, keyData, credentialConfigured, model);
    assert PostSpec(devBypassFlag, headers, lookup, body, fetch, credentialConfigured, model) == o;
    assert o.trace == pre + (if o.charge.Some? then [Charge(o.charge.value)] else []) + [Summarize];
  }

  // ---------------------------------------------------------------- POST, step by step

  /** What the world answers during one POST. */
  datatype World = World(lookupFault: Option<StoreFault>, fetch: string -> HttpReply<string>,
                         rpc: RpcReply, io: FallbackIo, credentialConfigured: bool, model: ModelOutcome)

  /** How one charge attempt leaves the store's rows (see `KeyStore.IncrementUsage`). */
  function ChargedRows(configured: bool, rows: map<string, ApiKeyData>, charge: Option<string>, world: World): map<string, ApiKeyData> {
    if charge.Some? && configured
       && (world.rpc.RpcOk? || (world.rpc == RpcError(UndefinedFunctionCode) && FallbackWrote(world.io)))
    then Incremented(rows, charge.value) else rows
  }

  /**
   * POST: the handler as it runs, against the key store. Its reply and its steps are those of
   * `PostSpec`, and the store changes only by the charge of the key `PostSpec` names.
   */
  method Post(store: KeyStore, devBypassFlag: bool, headers: Headers, body: RequestBody, world: World)
    returns (response: Reply, trace: seq<Step>)
    requires store.Valid()
    modifies store
    ensures store.Valid()
    ensures var o := PostSpec(devBypassFlag, headers, old(store.KeyLookup(KeyOf(headers).GetOr(""), world.lookupFault)),
                              body, world.fetch, world.credentialConfigured, world.model);
      && response == o.response && trace == o.trace
      && store.rows == ChargedRows(store.configured, old(store.rows), o.charge, world)
  {
    var apiKey := GetApiKeyFromRequest(headers.xApiKey, headers.authorization);
    ghost var lookup := store.KeyLookup(apiKey.GetOr(""), world.lookupFault);
    ghost var spec := PostSpec(devBypassFlag, headers, lookup, body, world.fetch, world.credentialConfigured, world.model);
    trace := [];
    var keyData: Option<ApiKeyData> := None;
    if IsDevBypass(devBypassFlag, apiKey) {
      // the source only logs that the check is skipped
      assert spec == Admitted([], None, body, world.fetch, world.credentialConfigured, world.model);
    } else {
      var key := apiKey.GetOr("");
      trace := LookupSteps(key, store.KeyLookup(key, world.lookupFault));
      var v := ValidateApiKeyWithRateLimit(key, DefaultRateLimit, store.KeyLookup(key, world.lookupFault));
      assert v == Validation(headers, lookup);
      if v.rateLimited {
        var usage := if v.keyData.Some? then Some(v.keyData.value.usage) else None;
        response := Reply(429, RateLimitBody(OrElse(v.error, PostRateLimitFallback), usage, DefaultRateLimit));
        assert spec == PostOutcome(response, trace, None);
        return;
      }
      if !v.valid {
        response := Reply(401, ErrorBody(OrElse(v.error, "Unauthorized")));
        assert spec == PostOutcome(response, trace, None);
        return;
      }
      keyData := v.keyData;
      assert spec == Admitted(trace, keyData, body, world.fetch, world.credentialConfigured, world.model);
    }
    response, trace := ServeAdmitted(store, trace, keyData, devBypassFlag, body, world);
  }

  /** The rest of POST once the key passed or was bypassed: body, input, README, charge, summary, reply. */
  method ServeAdmitted(store: KeyStore, pre: seq<Step>, keyData: Option<ApiKeyData>, devBypassFlag: bool,
                       body: RequestBody, world: World)
    returns (response: Reply, trace: seq<Step>)
    requires store.Valid() && NoEffects(pre)
    requires keyData.Some? || devBypassFlag
    modifies store
    ensures store.Valid()
    ensures var o := Admitted(pre, keyData, body, world.fetch, world.credentialConfigured, world.model);
      && response == o.response && trace == o.trace
      && store.rows == ChargedRows(store.configured, old(store.rows), o.charge, world)
  {
    trace := pre;
    if body.Malformed? {
      response := Reply(400, ErrorBody("Invalid JSON body"));
      return;
    }
    var githubUrl, provided := body.githubUrl, body.readmeContent;
    var readmeContent: Option<string> := None;
    var fetchError: Option<string> := None;
    if provided.Some? && provided.value != "" {
      readmeContent := provided;
    } else if githubUrl.Some? && githubUrl.value != "" {
      if !HasRepoShape(githubUrl.value) {
        response := Reply(400, ErrorBody(InvalidUrlMessage));
        return;
      }
      var result, fetched := GetReadmeContent(githubUrl.value, world.fetch);
      RequestsAfter(trace, fetched);
      trace := trace + Requests(fetched);
      readmeContent := result.content;
      fetchError := result.error;
    } else {
      response := Reply(400, ErrorBody(MissingInputMessage));
      return;
    }

    response, trace := Conclude(store, trace, githubUrl, ReadmeResult(readmeContent, fetchError), keyData, devBypassFlag, world);
  }

  /** The end of POST: no README ends it; otherwise the key is charged, then the model is asked. */
  method Conclude(store: KeyStore, steps: seq<Step>, githubUrl: Option<string>, readme: ReadmeResult,
                  keyData: Option<ApiKeyData>, devBypassFlag: bool, world: World)
    returns (response: Reply, trace: seq<Step>)
    requires store.Valid() && NoEffects(steps)
    requires keyData.Some? || devBypassFlag
    modifies store
    ensures store.Valid()
    ensures var o := WithReadme(steps, githubUrl, readme, keyData, world.credentialConfigured, world.model);
      && response == o.response && trace == o.trace
      && store.rows == ChargedRows(store.configured, old(store.rows), o.charge, world)
  {
    trace := steps;
    var readmeContent, fetchError := readme.content, readme.error;
    if readmeContent.None? || readmeContent.value == "" {
      response := Reply(200, NoReadmeBody(NonEmpty(githubUrl), OrElse(fetchError, NoReadmeMessage)));
      return;
    }

    // The source re-validates the key here when no key data was kept and the bypass flag is off.
    // Outside the bypass a key that passed always carries its data, and the bypass needs the
    // flag, so that branch cannot run.
    if keyData.None? && !devBypassFlag {
      assert false;
    }

    assert WithReadme(steps, githubUrl, readme, keyData, world.credentialConfigured, world.model)
        == Summarized(steps, githubUrl, readmeContent.value, keyData, world.credentialConfigured, world.model);
    response, trace := ChargeAndSummarize(store, steps, githubUrl, readmeContent.value, keyData, world);
  }

  /** With README content: the key is charged first, then the model is asked. */
  method ChargeAndSummarize(store: KeyStore, steps: seq<Step>, githubUrl: Option<string>, content: string,
                            keyData: Option<ApiKeyData>, world: World)
    returns (response: Reply, trace: seq<Step>)
    requires store.Valid() && NoEffects(steps)
    modifies store
    ensures store.Valid()
    ensures var o := Summarized(steps, githubUrl, content, keyData, world.credentialConfigured, world.model);
      && response == o.response && trace == o.trace
      && store.rows == ChargedRows(store.configured, old(store.rows), o.charge, world)
  {
    trace := steps;
    ghost var charge := if keyData.Some? && keyData.value.id != "" then Some(keyData.value.id) else None;
    // The charge comes before the (expensive) model call; its success is not looked at.
    if keyData.Some? && keyData.value.id != "" {
      var _ := store.IncrementUsage(keyData.value.id, world.rpc, world.io);
      trace := trace + [Charge(keyData.value.id)];
    }
    assert store.rows == ChargedRows(store.configured, old(store.rows), charge, world);
    var summary := SummarizeGithubRepo(content, world.credentialConfigured, world.model);
    trace := trace + [Summarize];
    var usage := (if keyData.Some? then keyData.value.usage else 0) + 1;
    response := Reply(200, SummaryReply(githubUrl, content, summary, usage));
  }
}
