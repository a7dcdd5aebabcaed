# Blingo core, modelled in Dafny

Blingo is a small SaaS product. Its users sign in with Google. On a dashboard they create, rename and delete
API keys. With a key they call the GitHub summarizer endpoint. That endpoint:

- checks the key against a usage quota of 1000 requests;
- fetches the repository's README from its `main` or `master` branch;
- charges one unit of usage;
- returns a language-model summary of the README, or a mock summary when no model credential is configured.

This project models the server and dashboard logic of that product, one Dafny module per source file:

| module | source file | form |
|---|---|---|
| `RateLimit` | blingo/lib/rate-limit.ts | key validation and quota checks are functions. The `api_keys` table is the class `KeyStore`: a map of records whose usage counter `IncrementUsage` and `ResetUsage` update |
| `GitHub` | blingo/lib/github.ts | URL parsing and response mappings are functions. The README fetch is a method with a loop over the two branches |
| `Chain` | blingo/lib/chain.ts | the mock summary is a function. Its two multiline regular expressions are hand-coded, and so is the marker `replace` |
| `SummarizerRoute` | blingo/app/api/github-summarizer/route.ts | GET is a function. POST is a method that charges the `KeyStore`, proved equal to the specification function `PostSpec` |
| `ApiKeysRoute` | blingo/app/api/api-keys/route.ts | key generation is a loop of nondeterministic draws from the key alphabet. Authentication, GET and name choice are functions. POST is a method |
| `UseApiKeys` | blingo/app/dashboards/_hooks/useApiKeys.ts | the hook's state is the class `ApiKeyList`. Fetch, create, rename and delete are methods over its `seq` field, specified by the list functions `FromRows`, `Renamed` and `Removed` |
| `Auth` | blingo/lib/auth.ts | base URL and redirect clamp are functions. The session and jwt callbacks are methods that set fields of `Session` and `Token` objects |
| `ApiKeyTable` | blingo/app/dashboards/_components/ApiKeyTable.tsx | the visible-key set is a field of `KeyTable`, which `ToggleKeyVisibility` updates |
| `DashboardLayout` | blingo/app/dashboards/layout.tsx | the active-entry rule as a function over the sidebar entries |
| `UserMenu` | blingo/app/dashboards/_components/UserMenu.tsx | the avatar initials as a function |

`Wrappers` holds `Option`. `Text` holds the JavaScript string operations the source relies on:

- `startsWith`, `indexOf`, `includes`;
- `replace` with a string pattern, which replaces the first occurrence only;
- `trim`, over JavaScript's whitespace set;
- number-to-string conversion.

Everything outside the process is an input to the model:

- the key store's contents, and whether it is configured;
- its faults and the increment RPC's answer;
- HTTP replies;
- the language model's outcome;
- environment variables;
- the signed-in session.

Some calls reach the outside world. `GetReadmeContent` and the summarizer `Post` return those calls, in order, so
that their order can be stated. This covers which README URLs were requested, the key lookup, the usage charge, and
the summary call.

Some behaviour of the code differs from what the product describes. The model follows the code:

- **Unconfigured key store in the summarizer.** The endpoint answers 401 "Database not configured" (route.ts:124-126 after rate-limit.ts:47-49), not 503.
- **No stars or forks.** The summary reply carries none.
- **Usage under the development bypass.** The bypass reports usage 1 and remaining 999, because there is no key record.
- **No usage fields when no README is found.** The reply then has no usage, limit or remaining.
- **Dead re-validation.** The second validation in POST (route.ts:174-178) never changes anything. A key that reached it was already validated with its record, and under the bypass the flag is set. The model shows that this branch is unreachable.

## Model

| member | source | states |
|---|---|---|
| `Text.ReplaceFirst` | blingo/app/api/github-summarizer/route.ts:28 | when the pattern occurs, the leftmost occurrence (none before it) is replaced by the replacement and the rest is kept; a string without the pattern is unchanged |
| `Text.ReplaceFirstPrefix` | blingo/app/api/github-summarizer/route.ts:28 | removing a leading pattern gives back exactly the rest |
| `Text.Trim` | blingo/app/dashboards/_hooks/useApiKeys.ts:61 | the result is a contiguous slice of the input with only whitespace before and after it, and has no whitespace at either end. It is empty exactly when the input is all whitespace |
| `Text.TrimIdempotent` | blingo/app/api/api-keys/route.ts:137-139 | trimming a trimmed string changes nothing |
| `Text.IndexOf` | blingo/lib/rate-limit.ts:80 | finds the leftmost occurrence, or reports that there is none |
| `RateLimit.ValidateApiKeyWithRateLimit` | blingo/lib/rate-limit.ts:38-91 | an empty key is rejected first, then an unconfigured store, a query error, a missing row. A found key is valid iff usage < limit, and rate-limited with its record otherwise. A valid result always carries the record, which is the row the lookup returned |
| `RateLimit.FaultRejection` | blingo/lib/rate-limit.ts:58-90 | a store fault is never valid and carries no record. A query error reports its message. A thrown "fetch failed" becomes the network message, and any other throw a validation error |
| `RateLimit.QuotaVerdict` | blingo/lib/rate-limit.ts:67-77 | a found record is valid iff usage < limit, and rate-limited iff usage ≥ limit. The record is always returned, and the quota message is given when invalid |
| `RateLimit.CheckRateLimit` | blingo/lib/rate-limit.ts:99-134 | fails open (allowed, usage 0, remaining = limit) without a store or on a fault. Otherwise allowed iff usage < limit, remaining = max(0, limit − usage), and an error iff not allowed |
| `RateLimit.GetUsageStats` | blingo/lib/rate-limit.ts:215-244 | no statistics without a store, on a fault or without a row. Otherwise the row's usage and remaining = max(0, limit − usage) ≥ 0 |
| `RateLimit.FindByKey` | blingo/lib/rate-limit.ts:52-56 | returns the record stored under its id whose key matches, or reports that no record has that key |
| `RateLimit.Incremented` | blingo/lib/rate-limit.ts:160-164 | the target record's usage rises by one. No record is added or removed, every other record is unchanged, and the table invariants are kept |
| `RateLimit.UsageReset` | blingo/lib/rate-limit.ts:192-195 | the target record's usage becomes 0. Every other record is unchanged and the table invariants are kept |
| `RateLimit.IncrementedTimes` | blingo/lib/rate-limit.ts:141-179 | n increments of one key raise its usage by exactly n and change nothing else of it or of any other record. An unknown id changes nothing |
| `RateLimit.QuotaBoundary` | blingo/lib/rate-limit.ts:68-77 | usage limit−1 passes validation. One increment brings it to the limit, where the key is rate-limited and invalid |
| `RateLimit.KeyStore.KeyLookup` | blingo/lib/rate-limit.ts:47-65 | the select-by-key query: not configured, the reported fault, or the matching record |
| `RateLimit.KeyStore.UsageLookup` | blingo/lib/rate-limit.ts:108-117 | the select-usage-by-id query. A missing row comes back as an error, as `.single()` reports it |
| `RateLimit.KeyStore.QuotaOfStoredKey` | blingo/lib/rate-limit.ts:99-134 | checkRateLimit and getUsageStats on this store: a stored key gets its own usage, is allowed iff that usage is below the limit, and gets its statistics. Otherwise, or on a fault, the check fails open and there are no statistics |
| `RateLimit.KeyStore.IncrementUsage` | blingo/lib/rate-limit.ts:141-179 | true without a store, on RPC success, and on the RPC-missing fallback when neither its read nor its write threw, even when the record is absent. False when the fallback threw, and on any other RPC failure. The table becomes `Incremented` exactly when the RPC succeeded, or when the fallback's read and write both went through without a throw. Otherwise it is unchanged |
| `RateLimit.KeyStore.ResetUsage` | blingo/lib/rate-limit.ts:186-207 | true and no change without a store. False and no change on a fault. Otherwise the table becomes `UsageReset` |
| `GitHub.ParseGithubUrl` | blingo/lib/github.ts:6-10 | a parse yields a non-empty, slash-free owner and repository. The URL is the prefix, owner, "/", repository and a valid tail |
| `GitHub.ParseGithubUrlComplete` | blingo/lib/github.ts:7 | every URL of that shape parses, to exactly its owner and repository |
| `GitHub.ParseGithubUrlRoundTrip` | blingo/lib/github.ts:6-10 | parsing the canonical URL of (owner, repo) gives back (owner, repo) |
| `GitHub.RepoApiUrl` | blingo/lib/github.ts:44 | the repository endpoint: the API prefix, then owner, "/" and repository, and nothing more |
| `GitHub.RepoApiUrlIdentifies` | blingo/lib/github.ts:44 | with slash-free owners, equal endpoints mean the same owner and repository |
| `GitHub.GetRepoInfo` | blingo/lib/github.ts:42-91 | a non-2xx status, or a failed request, gives all fields null with the matching error. A 2xx status maps each field, with an empty homepage becoming null |
| `GitHub.GetLatestTag` | blingo/lib/github.ts:145-194 | a non-OK (or 404) tag response gives "No releases or tags found", and an empty list "No tags found". A failed fetch or an unreadable body gives "Network error: " and the message. Otherwise the first tag, its "Tag: " name and its tag page URL |
| `GitHub.TagPageUrl` | blingo/lib/github.ts:182 | a github.com page: the prefix, then owner, repository, "/releases/tag/" and the tag |
| `GitHub.TagPageUrlIdentifies` | blingo/lib/github.ts:182 | with slash-free owners and repositories, equal tag pages mean the same repository and tag |
| `GitHub.GetLatestRelease` | blingo/lib/github.ts:96-140 | a 404 falls back to the tags. Any other non-2xx status gives "No releases found". A 2xx status maps the release fields |
| `GitHub.TagsOnlyAfter404` | blingo/lib/github.ts:108-112 | the tag endpoint influences the result only when the release endpoint answered 404 |
| `GitHub.ReadmeUrl` | blingo/lib/github.ts:207 | a raw.githubusercontent.com URL of owner, repository and branch that ends in "/README.md" |
| `GitHub.ReadmeUrlIdentifies` | blingo/lib/github.ts:207 | with slash-free owners and repositories, equal README URLs mean the same repository and branch |
| `GitHub.Probe` | blingo/lib/github.ts:210-215 | a non-2xx reply moves on to the next branch. A 2xx reply ends the loop, with the content when the body is readable |
| `GitHub.ReadmeOf` | blingo/lib/github.ts:199-225 | content iff no error. An unparseable URL gives "Invalid GitHub URL format". Otherwise the first 2xx branch of main and master, in that order, or "README not found in main or master branch" |
| `GitHub.ReadmeFetches` | blingo/lib/github.ts:206-216 | no request for an unparseable URL. Otherwise the main URL, then the master URL only when main was not 2xx |
| `GitHub.GetReadmeContent` | blingo/lib/github.ts:199-225 | the loop's result equals `ReadmeOf`, and the URLs it requested equal `ReadmeFetches` |
| `GitHub.MainWins` | blingo/lib/github.ts:206-215 | when main answers 2xx, its text is the README and master is never requested |
| `GitHub.GetFullRepoData` | blingo/lib/github.ts:230-255 | an unparseable URL gives the three "Invalid" results with no request. Otherwise each part equals its own operation's result |
| `Chain.WsRun` | blingo/lib/chain.ts:59 | the longest whitespace run from a position (the `\s+` of the patterns) |
| `Chain.LineRun` | blingo/lib/chain.ts:59 | the longest run without a line terminator (the `.+` of the patterns) |
| `Chain.MatchAt` | blingo/lib/chain.ts:59-63 | a match starts at its position, and its captured content is non-empty and lies inside the string |
| `Chain.MatchAtShape` | blingo/lib/chain.ts:59-63 | a match is a marker at a line start, then whitespace up to the content, then content without a line terminator running to the end of a line |
| `Chain.FirstMatchFrom` | blingo/lib/chain.ts:59 | the leftmost match: it is a match, and no earlier position matches |
| `Chain.AllMatchesFrom` | blingo/lib/chain.ts:63 | the global matches lie inside the string, in order, and do not overlap |
| `Chain.AllMatchesAreMatches` | blingo/lib/chain.ts:63 | every global match is a match of the pattern at its start |
| `Chain.SkipNonMatches` | blingo/lib/chain.ts:59 | the leftmost search passes over positions where nothing matches |
| `Chain.AllMatchesComplete` | blingo/lib/chain.ts:63 | every position where the pattern matches lies inside one of the global matches: the list misses no bullet line |
| `Chain.AllMatchesEmpty` | blingo/lib/chain.ts:63 | there are no global matches exactly when the pattern matches nowhere |
| `Chain.MockFeatures` | blingo/lib/chain.ts:63-64 | at most three features |
| `Chain.MockFeaturesAreFirstBullets` | blingo/lib/chain.ts:63-64 | the features are the first three global matches (or all of them, if fewer), in document order, each stripped of its marker |
| `Chain.MockFeaturesEmptyIffNoBullet` | blingo/lib/chain.ts:63-64 | there are no features exactly when no line is a bullet; otherwise the first feature is the leftmost bullet match, stripped |
| `Chain.ThreeBulletLinesFeatures` | blingo/lib/chain.ts:63-69 | a README made of one plain line (such as a heading) and the bullet lines "- a", "- b", "- c" has features a, b, c and facts "[MOCK] a", "[MOCK] b", "[MOCK] c" |
| `Chain.GenerateMockSummary` | blingo/lib/chain.ts:57-76 | the summary is the title followed by the mock sentence. There are 1 to 3 facts, each "[MOCK] "-prefixed: the marked features when there are any, otherwise the three placeholders |
| `Chain.FeaturesAreOneLine` | blingo/lib/chain.ts:63-64 | every feature text lies within one line |
| `Chain.StrippedMatchIsOneLine` | blingo/lib/chain.ts:64 | stripping the marker from a match leaves text without line terminators |
| `Chain.WsRunCovers` | blingo/lib/chain.ts:59 | the whitespace run covers every whitespace prefix |
| `Chain.LineRunIs` | blingo/lib/chain.ts:59 | the line run stops exactly at the line's end |
| `Chain.MockTitle` | blingo/lib/chain.ts:59-60 | the title is never empty and lies within one line. Which heading it comes from is stated by `UntitledIsDefault` |
| `Chain.UntitledIsDefault` | blingo/lib/chain.ts:59-60 | with no heading line anywhere the title is "This project". With one, it is the text captured by the first (leftmost) heading match: no heading starts before it |
| `Chain.HeadingIsTitle` | blingo/lib/chain.ts:59-60 | a README opening with "# title" has that title |
| `Chain.NoHeadingDefaultTitle` | blingo/lib/chain.ts:60 | a README without "#" is titled "This project" |
| `Chain.StripMarker` | blingo/lib/chain.ts:64 | on a string starting with a marker and whitespace: the suffix left after the marker and the whole whitespace run, so it starts with non-whitespace or is empty. Any other string is unchanged |
| `Chain.StripDashSpace` | blingo/lib/chain.ts:64 | stripping "- " from "- t" gives t |
| `Chain.BulletLineMatch` | blingo/lib/chain.ts:63 | a "- t" line matches the bullet pattern with exactly t as its content |
| `Chain.BulletLine` | blingo/lib/chain.ts:63-64 | a "- t" line anywhere in a README is a bullet match whose stripped text is t |
| `Chain.SummarizeGithubRepo` | blingo/lib/chain.ts:81-116 | the mock is used iff no credential, and then always succeeds. With a credential the model's answer is passed on, and a failure is reported with its message or the fallback. Success iff no error |
| `SummarizerRoute.OrElse` | blingo/app/api/github-summarizer/route.ts:87-94 | `s \|\| fallback`: the value when it is a non-empty string, the fallback otherwise |
| `SummarizerRoute.NonEmpty` | blingo/app/api/github-summarizer/route.ts:165-192 | `s \|\| null`: the empty string becomes null |
| `SummarizerRoute.GetApiKeyFromRequest` | blingo/app/api/github-summarizer/route.ts:25-31 | a non-empty `x-api-key` wins. Otherwise the Authorization header with its first "Bearer " removed, when that is non-empty. Never an empty key |
| `SummarizerRoute.BearerTokenIsKey` | blingo/app/api/github-summarizer/route.ts:28 | "Bearer t" yields the key t |
| `SummarizerRoute.BypassFromHeaders` | blingo/app/api/github-summarizer/route.ts:111 | with the flag set, a request bypasses iff its key starts with "blingo-", whichever header the key came from. Without the flag no request bypasses |
| `SummarizerRoute.ValidationOfHeaders` | blingo/app/api/github-summarizer/route.ts:114 | a request without a key is checked as "" and refused with "API key is required". One with a key is valid iff the store has it below 1000 uses, and rate-limited iff the store has it at 1000 or more |
| `SummarizerRoute.ParsedUrlHasShape` | blingo/app/api/github-summarizer/route.ts:150 | every URL the README fetch can parse passes the handler's shape check |
| `SummarizerRoute.RepoShapeOf` | blingo/app/api/github-summarizer/route.ts:150 | the check accepts every URL of the form prefix, non-empty slash-free owner, "/", a non-slash character, anything |
| `SummarizerRoute.RepoShapeParts` | blingo/app/api/github-summarizer/route.ts:150 | every URL the check accepts has that form, split at the owner's end |
| `SummarizerRoute.ShapeWithoutParse` | blingo/app/api/github-summarizer/route.ts:150 | the converse fails: "https://github.com/o/r/\n" passes the shape check but does not parse |
| `SummarizerRoute.ReadmePreview` | blingo/app/api/github-summarizer/route.ts:194 | up to 500 characters unchanged. Longer content becomes its first 500 characters plus "..." |
| `SummarizerRoute.AuthGate` | blingo/app/api/github-summarizer/route.ts:116-126 | admitted iff valid. Rate-limited gives 429 with the limit, the used count and the validation error or the fallback text. Otherwise 401 with the error or "Unauthorized" |
| `SummarizerRoute.Get` | blingo/app/api/github-summarizer/route.ts:69-104 | only 200, 401 or 429. The bypass answers ready with usage 0. Otherwise the gate decides, and a ready reply always has remaining ≥ 1 |
| `SummarizerRoute.ChooseInput` | blingo/app/api/github-summarizer/route.ts:133-160 | a malformed body gives 400. A non-empty README content is used as given. Otherwise a URL with the repository shape is fetched, and anything else gives one of the two 400 replies |
| `SummarizerRoute.SummaryReply` | blingo/app/api/github-summarizer/route.ts:188-202 | usage + remaining = 1000. The preview, summary, facts and mock flag are passed on, and the error only when non-empty |
| `SummarizerRoute.Requests` | blingo/app/api/github-summarizer/route.ts:42-52 | one README request per URL fetched, in order |
| `SummarizerRoute.LookupSteps` | blingo/lib/rate-limit.ts:42-56 | the store is asked about a key only when the key is non-empty and the store configured |
| `SummarizerRoute.Summarized` | blingo/app/api/github-summarizer/route.ts:180-202 | a charge happens iff the key has an id, and before the summary call. The body is the summary reply for `SummarizeGithubRepo` of the content, with usage the key's usage + 1 and remaining 1000 − usage |
| `SummarizerRoute.ReplyReflectsModel` | blingo/app/api/github-summarizer/route.ts:188-202 | the reply is a mock exactly when no credential is configured, and then succeeds. With a credential, the model's summary and facts are passed on unchanged, or its failure gives success false, no facts and its message (or the fallback) as the error, left out when empty |
| `SummarizerRoute.WithReadme` | blingo/app/api/github-summarizer/route.ts:162-171 | no README content means a 200 "no README" reply with the fetch error or the default message, and no charge |
| `SummarizerRoute.Admitted` | blingo/app/api/github-summarizer/route.ts:132-202 | after admission, one of three paths. A rejected body or input ends with its 400 and no further step. Provided content goes straight to the summary. A repository URL first adds its README requests, then the README decides |
| `SummarizerRoute.RequestsAfter` | blingo/app/api/github-summarizer/route.ts:42-52 | README requests charge nothing and call no model. Appending them keeps the steps before them |
| `SummarizerRoute.WithReadmeShaped` | blingo/app/api/github-summarizer/route.ts:162-202 | after the README fetch the earlier steps are kept. Only the admitted key is charged, right before the model call. No README means no charge and no effect. Usage is the key's usage + 1 |
| `SummarizerRoute.AdmittedShape` | blingo/app/api/github-summarizer/route.ts:132-202 | the same for every admitted request, whichever of the three paths it takes |
| `SummarizerRoute.PostSpec` | blingo/app/api/github-summarizer/route.ts:107-203 | status ∈ {200, 400, 401, 429}. A charge is only ever for a validated, non-bypass key's id, and always precedes the summary call. A "no README" reply charges nothing |
| `SummarizerRoute.AuthFailureIgnoresBody` | blingo/app/api/github-summarizer/route.ts:114-126 | a rejected key gets the same reply whatever the body, with no charge |
| `SummarizerRoute.NoReadmeIsNotCharged` | blingo/app/api/github-summarizer/route.ts:162-171 | when no README is found nobody is charged and nothing is summarized |
| `SummarizerRoute.ReportedUsage` | blingo/app/api/github-summarizer/route.ts:188-199 | a summary reply reports the key's usage + 1, or 1 under the bypass, and remaining 1000 − usage, which is ≥ 0 for a validated key |
| `SummarizerRoute.SummaryFollowsModel` | blingo/app/api/github-summarizer/route.ts:107-203 | every summary reply of the whole POST passes on the model's outcome as `ReplyReflectsModel` states |
| `SummarizerRoute.ProvidedReadmeSkipsFetch` | blingo/app/api/github-summarizer/route.ts:146-148 | provided README content is used without any README request |
| `SummarizerRoute.Post` | blingo/app/api/github-summarizer/route.ts:107-203 | the reply and steps equal `PostSpec` on the store as it was. The store afterwards is the old store charged exactly as `IncrementUsage` does for the charged id |
| `SummarizerRoute.ServeAdmitted` | blingo/app/api/github-summarizer/route.ts:132-202 | equals `Admitted`, with the store charged accordingly |
| `SummarizerRoute.Conclude` | blingo/app/api/github-summarizer/route.ts:162-202 | equals `WithReadme`, with the store charged accordingly. The re-validation at lines 174-178 is unreachable |
| `SummarizerRoute.ChargeAndSummarize` | blingo/app/api/github-summarizer/route.ts:180-202 | equals `Summarized`: the key is charged first, when it has an id, then the model is asked. The store is charged accordingly |
| `ApiKeysRoute.CharRange` | blingo/app/api/api-keys/route.ts:8 | consecutive characters from a start |
| `ApiKeysRoute.KeyAlphabetIsAlphanumeric` | blingo/app/api/api-keys/route.ts:8 | 62 characters, from "A" to "9", all ASCII letters or digits, none of them whitespace |
| `ApiKeysRoute.GenerateApiKey` | blingo/app/api/api-keys/route.ts:7-15 | "blingo-" followed by 32 alphabet characters, 39 in all |
| `ApiKeysRoute.GetAuthenticatedUserEmail` | blingo/app/api/api-keys/route.ts:24-46 | an email iff no error, and it is the session's. No session email gives "Please sign in". A disagreeing header gives "Session mismatch". Otherwise the session's fields, with empty strings as null |
| `ApiKeysRoute.AuthFailure` | blingo/app/api/api-keys/route.ts:53-58 | 401 unless there is no error and an email, with the error message when there is one |
| `ApiKeysRoute.Get` | blingo/app/api/api-keys/route.ts:49-101 | authentication first, then 503, then 500 for the user. 200 with the listing iff every step succeeded |
| `ApiKeysRoute.ChooseKeyName` | blingo/app/api/api-keys/route.ts:137-139 | the trimmed name when it is a string with non-whitespace, otherwise the default |
| `ApiKeysRoute.ChosenNameIsTrimmed` | blingo/app/api/api-keys/route.ts:137-139 | with a default name that is its own trim, the chosen name is its own trim |
| `ApiKeysRoute.Post` | blingo/app/api/api-keys/route.ts:104-171 | the checks in order. A record is sent iff all pass, and it is the requester's, unused, with the chosen name and a generated key. 201 iff the insert succeeded |
| `UseApiKeys.TotalUsage` | blingo/app/dashboards/_hooks/useApiKeys.ts:24 | 0 for no keys. With no negative counter, the total is ≥ 0 and ≥ every key's usage |
| `UseApiKeys.TotalUsagePrepend` | blingo/app/dashboards/_hooks/useApiKeys.ts:79-82 | prepending an entry adds its usage to the total |
| `UseApiKeys.TotalUsageAppend` | blingo/app/dashboards/_hooks/useApiKeys.ts:24 | the total of a concatenation is the sum of the totals |
| `UseApiKeys.FromRow` | blingo/app/dashboards/_hooks/useApiKeys.ts:37-42 | an entry has the row's id, name, key and usage |
| `UseApiKeys.FromRows` | blingo/app/dashboards/_hooks/useApiKeys.ts:37-42 | one entry per row, in the same order |
| `UseApiKeys.Renamed` | blingo/app/dashboards/_hooks/useApiKeys.ts:103-105 | same length. Entries with the id get the new name and keep every other field. Other entries are unchanged |
| `UseApiKeys.RenamedKeepsTotal` | blingo/app/dashboards/_hooks/useApiKeys.ts:103-105 | renaming keeps the total usage |
| `UseApiKeys.Removed` | blingo/app/dashboards/_hooks/useApiKeys.ts:121 | no entry with the id is left. Every other entry stays, and nothing new appears |
| `UseApiKeys.RemovedTotal` | blingo/app/dashboards/_hooks/useApiKeys.ts:121 | deleting lowers the total by exactly the removed entries' usage |
| `UseApiKeys.RemovedDistributes` | blingo/app/dashboards/_hooks/useApiKeys.ts:121 | deletion keeps order: the survivors of a prefix come before the survivors of the rest |
| `UseApiKeys.RemovedIdempotent` | blingo/app/dashboards/_hooks/useApiKeys.ts:121 | deleting an id twice is deleting it once |
| `UseApiKeys.ApiKeyList.constructor` | blingo/app/dashboards/_hooks/useApiKeys.ts:20-22 | no keys, loading, no error |
| `UseApiKeys.ApiKeyList.FetchApiKeys` | blingo/app/dashboards/_hooks/useApiKeys.ts:26-50 | not loading afterwards. On success the list is the mapped rows and there is no error. On failure the list is kept and the load error is set |
| `UseApiKeys.ApiKeyList.ClearError` | blingo/app/dashboards/_hooks/useApiKeys.ts:56-58 | the error is cleared, nothing else changes |
| `UseApiKeys.ApiKeyList.CreateKey` | blingo/app/dashboards/_hooks/useApiKeys.ts:60-89 | a blank name sends nothing and changes nothing. Otherwise it sends the trimmed name, the fresh key and usage 0. On success it prepends that entry, with the total unchanged. On failure the list is kept and the error set |
| `UseApiKeys.ApiKeyList.UpdateKey` | blingo/app/dashboards/_hooks/useApiKeys.ts:91-112 | a blank name sends nothing and changes nothing. Success gives `Renamed` with the trimmed name and the total unchanged. Failure keeps the list and sets the error |
| `UseApiKeys.ApiKeyList.DeleteKey` | blingo/app/dashboards/_hooks/useApiKeys.ts:114-128 | success gives `Removed`, with the total lowered by the removed usage. Failure keeps the list and sets the error |
| `Auth.GetBaseUrl` | blingo/lib/auth.ts:6-15 | NEXTAUTH_URL when set, else "https://" + the production URL when set, else "http://localhost:3000". Never empty |
| `Auth.GoogleRedirectUri` | blingo/lib/auth.ts:24 | the base followed by "/api/auth/callback/google" |
| `Auth.Redirect` | blingo/lib/auth.ts:65-75 | a path is put under the base. A URL starting with the base is kept. Anything else becomes the base |
| `Auth.RedirectStartsWithBase` | blingo/lib/auth.ts:66-74 | every redirect starts with the base URL, as a string prefix |
| `Auth.LookalikeHostKept` | blingo/lib/auth.ts:71-72 | with an absolute base, the base followed by anything is kept as it is, including another host such as "https://blingo.app.evil.io/x" under the base "https://blingo.app" |
| `Auth.RedirectIdempotent` | blingo/lib/auth.ts:66-74 | with a base that is not a path, redirecting a redirect changes nothing |
| `Auth.SignIn` | blingo/lib/auth.ts:30-47 | sign-in always goes ahead. The user is saved iff the provider is Google and there is a profile, with the profile's subject, email, name and image |
| `Auth.SessionCallback` | blingo/lib/auth.ts:48-54 | a session with a user gets the token's subject as its user id. Nothing else changes |
| `Auth.JwtCallback` | blingo/lib/auth.ts:55-64 | the access token is copied iff there is an account, the Google id iff there is a profile. The subject is unchanged |
| `ApiKeyTable.Toggled` | blingo/app/dashboards/_components/ApiKeyTable.tsx:27-35 | the id's membership flips. Every other id's membership is unchanged |
| `ApiKeyTable.ToggleTwice` | blingo/app/dashboards/_components/ApiKeyTable.tsx:29-33 | toggling twice restores the set |
| `ApiKeyTable.TogglesCommute` | blingo/app/dashboards/_components/ApiKeyTable.tsx:27-35 | toggles of two ids commute |
| `ApiKeyTable.DisplayedKey` | blingo/app/dashboards/_components/ApiKeyTable.tsx:75 | the full key iff its id is visible, the masked form otherwise |
| `ApiKeyTable.ToggleSwapsDisplay` | blingo/app/dashboards/_components/ApiKeyTable.tsx:75-82 | toggling a row swaps it between full and masked. Every other row keeps its display |
| `ApiKeyTable.KeyTable.ToggleKeyVisibility` | blingo/app/dashboards/_components/ApiKeyTable.tsx:27-35 | the visible set becomes `Toggled` of the old one |
| `DashboardLayout.IsActive` | blingo/app/dashboards/layout.tsx:25-30 | the overview entry is active iff the path is exactly "/dashboards". Any other entry is active iff the path starts with its link |
| `DashboardLayout.ActiveNames` | blingo/app/dashboards/layout.tsx:16-30 | exactly the names of the active entries |
| `DashboardLayout.ActiveStaysOnLongerPaths` | blingo/app/dashboards/layout.tsx:29 | a non-overview entry stays active on every extension of the path |
| `DashboardLayout.ReportsPageHighlightsReports` | blingo/app/dashboards/layout.tsx:17-30 | on "/dashboards/reports" only "Research Reports" is active, not the overview |
| `DashboardLayout.OverviewPageHighlightsOnlyOverview` | blingo/app/dashboards/layout.tsx:16-30 | on "/dashboards" only "Overview" is active |
| `DashboardLayout.DocsPrefixIsCharacterLevel` | blingo/app/dashboards/layout.tsx:29 | "/dashboards/docsX" also activates Documentation |
| `UserMenu.SplitOnSpace` | blingo/app/dashboards/_components/UserMenu.tsx:26 | at least one piece, none holding a space |
| `UserMenu.SplitJoinRoundTrip` | blingo/app/dashboards/_components/UserMenu.tsx:26 | joining the pieces with spaces gives back the name |
| `UserMenu.FirstChars` | blingo/app/dashboards/_components/UserMenu.tsx:27-28 | at most one character per piece |
| `UserMenu.Upper` | blingo/app/dashboards/_components/UserMenu.tsx:29 | each character upper-cased, the same length |
| `UserMenu.Initials` | blingo/app/dashboards/_components/UserMenu.tsx:25-30 | 1 or 2 characters, never empty. "U" without a name or when there are no letters, otherwise a prefix of the upper-cased first characters |
| `UserMenu.WordStartChars` | blingo/app/dashboards/_components/UserMenu.tsx:25-28 | at most one character per input character |
| `UserMenu.FirstCharsAreWordStarts` | blingo/app/dashboards/_components/UserMenu.tsx:26-28 | the first characters of the pieces are exactly the characters that start a word, in order |
| `UserMenu.InitialsAreWordStarts` | blingo/app/dashboards/_components/UserMenu.tsx:25-30 | the initials are the first one or two word-starting characters, upper-cased, or "U" when there are none |
| `UserMenu.BlankNameHasNoFirstChars` | blingo/app/dashboards/_components/UserMenu.tsx:26-28 | a name of spaces has no first characters |
| `UserMenu.BlankNameGivesU` | blingo/app/dashboards/_components/UserMenu.tsx:30 | an empty or all-space name gives "U" |
| `UserMenu.SplitWord` | blingo/app/dashboards/_components/UserMenu.tsx:26 | a space-free word is one piece |
| `UserMenu.SplitWordThen` | blingo/app/dashboards/_components/UserMenu.tsx:26 | a space-free word followed by a space is the first piece |
| `UserMenu.SplitTwoWords` | blingo/app/dashboards/_components/UserMenu.tsx:26 | "a b" splits into a and b |
| `UserMenu.TwoWordInitials` | blingo/app/dashboards/_components/UserMenu.tsx:25-30 | "first last" gives the two upper-cased first letters |
| `UserMenu.MenuAvatar` | blingo/app/dashboards/_components/UserMenu.tsx:23-49 | nothing without a user. The picture when the user has one, otherwise the initials of 1 or 2 characters |

## Left out

- HTTP, the Supabase client and the CORS/JSON response construction are replaced by their answers, given as inputs. No request is actually issued, and logging is omitted.
- Concurrency is not modelled:
  - the `Promise.all` in getFullRepoData (github.ts:248-252) is three independent results;
  - the increment RPC is one indivisible step;
  - lost updates between concurrent requests are out of scope.
- `summarizeReadme` (chain.ts:34-52) is an outcome given as input, and so is the LangChain and zod machinery behind it.
- `Math.random` in generateApiKey becomes a nondeterministic choice from the alphabet.
- The `Date`/`toLocaleDateString` default key name (api-keys/route.ts:18-21) is a parameter.
- `percentUsed` in getUsageStats (rate-limit.ts:239) is floating point, and is not part of `UsageStats`.
- A POST body of JSON `null` makes the destructuring throw outside any handler (route.ts:140). This is not modelled.
- The JSON fields the handlers read are strings or absent. Other JSON types are not modelled, except the key name (api-keys/route.ts:137), which has a `NotText` case.
- `blingo/app/dashboards/_utils/apiKeyUtils` is not part of this model. Its `generateApiKey` and `maskKey` are parameters: the fresh key is an input to `UseApiKeys.ApiKeyList.CreateKey`, and the mask a function argument of `ApiKeyTable.DisplayedKey`.
- `getOrCreateUserByEmail` and `upsertUser` live outside the modelled files. The user row they yield, and whether the upsert fails, are inputs.
- `GitHub.GetLatestTag`: a tag entry without a name is not modelled. The source then reports a null `latestVersion`, the name "Tag: undefined" and a URL ending in "undefined" (github.ts:179-182).
- `SummarizerRoute.ReadmePreview`: cuts 500 Dafny characters, where JavaScript's `slice` cuts 500 UTF-16 code units. The two differ only for text with characters outside the Basic Multilingual Plane.
- `UseApiKeys.ApiKeyList.CreateKey`: the new list entry is built from the record sent plus the id the insert answers. The source takes every field from the row the insert returns (useApiKeys.ts:71-81), so the model assumes the store answers the row as sent.
- `ApiKeysRoute.Post`: the created key in the reply is the record sent plus the id and creation time the insert answers. The source replies with the returned row (api-keys/route.ts:149-163), so the model assumes the store answers the row as sent.
- `UserMenu.Initials`: upper-casing covers ASCII letters only, and a character is a Dafny `char`. Unicode case mapping and UTF-16 surrogate pairs are not modelled.
- The React rendering of every component is left out: markup, the copy button's 2-second timer, and dropdown and sidebar state. Only the state logic named above is modelled.
