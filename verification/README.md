# cf-emby-proxy request handler, modelled in Dafny

This project models the request handler of a Cloudflare Worker (`worker.js`).
The worker is a reverse proxy in front of one Emby media server. For every inbound
request the handler does the following:

- it classifies the path as static, video or API-cacheable, and detects a WebSocket upgrade;
- it builds the `cf` record of edge caching and optimisation hints;
- it re-roots the path and query onto the upstream origin and rewrites the identity headers;
- it drops the edge headers and buffers the body of every request other than GET and HEAD whose
  path has no `/Upload`;
- it sends the request with one of two strategies: one direct attempt, or a first attempt
  bounded by 2500 ms followed, when it yields no response, by one unbounded retry;
- it rewrites the response headers;
- it returns the WebSocket upgrade; a redirect with a null body, its `Location` made
  host-relative when it resolves to the upstream host; or the upstream status and body;
- when the last attempt fails, or a redirect `Location` does not parse, it answers 502 with
  `{"error":"Proxy Error: <message>"}`.

Modules, one per component:

- `Wrappers`: `Option` and `Result`.
- `Text`: ASCII case folding, line terminators, substring search and decimal digits.
- `HeaderMaps`: the Fetch `Headers` object, a map keyed by lower-cased names that `set` and `delete` update in place.
- `Urls`: a simplified `new URL(input, base)`.
- `Patterns`: the three regular expressions as an abstract syntax. It has a declarative
  match relation (`Span`, `Test`) and an executable matcher (`Ends`, `Search`) proved equal to it.
- `Config`: the `CONFIG` constants.
- `Messages`: bodies, requests and responses.
- `Classifier`: the four tags.
- `Policy`: the `cf` record.
- `Json`: JSON.stringify's string quoting and its inverse.
- `Outbound`: the target URL, the forwarded headers and the buffered body.
- `Dispatch`: the two attempt strategies.
- `Rewrite`: the response headers, the upgrade, redirect and pass-through shapes.
- `Handler`: the whole request handler.

Time and the network are parameters. What the upstream does with each attempt is a
`Behaviour`: it answers after a delay, or fails after a delay with a message. The
model decides each attempt's outcome from that: a response, a timeout or an error.

Two consequences of the code that are easy to miss:

- A redirect whose `Location` does not parse is answered with a 502, not passed through:
  `new URL(location, targetUrl.href)` (worker.js:145) throws inside the outer `try`, so
  worker.js:158-160 answers (`Rewrite.FixEmptyHost`, `Rewrite.Finish`, `Handler.AnswerFor`).
- Only POST is sent directly among the methods (worker.js:106); PUT, PATCH and DELETE get
  the bounded attempt and the retry (`Dispatch.IsDirect`).

## Model

| member | source | states |
|---|---|---|
| `HeaderMaps.LookupIgnoresCase` | worker.js:65 | `headers.get(name)` finds a value exactly when some stored name equals `name` ignoring case, and the value is that name's |
| `HeaderMaps.Put` | worker.js:44-46 | after `set(name, value)`, `get` of every spelling of `name` yields `value`, and `get` of any other name yields what it did before |
| `HeaderMaps.Remove` | worker.js:49-52 | after `delete(name)`, `get` of every spelling of `name` yields `null`, and `get` of any other name yields what it did before |
| `HeaderMaps.Headers.Set` | worker.js:44-46 | `set` replaces the value under the lower-cased name and changes no other entry: the new list is `Put` of the old one |
| `HeaderMaps.Headers.Delete` | worker.js:49-52 | `delete` removes the lower-cased name and nothing else, an absent name being a no-op: the new list is `Remove` of the old one |
| `Urls.ResolvePathAbsolute` | worker.js:145 | a path-absolute reference keeps the base's scheme, host and port and takes the reference's path and query |
| `Urls.ResolveSchemeRelative` | worker.js:41 | a reference `//host rest` keeps only the base's scheme and takes the host, path and query it names |
| `Urls.ResolveAbsolute` | worker.js:145 | an absolute URL with a special scheme parses to its own scheme, host, path and query, whatever the base |
| `Urls.ResolvePathAndSearch` | worker.js:41 | a path-absolute path followed by a query replaces exactly the base's path and query |
| `Urls.ResolveEmptyHost` | worker.js:145 | a scheme-relative reference with an empty host makes the URL constructor throw |
| `Config.UpstreamParses` | worker.js:4 | the upstream constant parses to scheme https, host your-emby-server.com, default port, path "/" and no query |
| `Patterns.EndsCorrect` | worker.js:9-16 | from any start, the executable matcher's end positions are exactly the spans the pattern matches (case-insensitive literals, `.` excluding line terminators) |
| `Patterns.SearchCorrect` | worker.js:62-64 | `RegExp.prototype.test` on an unanchored pattern is true exactly when the pattern matches some span of the path |
| `Patterns.GapCorrect` | worker.js:12 | `A.*B` matches exactly when A occurs (ignoring case) and B occurs at or after its end, with no line terminator between |
| `Patterns.SpanChoice` | worker.js:9 | each literal of an alternation group such as the extension list is matched by the group |
| `Classifier.Classify` | worker.js:62-65 | each path tag holds exactly when its pattern matches the path; `isWebSocket` holds exactly when `Upgrade` is exactly `websocket` |
| `Classifier.JsonPathIsStatic` | worker.js:9 | the pattern is unanchored: `/foo.json` is static because it contains `.js` |
| `Classifier.UserItemDownloadTags` | worker.js:12-16 | the tags are independent: `/Users/u/Items/x/Download` is both video and API-cacheable, and not static |
| `Classifier.PlainPathTags` | worker.js:9-16 | a path that matches no pattern (`/Sessions/Playing`) gets no path tag |
| `Patterns.TestLitContains` | worker.js:9-16 | a literal of a case-insensitive pattern matches exactly where its lower-cased text occurs in the lower-cased path |
| `Patterns.ChoiceSpan` | worker.js:9 | every match of an alternation group is a match of one of its literals |
| `Patterns.LitChoiceCorrect` | worker.js:9 | a literal `A` followed by an alternation group of literals matches exactly when, ignoring case, `A` followed by one of those literals occurs in the path |
| `Classifier.StaticBySubstrings` | worker.js:9 | static holds exactly when the folded path contains `.` followed by one of the eleven extensions, or `/images/` followed by one of the six image routes |
| `Classifier.VideoBySubstrings` | worker.js:12 | video holds exactly when the folded path contains `/videos/`, or contains `/items/` followed on the same line by `/download` or `/stream` |
| `Classifier.ApiCacheableBySubstrings` | worker.js:16 | API-cacheable holds exactly when the folded path contains `/items/resume`, or `/users/` followed on the same line by `/items/` |
| `Policy.BuildPolicy` | worker.js:68-92 | `cacheEverything` is on exactly when the path is static or API-cacheable, after the override; the TTL is one year only for static paths; the status TTL is `{"200-299": 10}` exactly for API-cacheable paths; polish is lossy and all minify flags are on exactly for static paths; mirage, scrapeShield and apps are off. The record is `Hints(tags)` |
| `Json.Escape` | worker.js:159 | one character's JSON.stringify escape starts with a backslash exactly for quote, backslash and control characters, and is the character itself for every other one; it has no control character, and a double quote appears in it only as the escape `\"` |
| `Json.Quote` | worker.js:159 | quoted text holds no control character, and every double quote in it is preceded by a backslash (that each one is an escape, not a raw quote after `\\`, is what `Json.UnquoteQuote` shows) |
| `Json.UnquoteQuote` | worker.js:159 | a JSON parser reads quoted text back to the original string |
| `Json.ErrorPayloadRoundTrip` | worker.js:159 | the error member of the 502 body reads back as `Proxy Error: ` followed by the message |
| `Outbound.Target` | worker.js:40-41 | (corrected) the target has the upstream origin and the inbound path and query |
| `Outbound.TargetAsWrittenAgrees` | worker.js:41 | for a path that does not start with `//`, the handler's `new URL(pathname + search, UPSTREAM_URL)` yields the corrected target |
| `Outbound.TargetAsWrittenLeavesUpstream` | worker.js:41 | for a path `//host rest`, the handler's expression sends the request to that host |
| `Outbound.TargetAsWrittenEscapes` | worker.js:41 | (as written) the request for path `//evil.example/x` goes to `https://evil.example/x` |
| `Outbound.TargetAsWrittenThrows` | worker.js:41 | (as written) for path `//` the handler's expression throws, and it sits outside the `try` |
| `Outbound.ForwardedHeaders` | worker.js:43-59 | `Host` is the upstream host and `Referer` and `Origin` are the upstream origin; the four edge headers are absent; `content-length` is absent when the body is buffered; every other inbound header is kept with its value, and nothing is added |
| `Outbound.Prepare` | worker.js:41-59 | the outbound request has the target URL, the inbound method, manual redirects, the given `cf` record and the forwarded headers. Its body is the read-in bytes exactly when the method is not GET or HEAD and the path has no `/Upload`; otherwise it is the inbound body |
| `Dispatch.TimeoutMonotone` | worker.js:24-35 | a longer bound never loses an outcome: what an attempt yields under a shorter bound it yields under a longer one, and a timeout under the longer bound is one under the shorter |
| `Dispatch.TimeoutSettled` | worker.js:24-35 | the bounded attempt is the unbounded one exactly when the upstream settles before the bound |
| `Dispatch.Dispatch` | worker.js:102-115 | video, WebSocket and POST requests get exactly one unbounded attempt. Others get the bounded attempt, and a second, unbounded one exactly when the first produced no response. The outcome is that of the last attempt, and never a timeout |
| `Rewrite.RewriteHeaders` | worker.js:118-135 | the method's header updates produce `Rewritten` |
| `Rewrite.RewrittenHeaders` | worker.js:118-135 | `content-security-policy` and `clear-site-data` are absent and `access-control-allow-origin` is `*`. Video gets `Connection: close`. A static 200 gets the immutable one-year `Cache-Control`, without `Pragma` or `Expires`. Every other header is unchanged |
| `Rewrite.FixPathAbsolute` | worker.js:142-148 | a path-absolute `Location` without a query is kept as it is |
| `Rewrite.FixSameHost` | worker.js:145-148 | an absolute `Location` on the target's host, with any special scheme, is cut down to its path and query |
| `Rewrite.FixUpstreamRedirect` | worker.js:145-148 | a redirect to the upstream host, such as `https://your-emby-server.com/path?x=1`, becomes its path and query, `/path?x=1` |
| `Rewrite.FixOtherHost` | worker.js:146 | an absolute `Location` on another host is left alone |
| `Rewrite.FixEmptyHost` | worker.js:144-145 | a `Location` of `//` does not parse |
| `Rewrite.Finish` | worker.js:137-156 | 101 gives 101 with a null body, the upstream socket and the rewritten headers. A redirect keeps its status and gets a null body, with `Location` replaced only when it resolves to the target host, and an error when it does not parse. A redirect without `Location` still gets a null body. Any other status passes status and body through |
| `Handler.ErrorResponse` | worker.js:158-160 | the error answer has status 502, no socket, and a body whose error member is `Proxy Error: ` followed by the message |
| `Handler.Respond` | worker.js:117-156 | the answer to an upstream response is the rewritten-header upgrade, redirect or pass-through, or the 502 for an unparsable `Location` |
| `Handler.AnswerHeaders` | worker.js:118-156 | every answer built from an upstream response (all but the unparsable-`Location` 502) allows any origin, has no CSP and no clear-site-data, and closes the connection for video |
| `Handler.Handle` | worker.js:37-160 | end to end: the outbound request's URL, method, redirect mode, headers and body (buffered exactly as `Prepare` states), its `cf` record `Hints(tags)`, the attempts made, the 502 after a failed last attempt, and the answer built from a response |
| `Handler.Exchange` | worker.js:102-160 | inside the `try`: the attempts made by the strategy the tags choose, never ending in a timeout; the 502 naming the last attempt's failure, or the answer built from its response |
| `Handler.UnreachableUpstream` | worker.js:110-160 | when both attempts of a timed request fail, exactly two attempts are made and the client gets the 502 naming the retry's failure |

## Findings

| source | as written | input that shows it | evidently intended | confidence | as-written member | corrected member |
|---|---|---|---|---|---|---|
| worker.js:41 | `new URL(url.pathname + url.search, CONFIG.UPSTREAM_URL)` reads a path that starts with `//` as a scheme-relative reference | a request for `https://proxy.example//evil.example/x` (pathname `//evil.example/x`) is sent to `https://evil.example/x`, with its `Host` header set to that host | the target is always the upstream origin with the inbound path and query, as the comment at worker.js:40 says | medium, not executed | `Outbound.TargetAsWrittenEscapes` | `Outbound.Target` |
| worker.js:41 | the same expression throws for the path `//`, and line 41 is outside the `try` of worker.js:102 | a request for `https://proxy.example//` | the handler builds a target for every path and never fails before dispatch | medium, not executed | `Outbound.TargetAsWrittenThrows` | `Outbound.Target` |

The rest of the model uses `Outbound.Target`. `Outbound.TargetAsWrittenAgrees` shows the
two agree on every path that does not start with `//`.

## Left out

- Hono app construction, routing and the `export` (worker.js:1, 22, 37, 163) are framework plumbing. So is the 500 that Hono gives for an exception outside the `try`.
- Dispatch.Dispatch: the retry (worker.js:113) re-sends the same `fetchOptions.body`. When that body is an unbuffered stream (a method other than GET, HEAD and POST on a path with `/Upload`), the first attempt has already taken the stream, so under the Fetch standard the retry rejects and the client gets the 502. The model lets `second` decide the retry whatever the body.
- Real `fetch`, `AbortController` and `setTimeout` (worker.js:24-35) are not modelled. Each attempt's behaviour is an input. An upstream that settles at exactly 2500 ms counts as timed out. The timer bounds only the arrival of the response head, not the streaming of its body.
- How Cloudflare honours the `cf` hints is not modelled; the code only emits the record.
- Streaming bodies and the WebSocket object are opaque values. `arrayBuffer()` is a copy of the stream's bytes, and no bytes for a null body.
- URL parsing is simplified in `Urls.Resolve`. Left out: percent-encoding, dot segments, backslashes as slashes, removal of tabs and newlines, leading and trailing spaces, IPv6 and IDNA hosts, IPv4 address parsing and its failures (a host such as `1.2.3.999` is accepted, where the URL standard rejects it), hosts of non-special schemes (the model gives `foo://host/x` no host), the `file` scheme, and userinfo, which the model drops. The inbound URL is given already parsed.
- Header values are stored as given. Combining repeated headers, trimming values and rejecting invalid names are not modelled.
- The request method is taken as given. The runtime upper-cases the standard methods before the handler sees them.
- The `Response` constructor's own checks are not modelled: the status range, and statuses that must not carry a body.
- `Rewrite.InvalidUrlMessage` is the runtime's TypeError text, taken as a constant. The model does not cover a thrown value that is not an `Error` (its message would be `undefined`).
- `Json.Quote`: Dafny strings hold Unicode scalar values, so JSON.stringify's escaping of lone surrogates does not arise.
- Concurrency between requests is not modelled; requests share only the immutable `CONFIG`.
