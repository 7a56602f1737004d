/**
 * The outbound request: the target URL on the upstream origin, the rewritten
 * header list, the body (buffered for replayable interactive requests) and
 * the fetch options.
 */
module Outbound {
  import opened Wrappers
  import opened Text
  import opened HeaderMaps
  import opened Urls
  import opened Config
  import opened Messages
  import opened Policy

  /** The `redirect` option of the Fetch standard's RequestInit. */
  datatype RedirectMode = Follow | Error | Manual

  /** `fetchOptions` together with the target URL. */
  datatype Outgoing = Outgoing(url: Url, verb: string, headers: Fields, body: Body, redirect: RedirectMode, cf: CfConfig)

  /** The edge headers that are never forwarded. */
  const EdgeHeaders: set<string> := {"cf-connecting-ip", "x-forwarded-for", "cf-ray", "cf-visitor"}

  /** The headers that are set to the upstream's identity. */
  const IdentityHeaders: set<string> := {"host", "referer", "origin"}

  // ---------------------------------------------------------------- target URL

  /**
   * The target URL: the upstream origin with the inbound path and query, the
   * scheme forced to that of the upstream.
   */
  function Target(u: Url): (t: Url)
    ensures Origin(t) == Origin(UpstreamUrl) && t.hostname == UpstreamHost
    ensures PathAndSearch(t) == PathAndSearch(u)
  {
    UpstreamUrl.(pathname := u.pathname, search := u.search)
  }

  /** `new URL(url.pathname + url.search, CONFIG.UPSTREAM_URL)`, as the handler writes it. */
  function TargetAsWritten(u: Url): Option<Url>
  {
    Resolve(PathAndSearch(u), UpstreamUrl)
  }

  /** For every ordinary path the handler's expression yields the intended target. */
  lemma TargetAsWrittenAgrees(u: Url)
    requires StartsWith(u.pathname, "/") && !StartsWith(u.pathname, "//")
    requires '?' !in u.pathname && '#' !in u.pathname
    requires u.search == [] || (|u.search| > 1 && u.search[0] == '?')
    requires '#' !in u.search
    ensures TargetAsWritten(u) == Some(Target(u))
  {
    ResolvePathAndSearch(u.pathname, u.search, UpstreamUrl);
  }

  /**
   * A path that starts with "//" followed by a host is read as a scheme-relative
   * reference: the request goes to that host, not to the upstream.
   */
  lemma TargetAsWrittenLeavesUpstream(u: Url, h: string, rest: string)
    requires PathAndSearch(u) == "//" + h + rest
    requires ValidHost(h) && IsFolded(h)
    requires rest == [] || rest[0] == '/' || rest[0] == '?'
    requires '#' !in rest
    ensures TargetAsWritten(u) == Some(Url("https", h, None, NonEmptyPath(PathPart(rest)), SearchPart(rest)))
  {
    ResolveSchemeRelative(h, rest, UpstreamUrl);
  }

  /** The request for `https://proxy.example//evil.example/x` is sent to `evil.example`. */
  lemma TargetAsWrittenEscapes()
    ensures var u := Url("https", "proxy.example", None, "//evil.example/x", "");
            TargetAsWritten(u) == Some(Url("https", "evil.example", None, "/x", ""))
  {
    var u := Url("https", "proxy.example", None, "//evil.example/x", "");
    var h, rest := "evil.example", "/x";
    assert PathAndSearch(u) == "//" + h + rest;
    assert ValidHost(h) && IsFolded(h);
    TargetAsWrittenLeavesUpstream(u, h, rest);
    SplitWithoutQuery(rest);
  }

  /** The path "//" makes the handler's URL constructor throw, before the `try` that would answer 502. */
  lemma TargetAsWrittenThrows(u: Url)
    requires u.pathname == "//" && u.search == []
    ensures TargetAsWritten(u) == None
  {
    assert PathAndSearch(u) == "//" + [];
    ResolveEmptyHost([], UpstreamUrl);
  }

  // ---------------------------------------------------------------- body

  /** Only requests other than GET and HEAD, outside the upload paths, are read into memory. */
  predicate ShouldBuffer(verb: string, pathname: string)
  {
    verb != "GET" && verb != "HEAD" && !Contains(pathname, "/Upload")
  }

  /** `await req.arrayBuffer()`: the bytes of the stream, none when there is no body. */
  function ArrayBuffer(b: RequestBody): Body
  {
    match b
    case Null => Buffered([])
    case Stream(bytes) => Buffered(bytes)
  }

  // ---------------------------------------------------------------- request

  lemma RequestHeaderNames()
    ensures Fold("Host") == "host" && Fold("Referer") == "referer" && Fold("Origin") == "origin"
    ensures Fold("cf-connecting-ip") == "cf-connecting-ip" && Fold("x-forwarded-for") == "x-forwarded-for"
    ensures Fold("cf-ray") == "cf-ray" && Fold("cf-visitor") == "cf-visitor"
    ensures Fold("content-length") == "content-length"
  {
  }

  /**
   * The forwarded header list: the inbound one with the identity headers set
   * to the upstream, the edge headers removed, and `content-length` removed
   * when the body is buffered.
   */
  function Forwarded(inbound: Fields, buffer: bool): Fields
  {
    var identified := inbound["host" := UpstreamHost]["referer" := Origin(UpstreamUrl)]["origin" := Origin(UpstreamUrl)];
    var stripped := identified - {"cf-connecting-ip"} - {"x-forwarded-for"} - {"cf-ray"} - {"cf-visitor"};
    if buffer then stripped - {"content-length"} else stripped
  }

  /** What the upstream sees of the inbound headers. */
  lemma ForwardedHeaders(inbound: Fields, buffer: bool)
    ensures var out := Forwarded(inbound, buffer);
            && Lookup(out, "Host") == Some(UpstreamHost)
            && Lookup(out, "Referer") == Some(Origin(UpstreamUrl))
            && Lookup(out, "Origin") == Some(Origin(UpstreamUrl))
            && (forall k :: k in EdgeHeaders ==> k !in out)
            && (buffer ==> "content-length" !in out)
            && (forall k :: k !in IdentityHeaders && k !in EdgeHeaders && !(k == "content-length" && buffer)
                  ==> (k in out <==> k in inbound) && (k in inbound ==> out[k] == inbound[k]))
  {
    RequestHeaderNames();
  }

  /** Builds the outbound request for `req`, with the edge policy `cf`. */
  method Prepare(req: Request, cf: CfConfig) returns (out: Outgoing)
    ensures out.url == Target(req.url) && out.verb == req.verb
    ensures out.redirect == Manual && out.cf == cf
    ensures out.headers == Forwarded(req.headers, ShouldBuffer(req.verb, req.url.pathname))
    ensures out.body == if ShouldBuffer(req.verb, req.url.pathname) then ArrayBuffer(req.body) else req.body
  {
    RequestHeaderNames();
    var target := Target(req.url);
    var host, origin := target.hostname, Origin(target);
    assert host == UpstreamHost && origin == Origin(UpstreamUrl);
    var proxyHeaders := new Headers(req.headers);
    proxyHeaders.Set("Host", host);
    assert proxyHeaders.fields == req.headers["host" := UpstreamHost];
    proxyHeaders.Set("Referer", origin);
    proxyHeaders.Set("Origin", origin);
    ghost var identified := proxyHeaders.fields;
    assert identified == req.headers["host" := UpstreamHost]["referer" := Origin(UpstreamUrl)]["origin" := Origin(UpstreamUrl)];

    proxyHeaders.Delete("cf-connecting-ip");
    proxyHeaders.Delete("x-forwarded-for");
    proxyHeaders.Delete("cf-ray");
    proxyHeaders.Delete("cf-visitor");

    var reqBody: Body := req.body;
    if ShouldBuffer(req.verb, req.url.pathname) {
      reqBody := ArrayBuffer(req.body);
      proxyHeaders.Delete("content-length");
    }

    out := Outgoing(target, req.verb, proxyHeaders.fields, reqBody, Manual, cf);
  }
}
