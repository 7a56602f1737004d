/**
 * The answer built from the upstream response: its headers rewritten, then
 * one of three shapes — the WebSocket upgrade, a redirect with a null body and
 * its `Location` made relative when it points back at the upstream host, or
 * the upstream status and body passed through.
 */
module Rewrite {
  import opened Wrappers
  import opened Text
  import opened HeaderMaps
  import opened Urls
  import opened Messages
  import opened Classifier
  import opened Config

  const ImmutableCache := "public, max-age=31536000, immutable"

  /** The message of the TypeError that the URL constructor throws on an unparsable input. */
  const InvalidUrlMessage := "Invalid URL string."

  /** The statuses whose `Location` the handler inspects. */
  predicate IsRedirect(status: int)
  {
    status == 301 || status == 302 || status == 303 || status == 307 || status == 308
  }

  /** Whether the forced long-lived caching applies: a static path answered with 200. */
  predicate ForcesCache(tags: Tags, status: int)
  {
    tags.isStatic && status == 200
  }

  /** The header names the rewrite may change for a response with these tags and status. */
  function Touched(tags: Tags, status: int): set<string>
  {
    {"content-security-policy", "clear-site-data", "access-control-allow-origin"}
    + (if tags.isVideo then {"connection"} else {})
    + (if ForcesCache(tags, status) then {"cache-control", "pragma", "expires"} else {})
  }

  /** The upstream headers after the rewrite. */
  function Rewritten(tags: Tags, status: int, upstream: Fields): Fields
  {
    ResponseHeaderNames();
    var base := (upstream - {"content-security-policy"} - {"clear-site-data"})["access-control-allow-origin" := "*"];
    var video := if tags.isVideo then base["connection" := "close"] else base;
    if ForcesCache(tags, status) then video["cache-control" := ImmutableCache] - {"pragma"} - {"expires"} else video
  }

  /** The names as the handler spells them fold to the keys the header list stores. */
  lemma ResponseHeaderNames()
    ensures Fold("access-control-allow-origin") == "access-control-allow-origin"
    ensures Fold("content-security-policy") == "content-security-policy"
    ensures Fold("clear-site-data") == "clear-site-data" && Fold("Connection") == "connection"
    ensures Fold("Cache-Control") == "cache-control" && Fold("Pragma") == "pragma"
    ensures Fold("Expires") == "expires" && Fold("Location") == "location"
    ensures IsFolded("connection") && IsFolded("cache-control") && IsFolded("location")
  {
    FoldedAllowOrigin();
    FoldedPolicyNames();
    FoldedCacheNames();
    FoldedKeys();
  }

  lemma FoldedAllowOrigin()
    ensures Fold("access-control-allow-origin") == "access-control-allow-origin"
  {
  }

  lemma FoldedPolicyNames()
    ensures Fold("content-security-policy") == "content-security-policy"
    ensures Fold("clear-site-data") == "clear-site-data" && Fold("Connection") == "connection"
  {
  }

  lemma FoldedCacheNames()
    ensures Fold("Cache-Control") == "cache-control" && Fold("Pragma") == "pragma"
    ensures Fold("Expires") == "expires" && Fold("Location") == "location"
  {
  }

  lemma FoldedKeys()
    ensures IsFolded("connection") && IsFolded("cache-control") && IsFolded("location")
  {
  }

  /** What the client sees of the upstream headers. */
  lemma RewrittenHeaders(tags: Tags, status: int, upstream: Fields)
    ensures var h := Rewritten(tags, status, upstream);
            && "content-security-policy" !in h && "clear-site-data" !in h
            && Lookup(h, "access-control-allow-origin") == Some("*")
            && (tags.isVideo ==> Lookup(h, "Connection") == Some("close"))
            && (ForcesCache(tags, status) ==>
                  Lookup(h, "Cache-Control") == Some(ImmutableCache) && "pragma" !in h && "expires" !in h)
            && (forall k :: k !in Touched(tags, status) ==>
                  (k in h <==> k in upstream) && (k in upstream ==> h[k] == upstream[k]))
  {
    ResponseHeaderNames();
  }

  /** Rewrites a copy of the upstream headers for a response with status `status`. */
  method RewriteHeaders(tags: Tags, status: int, upstream: Fields) returns (h: Fields)
    ensures h == Rewritten(tags, status, upstream)
  {
    ResponseHeaderNames();
    var resHeaders := new Headers(upstream);
    resHeaders.Delete("content-security-policy");
    resHeaders.Delete("clear-site-data");
    resHeaders.Set("access-control-allow-origin", "*");
    ghost var base := resHeaders.fields;
    assert base == (upstream - {"content-security-policy"} - {"clear-site-data"})["access-control-allow-origin" := "*"];

    if tags.isVideo {
      resHeaders.Set("Connection", "close");
    }
    ghost var video := resHeaders.fields;
    assert video == if tags.isVideo then base["connection" := "close"] else base;

    if tags.isStatic && status == 200 {
      resHeaders.Set("Cache-Control", ImmutableCache);
      resHeaders.Delete("Pragma");
      resHeaders.Delete("Expires");
      assert resHeaders.fields == video["cache-control" := ImmutableCache] - {"pragma"} - {"expires"};
    }
    h := resHeaders.fields;
  }

  /** What the redirect branch does with the `Location` value. */
  datatype LocationFix = Invalid | Keep | Replace(value: string)

  /**
   * A present, non-empty `Location` is resolved against the target URL; when
   * it names the target's host it is replaced by its path and query, and when
   * it does not parse the handler fails.
   */
  function FixLocation(target: Url, location: Option<string>): LocationFix
  {
    if location.None? || location.value == [] then Keep
    else match Resolve(location.value, target)
      case None => Invalid
      case Some(u) => if u.hostname == target.hostname then Replace(PathAndSearch(u)) else Keep
  }

  /** A path-absolute `Location` without a query is kept as it is. */
  lemma FixPathAbsolute(target: Url, p: string)
    requires StartsWith(p, "/") && !StartsWith(p, "//") && '#' !in p && '?' !in p
    ensures FixLocation(target, Some(p)) == Replace(p)
  {
    ResolvePathAbsolute(p, target);
    SplitWithoutQuery(p);
  }

  /** An absolute `Location` on the target's host is cut down to its path and query, whatever its scheme. */
  lemma FixSameHost(target: Url, scheme: string, rest: string)
    requires IsSpecial(scheme) && ValidHost(target.hostname) && IsFolded(target.hostname)
    requires rest == [] || rest[0] == '/' || rest[0] == '?'
    requires '#' !in rest
    ensures FixLocation(target, Some(scheme + "://" + target.hostname + rest))
         == Replace(NonEmptyPath(PathPart(rest)) + SearchPart(rest))
  {
    ResolveAbsolute(scheme, target.hostname, rest, target);
  }

  /** An absolute `Location` on another host is left alone. */
  lemma FixOtherHost(target: Url, scheme: string, h: string, rest: string)
    requires IsSpecial(scheme) && ValidHost(h) && IsFolded(h) && h != target.hostname
    requires rest == [] || rest[0] == '/' || rest[0] == '?'
    requires '#' !in rest
    ensures FixLocation(target, Some(scheme + "://" + h + rest)) == Keep
  {
    ResolveAbsolute(scheme, h, rest, target);
  }

  /** An absolute redirect back to the upstream host, `https://your-emby-server.com/path?x=1`, becomes `/path?x=1`. */
  lemma FixUpstreamRedirect(target: Url, path: string, query: string)
    requires target.hostname == UpstreamHost
    requires StartsWith(path, "/") && '?' !in path && '#' !in path
    requires query != [] && '#' !in query
    ensures FixLocation(target, Some("https://" + target.hostname + path + "?" + query)) == Replace(path + "?" + query)
  {
    var rest := path + "?" + query;
    var location := "https://" + target.hostname + path + "?" + query;
    assert location == "https" + "://" + target.hostname + rest;
    SplitWithQuery(path, query);
    assert NonEmptyPath(PathPart(rest)) + SearchPart(rest) == rest;
    UpstreamHostValid();
    FixSameHost(target, "https", rest);
    assert FixLocation(target, Some(location)) == Replace(rest);
  }

  /** A `Location` of "//" does not parse. */
  lemma FixEmptyHost(target: Url)
    ensures FixLocation(target, Some("//")) == Invalid
  {
    assert "//" == "//" + [];
    ResolveEmptyHost([], target);
  }

  /**
   * The response for the client, given the target URL, the upstream response
   * and its rewritten headers `h`; `Err` when the redirect `Location` does not
   * parse.
   */
  method Finish(target: Url, upstream: Response, h: Fields) returns (r: Result<Response>)
    ensures upstream.status == 101 ==> r == Ok(Response(101, h, Null, upstream.webSocket))
    ensures IsRedirect(upstream.status) ==>
              match FixLocation(target, Lookup(h, "location"))
              case Invalid => r == Err(InvalidUrlMessage)
              case Keep => r == Ok(Response(upstream.status, h, Null, None))
              case Replace(v) => r == Ok(Response(upstream.status, h["location" := v], Null, None))
    ensures upstream.status != 101 && !IsRedirect(upstream.status) ==>
              r == Ok(Response(upstream.status, h, upstream.body, None))
  {
    if upstream.status == 101 {
      return Ok(Response(101, h, Null, upstream.webSocket));
    }
    if IsRedirect(upstream.status) {
      ResponseHeaderNames();
      var resHeaders := new Headers(h);
      var location := resHeaders.Get("location");
      if location.Some? && location.value != [] {
        var locUrl := Resolve(location.value, target);
        if locUrl.None? {
          return Err(InvalidUrlMessage);
        }
        if locUrl.value.hostname == target.hostname {
          resHeaders.Set("Location", PathAndSearch(locUrl.value));
        }
      }
      return Ok(Response(upstream.status, resHeaders.fields, Null, None));
    }
    return Ok(Response(upstream.status, h, upstream.body, None));
  }
}
