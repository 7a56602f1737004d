/**
 * A simplified model of the WHATWG URL parser, as `new URL(input, base)` is
 * used by the proxy: resolving a reference (absolute, scheme-relative,
 * path-absolute, query-only or path-relative) against a base URL, with the
 * failure cases the parser reports (empty or malformed host, bad port).
 */
module Urls {
  import opened Wrappers
  import opened Text

  /**
   * The parts of a parsed URL the proxy reads. `hostname` is lower-cased,
   * `port` is absent when it is the scheme's default, `search` is "" or
   * starts with '?' (the fragment is dropped: the proxy never reads it).
   */
  datatype Url = Url(scheme: string, hostname: string, port: Option<nat>, pathname: string, search: string)

  /** `url.origin` for a URL with a host. */
  function Origin(u: Url): string
  {
    u.scheme + "://" + u.hostname + (if u.port.Some? then ":" + NatToString(u.port.value) else "")
  }

  /** `url.pathname + url.search`. */
  function PathAndSearch(u: Url): string
  {
    u.pathname + u.search
  }

  /** The special schemes the resolver treats as having an authority ("file" is not modelled). */
  predicate IsSpecial(scheme: string)
  {
    scheme == "http" || scheme == "https" || scheme == "ws" || scheme == "wss" || scheme == "ftp"
  }

  function DefaultPort(scheme: string): nat
  {
    if scheme == "ftp" then 21
    else if scheme == "http" || scheme == "ws" then 80
    else 443
  }

  predicate IsAlpha(c: char)
  {
    'a' <= c <= 'z' || 'A' <= c <= 'Z'
  }

  predicate IsSchemeChar(c: char)
  {
    IsAlpha(c) || IsDigit(c) || c == '+' || c == '-' || c == '.'
  }

  function SchemeRunEnd(s: string, i: nat): (r: nat)
    requires i <= |s|
    ensures i <= r <= |s|
    ensures forall k :: i <= k < r ==> IsSchemeChar(s[k])
    ensures r < |s| ==> !IsSchemeChar(s[r])
    decreases |s| - i
  {
    if i == |s| || !IsSchemeChar(s[i]) then i else SchemeRunEnd(s, i + 1)
  }

  /** The length of the `scheme` in a leading `scheme ":"`, or 0 when the input has none. */
  function SchemeLength(s: string): (n: nat)
    ensures n > 0 ==> n < |s| && s[n] == ':' && IsAlpha(s[0])
    ensures n > 0 ==> forall k :: 0 <= k < n ==> IsSchemeChar(s[k])
  {
    if |s| > 0 && IsAlpha(s[0]) then
      var e := SchemeRunEnd(s, 1);
      if e < |s| && s[e] == ':' then e else 0
    else 0
  }

  /** Code points the host parser rejects (percent-decoding of hosts is not modelled). */
  predicate ForbiddenHostChar(c: char)
  {
    || c <= ' ' || c == '\U{7F}'
    || c == '#' || c == '%' || c == '/' || c == ':' || c == '<' || c == '>' || c == '?'
    || c == '@' || c == '[' || c == '\\' || c == ']' || c == '^' || c == '|'
  }

  predicate ValidHost(h: string)
  {
    h != [] && forall k :: 0 <= k < |h| ==> !ForbiddenHostChar(h[k])
  }

  /**
   * The port of an authority: `None` when it is not a number up to 65535,
   * `Some(None)` when it is empty or the scheme's default.
   */
  function ParsePort(scheme: string, p: string): Option<Option<nat>>
  {
    if p == [] then Some(None)
    else if !IsDigits(p) then None
    else
      var v := DigitsValue(p);
      if v > 65535 then None
      else if v == DefaultPort(scheme) then Some(None)
      else Some(Some(v))
  }

  function SearchOf(query: string): string
  {
    if query == [] then [] else "?" + query
  }

  /** The path of a path-and-query string (everything before the first '?'). */
  function PathPart(s: string): string
  {
    s[..FirstIn(s, {'?'}, 0)]
  }

  /** The `search` of a path-and-query string ("" when the query is absent or empty). */
  function SearchPart(s: string): string
  {
    var q := FirstIn(s, {'?'}, 0);
    if q < |s| then SearchOf(s[q + 1..]) else []
  }

  function NonEmptyPath(p: string): string
  {
    if p == [] then "/" else p
  }

  function StripFragment(s: string): string
  {
    s[..FirstIn(s, {'#'}, 0)]
  }

  function DropSlashes(s: string): string
  {
    s[FirstNotIn(s, {'/'}, 0)..]
  }

  /** The base with its path and query replaced by those of `s`. */
  function WithPath(base: Url, s: string): Url
  {
    base.(pathname := PathPart(s), search := SearchPart(s))
  }

  /** A path-relative reference: `s` replaces the last segment of the base's path. */
  function Merge(base: Url, s: string): Url
  {
    var dir := base.pathname[..|base.pathname| - |AfterLast(base.pathname, '/')|];
    WithPath(base, (if dir == [] then "/" else dir) + s)
  }

  /**
   * A URL of a non-special scheme. Simplified: the model gives it no host even
   * when an authority `//host` follows the scheme, where the URL standard reads one.
   */
  function Opaque(scheme: string, rest: string): Url
  {
    Url(scheme, [], None, PathPart(rest), SearchPart(rest))
  }

  /** The host and port of an authority `[userinfo@]host[:port]`; `None` when the parser rejects them. */
  function HostPort(scheme: string, authority: string): Option<(string, Option<nat>)>
  {
    var hostPort := AfterLast(authority, '@');
    var c := FirstIn(hostPort, {':'}, 0);
    var host := Fold(hostPort[..c]);
    var port := ParsePort(scheme, if c < |hostPort| then hostPort[c + 1..] else []);
    if !ValidHost(host) || port.None? then None else Some((host, port.value))
  }

  /** Parse `authority [path] [? query]` for a special scheme. */
  function WithAuthority(scheme: string, s: string): Option<Url>
  {
    var e := FirstIn(s, {'/', '?'}, 0);
    match HostPort(scheme, s[..e])
    case None => None
    case Some((host, port)) => Some(Url(scheme, host, port, NonEmptyPath(PathPart(s[e..])), SearchPart(s[e..])))
  }

  /** A reference without a scheme, resolved against the base. */
  function Relative(s: string, base: Url): Option<Url>
  {
    if StartsWith(s, "//") then WithAuthority(base.scheme, DropSlashes(s))
    else if StartsWith(s, "/") then Some(WithPath(base, s))
    else if StartsWith(s, "?") then Some(base.(search := SearchOf(s[1..])))
    else if s == [] then Some(base)
    else Some(Merge(base, s))
  }

  /** `new URL(input, base)`: `None` where the constructor throws a TypeError. */
  function Resolve(input: string, base: Url): Option<Url>
  {
    var s := StripFragment(input);
    var n := SchemeLength(s);
    if n == 0 then Relative(s, base)
    else
      var scheme := Fold(s[..n]);
      var rest := s[n + 1..];
      if !IsSpecial(scheme) then Some(Opaque(scheme, rest))
      else if scheme == base.scheme && !StartsWith(rest, "//") then Relative(rest, base)
      else WithAuthority(scheme, DropSlashes(rest))
  }

  // ---------------------------------------------------------------- lemmas

  lemma StripFragmentNoHash(s: string)
    requires '#' !in s
    ensures StripFragment(s) == s
  {
  }

  /** A query-free path splits into itself and an empty `search`. */
  lemma SplitWithoutQuery(path: string)
    requires '?' !in path
    ensures PathPart(path) == path && SearchPart(path) == []
  {
  }

  /** `path ? query` splits at its first '?'. */
  lemma SplitWithQuery(path: string, query: string)
    requires '?' !in path
    ensures PathPart(path + "?" + query) == path
    ensures SearchPart(path + "?" + query) == SearchOf(query)
  {
    var s := path + "?" + query;
    assert s[|path|] == '?';
    assert FirstIn(s, {'?'}, 0) == |path|;
    assert s[|path| + 1..] == query;
  }

  /** A path-absolute reference keeps the base's scheme, host and port. */
  lemma ResolvePathAbsolute(p: string, base: Url)
    requires StartsWith(p, "/") && !StartsWith(p, "//") && '#' !in p
    ensures Resolve(p, base) == Some(WithPath(base, p))
  {
    StripFragmentNoHash(p);
    assert p[0] == '/';
  }

  lemma HostStopsNothing(h: string, stops: set<char>)
    requires ValidHost(h)
    requires forall c :: c in stops ==> ForbiddenHostChar(c)
    ensures FirstIn(h, stops, 0) == |h|
  {
  }

  lemma HostHasNoAt(h: string)
    requires ValidHost(h)
    ensures AfterLast(h, '@') == h
  {
  }

  lemma HostEndsAtRest(h: string, rest: string)
    requires ValidHost(h)
    requires rest == [] || rest[0] == '/' || rest[0] == '?'
    ensures FirstIn(h + rest, {'/', '?'}, 0) == |h|
  {
    var s := h + rest;
    assert forall k :: 0 <= k < |h| ==> s[k] == h[k];
    assert |h| < |s| ==> s[|h|] == rest[0];
  }

  /** A valid lower-case host alone is its own host, with the default port. */
  lemma HostPortOfHost(scheme: string, h: string)
    requires ValidHost(h) && IsFolded(h)
    ensures HostPort(scheme, h) == Some((h, None))
  {
    HostHasNoAt(h);
    HostStopsNothing(h, {':'});
    var hp := AfterLast(h, '@');
    assert hp == h;
    var c := FirstIn(hp, {':'}, 0);
    assert c == |h|;
    assert hp[..c] == h;
    assert Fold(hp[..c]) == h;
    assert ParsePort(scheme, []) == Some(None);
  }

  /** `host rest` parses to exactly that host, the default port and `rest`'s path and query. */
  lemma AuthorityOfHost(scheme: string, h: string, rest: string)
    requires ValidHost(h) && IsFolded(h)
    requires rest == [] || rest[0] == '/' || rest[0] == '?'
    ensures WithAuthority(scheme, h + rest)
         == Some(Url(scheme, h, None, NonEmptyPath(PathPart(rest)), SearchPart(rest)))
  {
    var s := h + rest;
    HostEndsAtRest(h, rest);
    assert s[..|h|] == h;
    assert s[|h|..] == rest;
    HostPortOfHost(scheme, h);
  }

  lemma NoHashInAuthority(prefix: string, h: string, rest: string)
    requires '#' !in prefix && ValidHost(h) && '#' !in rest
    ensures '#' !in prefix + h + rest
  {
    var s := prefix + h + rest;
    forall k | 0 <= k < |s| ensures s[k] != '#' {
      if k < |prefix| {
        assert s[k] == prefix[k];
      } else if k < |prefix| + |h| {
        assert s[k] == h[k - |prefix|];
        assert !ForbiddenHostChar(h[k - |prefix|]);
      } else {
        assert s[k] == rest[k - |prefix| - |h|];
      }
    }
  }

  /** Dropping the leading slashes of `//host rest`. */
  lemma DropSlashesOfAuthority(h: string, rest: string)
    requires ValidHost(h)
    ensures StartsWith("//" + h + rest, "//")
    ensures DropSlashes("//" + h + rest) == h + rest
  {
    var s := "//" + h + rest;
    assert s[..2] == "//";
    assert s[2] == h[0] && !ForbiddenHostChar(h[0]);
    assert FirstNotIn(s, {'/'}, 0) == 2;
  }

  /** A scheme-relative reference `//host rest` takes the base's scheme and the given host. */
  lemma ResolveSchemeRelative(h: string, rest: string, base: Url)
    requires ValidHost(h) && IsFolded(h)
    requires rest == [] || rest[0] == '/' || rest[0] == '?'
    requires '#' !in rest
    ensures Resolve("//" + h + rest, base)
         == Some(Url(base.scheme, h, None, NonEmptyPath(PathPart(rest)), SearchPart(rest)))
  {
    var s := "//" + h + rest;
    NoHashInAuthority("//", h, rest);
    StripFragmentNoHash(s);
    assert SchemeLength(s) == 0 by { assert s[0] == '/'; }
    DropSlashesOfAuthority(h, rest);
    AuthorityOfHost(base.scheme, h, rest);
  }

  predicate IsLowerWord(w: string)
  {
    w != [] && forall k :: 0 <= k < |w| ==> 'a' <= w[k] <= 'z'
  }

  lemma SpecialIsLowerWord(scheme: string)
    requires IsSpecial(scheme)
    ensures IsLowerWord(scheme) && IsFolded(scheme)
  {
  }

  lemma SchemeLengthOf(scheme: string, tail: string)
    requires IsLowerWord(scheme)
    ensures SchemeLength(scheme + ":" + tail) == |scheme|
  {
    var s := scheme + ":" + tail;
    assert forall k :: 0 <= k < |scheme| ==> s[k] == scheme[k];
    assert s[|scheme|] == ':';
    assert SchemeRunEnd(s, 1) == |scheme|;
  }

  /** An absolute reference `scheme://host rest` of a special scheme names exactly that host. */
  lemma ResolveAbsolute(scheme: string, h: string, rest: string, base: Url)
    requires IsSpecial(scheme)
    requires ValidHost(h) && IsFolded(h)
    requires rest == [] || rest[0] == '/' || rest[0] == '?'
    requires '#' !in rest
    ensures Resolve(scheme + "://" + h + rest, base)
         == Some(Url(scheme, h, None, NonEmptyPath(PathPart(rest)), SearchPart(rest)))
  {
    var tail := "//" + h + rest;
    var s := scheme + ":" + tail;
    assert scheme + "://" + h + rest == s;
    SpecialIsLowerWord(scheme);
    assert '#' !in scheme + "://";
    NoHashInAuthority(scheme + "://", h, rest);
    assert scheme + "://" + h + rest == s;
    StripFragmentNoHash(s);
    SchemeLengthOf(scheme, tail);
    assert s[..|scheme|] == scheme;
    assert s[|scheme| + 1..] == tail;
    DropSlashesOfAuthority(h, rest);
    AuthorityOfHost(scheme, h, rest);
  }

  /** An origin written alone, `scheme://host`, resolves to that host with path "/" and no query. */
  lemma ResolveOrigin(s: string, scheme: string, h: string, base: Url)
    requires IsSpecial(scheme)
    requires ValidHost(h) && IsFolded(h)
    requires s == scheme + "://" + h
    ensures Resolve(s, base) == Some(Url(scheme, h, None, "/", ""))
  {
    ResolveAbsolute(scheme, h, [], base);
    assert scheme + "://" + h + [] == s;
    SplitWithoutQuery([]);
  }

  /** A scheme-relative reference with an empty host, such as "//", makes the constructor throw. */
  lemma ResolveEmptyHost(rest: string, base: Url)
    requires rest == [] || rest[0] == '?'
    requires '#' !in rest
    ensures Resolve("//" + rest, base) == None
  {
    var s := "//" + rest;
    assert '#' !in s;
    StripFragmentNoHash(s);
    assert SchemeLength(s) == 0 by { assert s[0] == '/'; }
    assert s[..2] == "//";
    assert FirstNotIn(s, {'/'}, 0) == 2 by { assert s[2..] == rest; }
    assert DropSlashes(s) == rest;
    assert FirstIn(rest, {'/', '?'}, 0) == 0;
    assert HostPort(base.scheme, []) == None by {
      assert AfterLast([], '@') == [];
      assert !ValidHost(Fold([]));
    }
    assert rest[..0] == [];
    assert WithAuthority(base.scheme, rest) == None;
    assert StartsWith(s, "//");
    assert Relative(s, base) == None;
  }

  /** A path-absolute path followed by a query replaces the base's path and query by exactly those. */
  lemma ResolvePathAndSearch(path: string, search: string, base: Url)
    requires StartsWith(path, "/") && !StartsWith(path, "//")
    requires '?' !in path && '#' !in path
    requires search == [] || (|search| > 1 && search[0] == '?')
    requires '#' !in search
    ensures Resolve(path + search, base) == Some(base.(pathname := path, search := search))
  {
    var p := path + search;
    assert p[0] == '/';
    assert |p| >= 2 ==> p[1] != '/' by {
      if |path| >= 2 { assert p[1] == path[1] && path[..2] != "//"; }
    }
    assert '#' !in p;
    ResolvePathAbsolute(p, base);
    if search == [] {
      assert p == path;
      SplitWithoutQuery(path);
    } else {
      assert p == path + "?" + search[1..];
      SplitWithQuery(path, search[1..]);
      assert SearchOf(search[1..]) == search;
    }
  }
}
