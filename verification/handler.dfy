/**
 * The request handler registered for every path and method: classify, build
 * the edge policy and the outbound request, dispatch, then shape the answer;
 * any failure inside the `try` becomes a 502 whose body names the error.
 */
module Handler {
  import opened Wrappers
  import opened Text
  import opened HeaderMaps
  import opened Urls
  import opened Config
  import opened Messages
  import opened Classifier
  import opened Policy
  import opened Json
  import opened Outbound
  import opened Dispatch
  import opened Rewrite

  /** The header list the `Response` constructor gives a string body. */
  const TextHeaders: Fields := map["content-type" := "text/plain;charset=UTF-8"]

  /** `new Response(JSON.stringify({ error: ... }), { status: 502 })`. */
  function ErrorResponse(message: string): (r: Response)
    ensures r.status == 502 && r.webSocket.None?
    ensures r.body.Str? && ParseErrorPayload(r.body.text) == Some(ErrorPrefix + message)
  {
    ErrorPayloadRoundTrip(message);
    Response(502, TextHeaders, Str(ErrorPayload(message)), None)
  }

  /**
   * The answer built from the upstream response `up` to a request with these
   * tags and target URL: the headers rewritten, then the upgrade, redirect or
   * pass-through shape, or a 502 when a redirect `Location` does not parse.
   */
  ghost predicate AnswerFor(tags: Tags, target: Url, up: Response, res: Response)
  {
    ResponseHeaderNames();
    var h := Rewritten(tags, up.status, up.headers);
    && (up.status == 101 ==> res == Response(101, h, Null, up.webSocket))
    && (IsRedirect(up.status) ==>
          match FixLocation(target, Lookup(h, "location"))
          case Invalid => res == ErrorResponse(InvalidUrlMessage)
          case Keep => res == Response(up.status, h, Null, None)
          case Replace(v) => res == Response(up.status, h["location" := v], Null, None))
    && (up.status != 101 && !IsRedirect(up.status) ==> res == Response(up.status, h, up.body, None))
  }

  /** Whether the answer to `up` is the 502 for an unparsable redirect `Location`. */
  ghost predicate BadLocation(tags: Tags, target: Url, up: Response)
  {
    IsRedirect(up.status)
    && FixLocation(target, Lookup(Rewritten(tags, up.status, up.headers), "location")).Invalid?
  }

  /** The response handling inside the `try`, once an attempt has produced `up`. */
  method Respond(tags: Tags, target: Url, up: Response) returns (res: Response)
    ensures AnswerFor(tags, target, up, res)
  {
    var resHeaders := RewriteHeaders(tags, up.status, up.headers);
    var r := Finish(target, up, resHeaders);
    match r
    case Ok(answer) => res := answer;
    case Err(message) => res := ErrorResponse(message);
  }

  /**
   * Every answer built from an upstream response, unless its `Location` does
   * not parse, allows any origin and carries neither a content security policy
   * nor a clear-site-data order; a video answer closes the connection.
   */
  lemma AnswerHeaders(tags: Tags, target: Url, up: Response, res: Response)
    requires AnswerFor(tags, target, up, res) && !BadLocation(tags, target, up)
    ensures Lookup(res.headers, "access-control-allow-origin") == Some("*")
    ensures "content-security-policy" !in res.headers && "clear-site-data" !in res.headers
    ensures tags.isVideo ==> Lookup(res.headers, "Connection") == Some("close")
  {
    RewrittenHeaders(tags, up.status, up.headers);
    ResponseHeaderNames();
  }

  /**
   * The `try` block for a request with these tags, method and target URL:
   * dispatch, then the answer built from the response, or the 502 when the
   * last attempt fails.
   */
  method Exchange(tags: Tags, verb: string, target: Url, first: Behaviour, second: Behaviour)
    returns (res: Response, attempts: seq<Outcome>)
    ensures 1 <= |attempts| <= 2
    ensures attempts[0] == (if IsDirect(tags, verb) then Fetch(first) else FetchWithTimeout(first, ApiTimeout))
    ensures |attempts| == 2 <==> !IsDirect(tags, verb) && !attempts[0].Answered?
    ensures |attempts| == 2 ==> attempts[1] == Fetch(second)
    ensures var last := attempts[|attempts| - 1];
            && !last.TimedOut?
            && (last.Failed? ==> res == ErrorResponse(last.message))
            && (last.Answered? ==> AnswerFor(tags, target, last.response, res))
  {
    var outcome;
    outcome, attempts := Dispatch.Dispatch(tags, verb, first, second);
    if outcome.Failed? {
      res := ErrorResponse(outcome.message);
    } else {
      res := Respond(tags, target, outcome.response);
    }
  }

  /**
   * Handles `req`; `first` and `second` are what the upstream does with the
   * first attempt and with the retry. Returns the answer, the outbound request
   * and the outcomes of the attempts made.
   */
  method Handle(req: Request, first: Behaviour, second: Behaviour)
    returns (res: Response, sent: Outgoing, attempts: seq<Outcome>)
    ensures var tags := Classify(req.url.pathname, req.headers);
            && sent.url == Target(req.url) && sent.verb == req.verb && sent.redirect == Manual
            && sent.headers == Forwarded(req.headers, ShouldBuffer(req.verb, req.url.pathname))
            && sent.body == (if ShouldBuffer(req.verb, req.url.pathname) then ArrayBuffer(req.body) else req.body)
    ensures sent.cf == Hints(Classify(req.url.pathname, req.headers)) && Coherent(sent.cf)
    ensures var tags := Classify(req.url.pathname, req.headers);
            && 1 <= |attempts| <= 2
            && attempts[0] == (if IsDirect(tags, req.verb) then Fetch(first) else FetchWithTimeout(first, ApiTimeout))
            && (|attempts| == 2 <==> !IsDirect(tags, req.verb) && !attempts[0].Answered?)
            && (|attempts| == 2 ==> attempts[1] == Fetch(second))
    ensures var tags := Classify(req.url.pathname, req.headers);
            var last := attempts[|attempts| - 1];
            && !last.TimedOut?
            && (last.Failed? ==> res == ErrorResponse(last.message))
            && (last.Answered? ==> AnswerFor(tags, sent.url, last.response, res))
  {
    var tags := Classify(req.url.pathname, req.headers);
    var cf := BuildPolicy(tags);
    sent := Prepare(req, cf);
    res, attempts := Exchange(tags, req.verb, sent.url, first, second);
  }

  /**
   * An unreachable upstream, for a request that is not sent directly: the
   * bounded attempt and the retry both fail, and the client gets the 502 that
   * names the retry's failure.
   */
  method UnreachableUpstream(tags: Tags, verb: string, target: Url, first: string, second: string, d1: nat, d2: nat)
    returns (res: Response, attempts: seq<Outcome>)
    requires !IsDirect(tags, verb)
    ensures |attempts| == 2 && attempts == [if d1 >= ApiTimeout then TimedOut else Failed(first), Failed(second)]
    ensures res == ErrorResponse(second) && res.status == 502
  {
    ghost var bounded := if d1 >= ApiTimeout then TimedOut else Failed(first);
    assert FetchWithTimeout(Fails(d1, first), ApiTimeout) == bounded;
    res, attempts := Exchange(tags, verb, target, Fails(d1, first), Fails(d2, second));
    assert attempts[0] == bounded && !bounded.Answered?;
    assert |attempts| == 2 && attempts[1] == Failed(second);
  }
}
