/**
 * Dispatch of the outbound request: a single unbounded attempt, or a first
 * attempt bounded by `CONFIG.API_TIMEOUT` and, when it does not produce a
 * response, one unbounded retry. Time and the network are not modelled:
 * what the upstream does on each attempt is given as a `Behaviour`.
 */
module Dispatch {
  import opened Messages
  import opened Classifier
  import opened Config

  /** What the upstream does with one attempt: answers after `delay` ms, or fails after `delay` ms. */
  datatype Behaviour = Responds(delay: nat, response: Response) | Fails(delay: nat, message: string)

  /** What one attempt yields to the handler. */
  datatype Outcome = Answered(response: Response) | TimedOut | Failed(message: string)

  /** `await fetch(url, options)`: the response, or the rejection. */
  function Fetch(b: Behaviour): (o: Outcome)
    ensures !o.TimedOut?
  {
    match b
    case Responds(_, response) => Answered(response)
    case Fails(_, message) => Failed(message)
  }

  /**
   * `fetchWithTimeout(url, options, timeout)`: the abort timer fires at
   * `timeout` ms, so an attempt that has not settled before then is aborted.
   */
  function FetchWithTimeout(b: Behaviour, timeout: nat): Outcome
  {
    if b.delay >= timeout then TimedOut else Fetch(b)
  }

  /**
   * A longer bound never loses an outcome: whatever an attempt yields under
   * `shorter` it yields under `longer`, and only the timeout can change.
   */
  lemma TimeoutMonotone(b: Behaviour, shorter: nat, longer: nat)
    requires shorter <= longer
    ensures !FetchWithTimeout(b, shorter).TimedOut? ==> FetchWithTimeout(b, longer) == FetchWithTimeout(b, shorter)
    ensures FetchWithTimeout(b, longer).TimedOut? ==> FetchWithTimeout(b, shorter).TimedOut?
  {
  }

  /** A bound the attempt settles within changes nothing: the bounded attempt is the plain one. */
  lemma TimeoutSettled(b: Behaviour, timeout: nat)
    ensures FetchWithTimeout(b, timeout) == Fetch(b) <==> b.delay < timeout
  {
  }

  /** Video, WebSocket and POST requests get one attempt with no bound. */
  predicate IsDirect(tags: Tags, verb: string)
  {
    tags.isVideo || tags.isWebSocket || verb == "POST"
  }

  /**
   * Runs the attempts: `first` is what the upstream does with the first
   * attempt, `second` what it does with the retry, if one is made. Returns the
   * outcome the handler goes on with and the outcomes of the attempts made.
   */
  method Dispatch(tags: Tags, verb: string, first: Behaviour, second: Behaviour)
    returns (outcome: Outcome, attempts: seq<Outcome>)
    ensures 1 <= |attempts| <= 2
    ensures attempts[0] == if IsDirect(tags, verb) then Fetch(first) else FetchWithTimeout(first, ApiTimeout)
    ensures |attempts| == 2 <==> !IsDirect(tags, verb) && !attempts[0].Answered?
    ensures |attempts| == 2 ==> attempts[1] == Fetch(second)
    ensures outcome == attempts[|attempts| - 1]
    ensures !outcome.TimedOut?
  {
    var response: Outcome;
    if IsDirect(tags, verb) {
      response := Fetch(first);
      attempts := [response];
    } else {
      var bounded := FetchWithTimeout(first, ApiTimeout);
      attempts := [bounded];
      if bounded.Answered? {
        response := bounded;
      } else {
        response := Fetch(second);
        attempts := attempts + [response];
      }
    }
    outcome := response;
  }
}
