/**
 `Server.ServeHTTP` and `handleRequest` end to end: route, validate, run one
 task per URL, and select the reply.

 The outside world is a parameter: `env(i, url)` is what task `i` gets back
 for its GET of `url`, `deadline` says whether the 10-second context expired
 before the `select` returned, `marshalOk` whether `json.Marshal` succeeded,
 and `pick` is the `select`'s choice among the ready cases.
 */
module Handler {
  import opened Wrappers
  import opened Http
  import opened Fetch
  import Routing
  import Validation
  import Orchestrator
  import Slots

  /** The outcome of every task, index-aligned with the URLs. */
  function Outcomes(urls: seq<string>, env: (nat, string) -> Fetch): (os: seq<Outcome>)
    ensures |os| == |urls|
    ensures forall i :: 0 <= i < |urls| ==> os[i] == Classify(urls[i], env(i, urls[i]))
  {
    seq(|urls|, i requires 0 <= i < |urls| => Classify(urls[i], env(i, urls[i])))
  }

  /** A batch the validator accepts: it decoded and holds 1 to 20 URLs. */
  predicate Accepted(decoded: Option<seq<string>>) {
    decoded.Some? && 1 <= |decoded.value| <= Validation.MaxUrls
  }

  /** Some URL of the batch fails, judged from the fetch results alone. */
  predicate SomeFetchFails(urls: seq<string>, env: (nat, string) -> Fetch) {
    exists i :: 0 <= i < |urls| && KindOf(env(i, urls[i])).Some?
  }

  /** The reply to an accepted batch: a failing URL rules out a 200, and a JSON reply is index-aligned. */
  lemma AcceptedReply(urls: seq<string>, env: (nat, string) -> Fetch,
                      deadline: bool, marshalOk: bool, pick: nat)
    ensures var r := Orchestrator.Aggregate(Outcomes(urls, env), deadline, marshalOk, pick);
            && (r.statusCode == 200 <==> r.body.Responses?)
            && (r.statusCode != 200 ==> r.statusCode >= 400 && r.contentType == "text/plain")
            && (SomeFetchFails(urls, env) ==> r.statusCode >= 400)
            && (r.body.Responses? ==>
                  && marshalOk
                  && |r.body.responses| == |urls|
                  && forall i :: 0 <= i < |urls| ==>
                       var f := env(i, urls[i]);
                       f.Response? && f.status < 400 && f.body == Some(r.body.responses[i]))
  {
    var outcomes := Outcomes(urls, env);
    var r := Orchestrator.Aggregate(outcomes, deadline, marshalOk, pick);
    if SomeFetchFails(urls, env) {
      var j :| 0 <= j < |urls| && KindOf(env(j, urls[j])).Some?;
      DiagnoseClassify(urls[j], env(j, urls[j]));
      Orchestrator.AllOrNothing(outcomes, deadline, marshalOk, pick, j);
    }
    if r.body.Responses? {
      Orchestrator.CompletedInOrder(outcomes, deadline, marshalOk, pick);
    }
  }

  /** `handleRequest`, given the decoded body (`None` when decoding failed). */
  function HandleRequest(decoded: Option<seq<string>>, env: (nat, string) -> Fetch,
                         deadline: bool, marshalOk: bool, pick: nat): (r: Reply)
    ensures !Accepted(decoded) ==> r.statusCode == 400 && r.contentType == "text/plain"
    ensures Accepted(decoded) ==>
              Orchestrator.Possible(Outcomes(decoded.value, env), deadline, marshalOk, r)
    ensures r.statusCode == 200 <==> r.body.Responses?
    ensures r.statusCode != 200 ==> r.statusCode >= 400 && r.contentType == "text/plain"
    ensures Accepted(decoded) && SomeFetchFails(decoded.value, env) ==> r.statusCode >= 400
    ensures r.body.Responses? ==>
              && Accepted(decoded) && marshalOk
              && |r.body.responses| == |decoded.value|
              && forall i :: 0 <= i < |decoded.value| ==>
                   var f := env(i, decoded.value[i]);
                   f.Response? && f.status < 400 && f.body == Some(r.body.responses[i])
  {
    match Validation.Validate(decoded)
    case Failure(e) => ErrorReply(e)
    case Success(urls) =>
      AcceptedReply(urls, env, deadline, marshalOk, pick);
      Orchestrator.Aggregate(Outcomes(urls, env), deadline, marshalOk, pick)
  }

  /** `ServeHTTP`: route the request, then handle it. */
  function ServeHttp(verb: string, path: string, decoded: Option<seq<string>>,
                     env: (nat, string) -> Fetch, deadline: bool, marshalOk: bool, pick: nat): (r: Reply)
    ensures verb != "POST" || path != "/" ==> r == Routing.NotFoundReply
    ensures verb == "POST" && path == "/" ==> r == HandleRequest(decoded, env, deadline, marshalOk, pick)
  {
    match Routing.RouteRequest(verb, path)
    case Dispatch => HandleRequest(decoded, env, deadline, marshalOk, pick)
    case Respond(reply) => reply
  }

  /**
   A rejected batch does no fetch work: its reply depends on nothing the
   network, the clock or the scheduler could influence.
   */
  lemma RejectedBatchFetchesNothing(decoded: Option<seq<string>>,
                                    env1: (nat, string) -> Fetch, deadline1: bool, marshalOk1: bool, pick1: nat,
                                    env2: (nat, string) -> Fetch, deadline2: bool, marshalOk2: bool, pick2: nat)
    requires !Accepted(decoded)
    ensures HandleRequest(decoded, env1, deadline1, marshalOk1, pick1)
         == HandleRequest(decoded, env2, deadline2, marshalOk2, pick2)
  {
  }

  /**
   No per-URL error reads like the expired deadline: a URL that times out is
   also a 408, but its message names the URL.
   */
  lemma TaskErrorIsNotDeadline(url: string, f: Fetch)
    requires Classify(url, f).Failed?
    ensures ErrorReply(Classify(url, f).error) != Orchestrator.DeadlineReply
  {
    var e := Classify(url, f).error;
    if e.statusCode == 408 {
      var m := e.message;
      if f.TransportFailure? {
        assert |m| > |"request timeout"|;
      } else {
        assert m[0] != "request timeout"[0];
      }
    }
  }

  /**
   The reply to an accepted batch is exactly one of: the deadline reply, the
   error of a failing URL, or the completion reply (possible only when every
   URL succeeded).
   */
  lemma ExactlyOneOutcome(decoded: Option<seq<string>>, env: (nat, string) -> Fetch,
                          deadline: bool, marshalOk: bool, pick: nat)
    requires Accepted(decoded)
    ensures var r := HandleRequest(decoded, env, deadline, marshalOk, pick);
            var os := Outcomes(decoded.value, env);
            var timedOut := deadline && r == Orchestrator.DeadlineReply;
            var failed := exists i :: 0 <= i < |os| && os[i].Failed? && r == ErrorReply(os[i].error);
            var completed := Orchestrator.AllFetched(os) && r == Orchestrator.Completion(os, marshalOk);
            && (timedOut || failed || completed)
            && !(timedOut && failed) && !(timedOut && completed) && !(failed && completed)
  {
    var urls := decoded.value;
    var r := HandleRequest(decoded, env, deadline, marshalOk, pick);
    var os := Outcomes(urls, env);
    if i :| 0 <= i < |os| && os[i].Failed? && r == ErrorReply(os[i].error) {
      TaskErrorIsNotDeadline(urls[i], env(i, urls[i]));
      assert !Orchestrator.AllFetched(os);
    }
  }
}
