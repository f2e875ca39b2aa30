/**
 One per-URL task of `handleRequest`: build the GET request, send it, check
 the status, read the body, and either fill its slot or report an
 `ErrorData` on the error channel.
 */
module Fetch {
  import opened Wrappers
  import opened Http
  import Format

  /**
   What the outside world answers to one task; the network, the deadline
   context and the HTTP client are not modelled, only their verdict.
   */
  datatype Fetch =
    | MalformedRequest                               // building the request failed
    | TransportFailure(err: string, isTimeout: bool) // `client.Do` failed; `err` is the rendered error
    | Response(status: int, body: Option<string>)    // a response; `None` when reading the body failed

  /** What a task contributes to the batch. */
  datatype Outcome = Fetched(body: string) | Failed(error: ErrorData)

  /**
   Everything one task does: the values it sends on the error channel, in
   order, and the value it stores in its slot, if any.
   */
  datatype TaskEffect = TaskEffect(sends: seq<ErrorData>, slot: Option<string>)

  const InternalServerError := "Internal server error"

  function TimeoutMessage(url: string): string {
    "request timeout on \"" + url + "\""
  }

  function TransportPrefix(url: string): string {
    "failed to get \"" + url + "\": '"
  }

  function TransportMessage(url: string, err: string): string {
    TransportPrefix(url) + err + "'"
  }

  function StatusPrefix(url: string): string {
    "failed to get \"" + url + "\" with status code: "
  }

  function StatusMessage(url: string, code: nat): string {
    StatusPrefix(url) + Format.Decimal(code)
  }

  function BodyReadMessage(url: string): string {
    "failed to process response from \"" + url + "\""
  }

  /**
   The task for `url` as the source writes it. A timed-out transport error
   sends the 408 and then, unconditionally, the 502 as well.
   */
  function Task(url: string, f: Fetch): (t: TaskEffect)
    ensures t.slot.Some? <==> |t.sends| == 0
    ensures |t.sends| <= 2
    ensures |t.sends| == 2 <==> f.TransportFailure? && f.isTimeout
    ensures |t.sends| == 2 ==> t.sends[0].statusCode == 408 && t.sends[1].statusCode == 502
  {
    match f
    case MalformedRequest =>
      TaskEffect([ErrorData(InternalServerError, StatusInternalServerError)], None)
    case TransportFailure(err, isTimeout) =>
      var generic := ErrorData(TransportMessage(url, err), StatusBadGateway);
      if isTimeout then
        TaskEffect([ErrorData(TimeoutMessage(url), StatusRequestTimeout), generic], None)
      else
        TaskEffect([generic], None)
    case Response(status, body) =>
      if status >= 400 then
        TaskEffect([ErrorData(StatusMessage(url, status), status)], None)
      else if body.None? then
        TaskEffect([ErrorData(BodyReadMessage(url), StatusInternalServerError)], None)
      else
        TaskEffect([], body)
  }

  /**
   The outcome the batch can observe from one task. The error channel is read
   at most once, so only a task's first send can ever be received.
   */
  function Classify(url: string, f: Fetch): (o: Outcome)
    ensures f.MalformedRequest? ==> o == Failed(ErrorData("Internal server error", 500))
    ensures f.TransportFailure? && f.isTimeout ==>
              o == Failed(ErrorData("request timeout on \"" + url + "\"", 408))
    ensures f.TransportFailure? && !f.isTimeout ==>
              o == Failed(ErrorData("failed to get \"" + url + "\": '" + f.err + "'", 502))
    ensures f.Response? && f.status >= 400 ==>
              o == Failed(ErrorData("failed to get \"" + url + "\" with status code: "
                                    + Format.Decimal(f.status), f.status))
    ensures f.Response? && f.status < 400 && f.body.None? ==>
              o == Failed(ErrorData("failed to process response from \"" + url + "\"", 500))
    ensures o.Fetched? <==> f.Response? && f.status < 400 && f.body.Some?
    ensures o.Fetched? ==> o.body == f.body.value
    ensures o.Failed? ==> o.error.statusCode >= 400
  {
    var t := Task(url, f);
    if |t.sends| == 0 then Fetched(t.slot.value) else Failed(t.sends[0])
  }

  /** Which failure branch, if any, a fetch result takes. */
  datatype FailureKind =
    | RequestBuildError
    | Timeout
    | Transport(err: string)
    | UpstreamStatus(code: int)
    | BodyRead

  /** The failure a fetch result leads to, read off the fetch result itself. */
  function KindOf(f: Fetch): Option<FailureKind> {
    match f
    case MalformedRequest => Some(RequestBuildError)
    case TransportFailure(err, isTimeout) => if isTimeout then Some(Timeout) else Some(Transport(err))
    case Response(status, body) =>
      if status >= 400 then Some(UpstreamStatus(status))
      else if body.None? then Some(BodyRead)
      else None
  }

  predicate IsPrefix(p: string, s: string) {
    |p| <= |s| && s[..|p|] == p
  }

  /**
   Reads back, from a reported error and the URL it concerns, which failure
   occurred: the rendered transport error and the upstream status code are
   recovered from the message text alone.
   */
  function Diagnose(url: string, e: ErrorData): Option<FailureKind> {
    var m := e.message;
    var sp := StatusPrefix(url);
    var tp := TransportPrefix(url);
    if m == InternalServerError then Some(RequestBuildError)
    else if m == TimeoutMessage(url) then Some(Timeout)
    else if m == BodyReadMessage(url) then Some(BodyRead)
    else if IsPrefix(sp, m) && |m| > |sp| && Format.AllDigits(m[|sp|..]) then
      Some(UpstreamStatus(Format.DecimalValue(m[|sp|..])))
    else if IsPrefix(tp, m) && |m| > |tp| && m[|m| - 1] == '\'' then
      Some(Transport(m[|tp|..|m| - 1]))
    else None
  }

  /** The transport-error message is read back as that error. */
  lemma DiagnoseTransport(url: string, err: string)
    ensures Diagnose(url, ErrorData(TransportMessage(url, err), StatusBadGateway)) == Some(Transport(err))
  {
    var m := TransportMessage(url, err);
    var tp := TransportPrefix(url);
    var sp := StatusPrefix(url);
    assert m == tp + err + "'";
    assert m[0] != InternalServerError[0];
    assert m[0] != TimeoutMessage(url)[0];
    assert m[10] != BodyReadMessage(url)[10];
    assert m[15 + |url| + 1] != sp[15 + |url| + 1];
    assert !IsPrefix(sp, m);
    assert IsPrefix(tp, m);
    assert m[|tp|..|m| - 1] == err;
  }

  /** The status-code message is read back as that status code. */
  lemma DiagnoseStatus(url: string, code: nat)
    ensures Diagnose(url, ErrorData(StatusMessage(url, code), code)) == Some(UpstreamStatus(code))
  {
    var m := StatusMessage(url, code);
    var sp := StatusPrefix(url);
    assert m[0] != InternalServerError[0];
    assert m[0] != TimeoutMessage(url)[0];
    assert m[10] != BodyReadMessage(url)[10];
    assert IsPrefix(sp, m);
    assert m[|sp|..] == Format.Decimal(code);
    Format.DecimalRoundTrip(code);
  }

  /**
   Every reported error names its failure unambiguously: diagnosing the
   error a task reports gives back exactly the branch its fetch result took.
   */
  lemma DiagnoseClassify(url: string, f: Fetch)
    ensures Classify(url, f).Fetched? <==> KindOf(f).None?
    ensures Classify(url, f).Failed? ==> Diagnose(url, Classify(url, f).error) == KindOf(f)
  {
    var o := Classify(url, f);
    match f
    case MalformedRequest =>
    case TransportFailure(err, isTimeout) =>
      if isTimeout {
        assert o.error.message[0] != InternalServerError[0];
      } else {
        DiagnoseTransport(url, err);
      }
    case Response(status, body) =>
      if status >= 400 {
        DiagnoseStatus(url, status);
      } else if body.None? {
        var m := o.error.message;
        assert m[0] != InternalServerError[0];
        assert m[0] != TimeoutMessage(url)[0];
      }
  }
}
