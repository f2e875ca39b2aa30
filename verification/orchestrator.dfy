/**
 The fan-in of `handleRequest`: the final `select` over the deadline, the
 error channel and the result channel, once the per-URL outcomes are known.

 Go's `select` takes any ready case, chosen at random. The model lists the
 ready signals and takes an abstract `pick` to choose among them; `Possible`
 states the same choice as a relation, and the two are shown to agree.
 */
module Orchestrator {
  import opened Http
  import opened Fetch
  import Slots

  /** The events the final `select` can receive. */
  datatype Signal =
    | DeadlineExpired      // `ctx.Done()` after the 10-second budget
    | TaskError(index: nat) // the first send of the failing task for URL `index`
    | AllDone              // every task finished and the results were marshalled

  const DeadlineReply := Reply(TextPlain, StatusRequestTimeout, Text("request timeout"))

  /** What is sent on the error channel when `json.Marshal` of the results fails. */
  const MarshalFailure := ErrorData(InternalServerError, StatusInternalServerError)

  predicate AllFetched(outcomes: seq<Outcome>) {
    forall i :: 0 <= i < |outcomes| ==> outcomes[i].Fetched?
  }

  /** The indices of the failing tasks, in increasing order. */
  function Failures(outcomes: seq<Outcome>): (fs: seq<nat>)
    ensures forall k :: 0 <= k < |fs| ==> fs[k] < |outcomes| && outcomes[fs[k]].Failed?
    ensures forall i :: 0 <= i < |outcomes| && outcomes[i].Failed? ==> i in fs
    ensures |fs| == 0 <==> AllFetched(outcomes)
  {
    if |outcomes| == 0 then []
    else
      var n := |outcomes| - 1;
      Failures(outcomes[..n]) + (if outcomes[n].Failed? then [n] else [])
  }

  /**
   The reply once every task has finished: the ordered slot array as JSON,
   or the 500 that a failing `json.Marshal` sends on the error channel.
   */
  function Completion(outcomes: seq<Outcome>, marshalOk: bool): Reply {
    if marshalOk then Reply(ApplicationJson, StatusOK, Responses(Slots.Collected(outcomes)))
    else ErrorReply(MarshalFailure)
  }

  /** One error signal per failing task, in index order. */
  function ErrorSignals(fs: seq<nat>): (errs: seq<Signal>)
    ensures |errs| == |fs|
    ensures forall k :: 0 <= k < |fs| ==> errs[k] == TaskError(fs[k])
  {
    seq(|fs|, k requires 0 <= k < |fs| => TaskError(fs[k]))
  }

  /**
   The signals ready for the `select`, given the failing tasks `fs`: the
   deadline if it fired, one error per failing task, and the result only
   when no task failed.
   */
  function Ready(fs: seq<nat>, deadline: bool): (ready: seq<Signal>)
    ensures |ready| == (if deadline then 1 else 0) + |fs| + (if |fs| == 0 then 1 else 0)
  {
    var head := if deadline then [DeadlineExpired] else [];
    var tail := if |fs| == 0 then [AllDone] else [];
    head + ErrorSignals(fs) + tail
  }

  /** Position `k` of the ready list: the deadline first, then the errors in index order, then the result. */
  lemma ReadyLayout(fs: seq<nat>, deadline: bool, k: nat)
    requires k < |Ready(fs, deadline)|
    ensures var offset := if deadline then 1 else 0;
            var s := Ready(fs, deadline)[k];
            && (k < offset ==> s == DeadlineExpired)
            && (offset <= k < offset + |fs| ==> s == TaskError(fs[k - offset]))
            && (offset + |fs| <= k ==> |fs| == 0 && s == AllDone)
  {
    var head := if deadline then [DeadlineExpired] else [];
    var errs := ErrorSignals(fs);
    var tail := if |fs| == 0 then [AllDone] else [];
    assert Ready(fs, deadline) == (head + errs) + tail;
    if |head| <= k < |head| + |errs| {
      assert (head + errs)[k] == errs[k - |head|];
    }
  }

  /**
   The signals that can be ready when the `select` runs. A failing task
   blocks on its send before it signals the wait group, so the results are
   sent only when no task failed.
   */
  function ReadySignals(outcomes: seq<Outcome>, deadline: bool): seq<Signal> {
    Ready(Failures(outcomes), deadline)
  }

  /** Every ready signal can be received: an error signal names a failing task. */
  lemma ReadySignalsSound(outcomes: seq<Outcome>, deadline: bool, k: nat)
    requires k < |ReadySignals(outcomes, deadline)|
    ensures var s := ReadySignals(outcomes, deadline)[k];
            && (s.DeadlineExpired? ==> deadline)
            && (s.TaskError? ==> s.index < |outcomes| && outcomes[s.index].Failed?)
            && (s.AllDone? ==> AllFetched(outcomes))
  {
    var fs := Failures(outcomes);
    var offset := if deadline then 1 else 0;
    ReadyLayout(fs, deadline, k);
    if offset <= k < offset + |fs| {
      assert fs[k - offset] < |outcomes| && outcomes[fs[k - offset]].Failed?;
    }
  }

  /** The reply the handler writes when the `select` receives `s`. */
  function Deliver(outcomes: seq<Outcome>, marshalOk: bool, s: Signal): Reply
    requires s.TaskError? ==> s.index < |outcomes| && outcomes[s.index].Failed?
  {
    match s
    case DeadlineExpired => DeadlineReply
    case TaskError(i) => ErrorReply(outcomes[i].error)
    case AllDone => Completion(outcomes, marshalOk)
  }

  /**
   The handler's reply when the `select` takes the ready signal that `pick`
   designates.
   */
  function Aggregate(outcomes: seq<Outcome>, deadline: bool, marshalOk: bool, pick: nat): (r: Reply)
    ensures Possible(outcomes, deadline, marshalOk, r)
  {
    var ready := ReadySignals(outcomes, deadline);
    ReadySignalsSound(outcomes, deadline, pick % |ready|);
    Deliver(outcomes, marshalOk, ready[pick % |ready|])
  }

  /**
   The replies the handler may write: the deadline reply if the deadline
   fired, the error of any failing task, or, only when every task
   succeeded, the completion reply.
   */
  predicate Possible(outcomes: seq<Outcome>, deadline: bool, marshalOk: bool, r: Reply) {
    || (deadline && r == DeadlineReply)
    || (exists i :: 0 <= i < |outcomes| && outcomes[i].Failed? && r == ErrorReply(outcomes[i].error))
    || (AllFetched(outcomes) && r == Completion(outcomes, marshalOk))
  }

  /** Taking the signal at position `pick` of the ready list yields that signal's reply. */
  lemma PickAt(outcomes: seq<Outcome>, deadline: bool, marshalOk: bool, pick: nat)
    requires pick < |ReadySignals(outcomes, deadline)|
    ensures var s := ReadySignals(outcomes, deadline)[pick];
            && (s.TaskError? ==> s.index < |outcomes| && outcomes[s.index].Failed?)
            && Aggregate(outcomes, deadline, marshalOk, pick) == Deliver(outcomes, marshalOk, s)
  {
    SmallRemainder(pick, |ReadySignals(outcomes, deadline)|);
    ReadySignalsSound(outcomes, deadline, pick);
  }

  /** The error of any failing task is the reply for some choice of the `select`. */
  lemma PickTaskError(outcomes: seq<Outcome>, deadline: bool, marshalOk: bool, i: nat) returns (pick: nat)
    requires i < |outcomes| && outcomes[i].Failed?
    ensures Aggregate(outcomes, deadline, marshalOk, pick) == ErrorReply(outcomes[i].error)
  {
    var fs := Failures(outcomes);
    var k :| 0 <= k < |fs| && fs[k] == i;
    var offset := if deadline then 1 else 0;
    pick := offset + k;
    ReadyLayout(fs, deadline, pick);
    PickAt(outcomes, deadline, marshalOk, pick);
  }

  /** Every reply the relation allows is the one some choice of the `select` produces. */
  lemma AggregateComplete(outcomes: seq<Outcome>, deadline: bool, marshalOk: bool, r: Reply)
    requires Possible(outcomes, deadline, marshalOk, r)
    ensures exists pick: nat :: Aggregate(outcomes, deadline, marshalOk, pick) == r
  {
    var fs := Failures(outcomes);
    var offset := if deadline then 1 else 0;
    if deadline && r == DeadlineReply {
      ReadyLayout(fs, deadline, 0);
      PickAt(outcomes, deadline, marshalOk, 0);
    } else if i :| 0 <= i < |outcomes| && outcomes[i].Failed? && r == ErrorReply(outcomes[i].error) {
      var pick := PickTaskError(outcomes, deadline, marshalOk, i);
    } else {
      assert |fs| == 0;
      ReadyLayout(fs, deadline, offset);
      PickAt(outcomes, deadline, marshalOk, offset);
    }
  }

  lemma SmallRemainder(a: nat, n: nat)
    requires a < n
    ensures a % n == a
  {
  }

  /**
   All or nothing: once any task fails, the reply is never the JSON result;
   it is the deadline reply or the error of one of the failing tasks.
   */
  lemma AllOrNothing(outcomes: seq<Outcome>, deadline: bool, marshalOk: bool, pick: nat, j: nat)
    requires j < |outcomes| && outcomes[j].Failed?
    ensures Aggregate(outcomes, deadline, marshalOk, pick).body.Text?
    ensures var r := Aggregate(outcomes, deadline, marshalOk, pick);
            || (deadline && r == DeadlineReply)
            || exists i :: 0 <= i < |outcomes| && outcomes[i].Failed? && r == ErrorReply(outcomes[i].error)
  {
  }

  /**
   Order preservation: a JSON reply carries one response per task, and the
   response at `i` is the body fetched by task `i`, whatever the completion
   order of the tasks.
   */
  lemma CompletedInOrder(outcomes: seq<Outcome>, deadline: bool, marshalOk: bool, pick: nat)
    requires Aggregate(outcomes, deadline, marshalOk, pick).body.Responses?
    ensures var r := Aggregate(outcomes, deadline, marshalOk, pick);
            && marshalOk && AllFetched(outcomes)
            && r.statusCode == 200 && r.contentType == "application/json"
            && |r.body.responses| == |outcomes|
            && forall i :: 0 <= i < |outcomes| ==> r.body.responses[i] == outcomes[i].body
  {
  }

  /**
   Without a deadline the happy path leaves the `select` no choice: when every
   task succeeded, every pick yields the completion reply.
   */
  lemma NoDeadlineAllFetched(outcomes: seq<Outcome>, marshalOk: bool, pick: nat)
    requires AllFetched(outcomes)
    ensures Aggregate(outcomes, false, marshalOk, pick) == Completion(outcomes, marshalOk)
  {
  }
}
