/**
 The slot array `responses`: one string per URL, zero-initialised, where the
 task for index `i` writes only slot `i` and only when its fetch succeeds.
 */
module Slots {
  import opened Fetch

  /** The string a task leaves in its slot: the body it read, or Go's zero string. */
  function SlotValue(o: Outcome): string {
    if o.Fetched? then o.body else ""
  }

  /** The slot array once every task has finished, indexed like the URLs. */
  function Collected(outcomes: seq<Outcome>): (slots: seq<string>)
    ensures |slots| == |outcomes|
  {
    seq(|outcomes|, i requires 0 <= i < |outcomes| => SlotValue(outcomes[i]))
  }

  /**
   An order in which the `n` tasks finish: each index exactly once. The
   scheduler decides it; nothing else is assumed about it.
   */
  predicate IsCompletionOrder(order: seq<nat>, n: nat) {
    && |order| == n
    && (forall k :: 0 <= k < |order| ==> order[k] < n)
    && (forall i :: 0 <= i < n ==> i in order)
    && (forall j, k :: 0 <= j < k < |order| ==> order[j] != order[k])
  }

  /**
   Runs the tasks' slot writes in the given completion order. Because task
   `i` writes only slot `i`, the result is the same for every order: slot `i`
   holds what the task for URL `i` fetched.
   */
  method FillSlots(outcomes: seq<Outcome>, order: seq<nat>) returns (slots: seq<string>)
    requires IsCompletionOrder(order, |outcomes|)
    ensures |slots| == |outcomes|
    ensures forall i :: 0 <= i < |outcomes| && outcomes[i].Fetched? ==> slots[i] == outcomes[i].body
    ensures forall i :: 0 <= i < |outcomes| && outcomes[i].Failed? ==> slots[i] == ""
    ensures slots == Collected(outcomes)
  {
    slots := seq(|outcomes|, _ => "");
    var k := 0;
    while k < |order|
      invariant 0 <= k <= |order|
      invariant |slots| == |outcomes|
      invariant forall j :: 0 <= j < k ==> slots[order[j]] == SlotValue(outcomes[order[j]])
      invariant forall i :: 0 <= i < |outcomes| && i !in order[..k] ==> slots[i] == ""
    {
      var i := order[k];
      if outcomes[i].Fetched? {
        slots := slots[i := outcomes[i].body];
      }
      k := k + 1;
    }
    forall i | 0 <= i < |outcomes|
      ensures slots[i] == SlotValue(outcomes[i])
    {
      assert i in order;
      var j :| 0 <= j < |order| && order[j] == i;
    }
  }
}
