/** The driver's checkpoint screen (src/app/driver/checkpoints/page.tsx): an
    order moves along a fixed list of stages, one stage per successful write,
    and never past the last one. */
module Checkpoints {
  import opened Base
  import opened Lists

  /** `STATUS_FLOW`: the stages of an order, in order. */
  const StatusFlow: seq<string> := ["pending", "confirmed", "loading", "on_the_way", "completed"]

  /** Index of the last stage, `STATUS_FLOW.length - 1`. */
  const Last: int := |StatusFlow| - 1

  /** An order row as the screen uses it. */
  datatype Order = Order(id: int, driverId: string, status: string, pickup: string, drop: string)

  /** The one remote write of the screen: set the order's status. */
  datatype StatusWrite = StatusWrite(orderId: int, status: string)

  /** `Array.prototype.indexOf`: the first position of `s`, or -1. */
  function IndexOf(flow: seq<string>, s: string): (r: int)
    ensures -1 <= r < |flow|
    ensures r == -1 <==> s !in flow
    ensures r >= 0 ==> flow[r] == s && forall j :: 0 <= j < r ==> flow[j] != s
    decreases |flow|
  {
    if |flow| == 0 then -1
    else if flow[0] == s then 0
    else
      var k := IndexOf(flow[1..], s);
      if k == -1 then -1 else k + 1
  }

  /** The query's status filter `not('status', 'in.(completed,cancelled)')`. */
  predicate IsOpen(status: string)
  {
    status != "completed" && status != "cancelled"
  }

  /** The row `fetchOrder` loads for a driver: the first open order assigned
      to them (`limit(1).maybeSingle()`), or none. The backend's row order is
      not specified; the model takes the table's order. */
  function ActiveOrderFor(table: seq<Order>, driverId: string): (r: Option<Order>)
    ensures r.Some? ==> r.value in table && r.value.driverId == driverId && IsOpen(r.value.status)
    ensures r.None? ==> forall i :: 0 <= i < |table| ==> table[i].driverId != driverId || !IsOpen(table[i].status)
  {
    var matching := Filter(table, (o: Order) => o.driverId == driverId && IsOpen(o.status));
    if |matching| == 0 then None else Some(matching[0])
  }

  /** The new stage index after one `updateStatus`: it moves by one exactly
      when an order is loaded, the last stage is not reached and the write
      succeeded. */
  function Advance(i: int, loaded: bool, ok: bool): (r: int)
    requires -1 <= i <= Last
    ensures -1 <= r <= Last
    ensures r == i || r == i + 1
    ensures r == i + 1 <==> loaded && ok && i < Last
  {
    if !loaded || i >= Last then i
    else if ok then i + 1
    else i
  }

  class CheckpointPage {
    var statusIndex: int
    var order: Option<Order>
    var loading: bool

    /** The stage index is -1 (a status outside the flow) or a stage. */
    ghost predicate Valid()
      reads this
    {
      -1 <= statusIndex <= Last
    }

    constructor ()
      ensures Valid()
      ensures statusIndex == 0 && order == None && loading
    {
      statusIndex := 0;
      order := None;
      loading := true;
    }

    /** `fetchOrder`: without a signed-in user the screen redirects and stays
        loading; otherwise it loads the driver's open order, or redirects and
        keeps its state when there is none or the query failed. */
    method FetchOrder(authUser: Option<string>, table: seq<Order>, queryFails: bool)
      returns (redirected: bool)
      requires Valid()
      modifies this`order, this`statusIndex, this`loading
      ensures Valid()
      ensures authUser.None? ==>
        redirected && loading && order == old(order) && statusIndex == old(statusIndex)
      ensures authUser.Some? ==>
        var found := if queryFails then None else ActiveOrderFor(table, authUser.value);
        && !loading
        && (redirected <==> found.None?)
        && (found.None? ==> order == old(order) && statusIndex == old(statusIndex))
        && (found.Some? ==> order == found && statusIndex == IndexOf(StatusFlow, found.value.status))
      ensures authUser.Some? && order != old(order) ==> statusIndex < Last
    {
      loading := true;
      if authUser.None? {
        redirected := true;
        return;
      }
      var found := if queryFails then None else ActiveOrderFor(table, authUser.value);
      if found.None? {
        redirected := true;
      } else {
        redirected := false;
        order := found;
        statusIndex := IndexOf(StatusFlow, found.value.status);
      }
      loading := false;
    }

    /** `updateStatus`: with an order loaded and the last stage not reached,
        writes the next stage and moves the index only if the write succeeded. */
    method UpdateStatus(writeFails: bool) returns (write: Option<StatusWrite>)
      requires Valid()
      modifies this`statusIndex
      ensures Valid()
      ensures order == old(order) && loading == old(loading)
      ensures statusIndex == Advance(old(statusIndex), order.Some?, !writeFails)
      ensures write.None? <==> order.None? || old(statusIndex) >= Last
      ensures write.Some? ==>
        write.value == StatusWrite(order.value.id, StatusFlow[old(statusIndex) + 1])
    {
      if order.None? || statusIndex >= |StatusFlow| - 1 {
        write := None;
        return;
      }
      var nextStatus := StatusFlow[statusIndex + 1];
      write := Some(StatusWrite(order.value.id, nextStatus));
      if !writeFails {
        statusIndex := statusIndex + 1;
      }
    }
  }

  /** The stages are pairwise distinct. */
  lemma FlowDistinct()
    ensures forall i, j :: 0 <= i < j < |StatusFlow| ==> StatusFlow[i] != StatusFlow[j]
  {
  }

  /** The status written from index `i` is the stage at index `i + 1`: the
      stage written is the immediate successor and no stage is skipped. */
  lemma {:induction false} WrittenIsSuccessor(i: int)
    requires -1 <= i < Last
    ensures IndexOf(StatusFlow, StatusFlow[i + 1]) == i + 1
  {
    FlowDistinct();
  }

  /** A status outside the flow gives index -1, so the next write is `pending`. */
  lemma UnknownStatusRestartsAtPending(s: string)
    requires s !in StatusFlow
    ensures IndexOf(StatusFlow, s) == -1
    ensures StatusFlow[IndexOf(StatusFlow, s) + 1] == "pending"
  {
  }

  /** The number of successful writes in a run of attempts. */
  function Successes(oks: seq<bool>): nat
    decreases |oks|
  {
    if |oks| == 0 then 0 else (if oks[0] then 1 else 0) + Successes(oks[1..])
  }

  /** The stage index after a run of `updateStatus` calls on a loaded order,
      one per write outcome in `oks`. */
  function Run(i: int, oks: seq<bool>): (r: int)
    requires -1 <= i <= Last
    ensures -1 <= r <= Last
    decreases |oks|
  {
    if |oks| == 0 then i else Run(Advance(i, true, oks[0]), oks[1..])
  }

  function Min(a: int, b: int): int
  {
    if a <= b then a else b
  }

  /** A run moves the index by its number of successful writes, stopping at
      the last stage. */
  lemma {:induction false} RunCountsSuccesses(i: int, oks: seq<bool>)
    requires -1 <= i <= Last
    ensures Run(i, oks) == Min(i + Successes(oks), Last)
    decreases |oks|
  {
    if |oks| > 0 {
      RunCountsSuccesses(Advance(i, true, oks[0]), oks[1..]);
    }
  }

  /** From `pending`, four successful writes reach `completed`. */
  lemma PendingCompletesAfterFour()
    ensures StatusFlow[Run(IndexOf(StatusFlow, "pending"), [true, true, true, true])] == "completed"
  {
    assert IndexOf(StatusFlow, "pending") == 0;
    RunCountsSuccesses(0, [true, true, true, true]);
    assert Successes([true, true, true, true]) == 4;
  }

  /** Once at `completed`, further calls change nothing, whatever their outcome. */
  lemma {:induction false} CompletedIsFinal(oks: seq<bool>)
    ensures Run(Last, oks) == Last
    decreases |oks|
  {
    if |oks| > 0 {
      CompletedIsFinal(oks[1..]);
    }
  }

  /** Every order `fetchOrder` can load still has a stage ahead of it. */
  lemma OpenOrderCanAdvance(status: string)
    requires IsOpen(status)
    ensures IndexOf(StatusFlow, status) < Last
  {
  }
}
