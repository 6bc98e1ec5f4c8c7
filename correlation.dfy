/**
  Client-side reply correlation, shared by the HTTP backend and the MCP gateway. A client
  publishes a request under a fresh id, subscribes to the final-results topic and waits,
  for at most 60 time units, on a single-slot future. Each delivered result is decoded,
  its id is looked up at the top level and one level down, and the first result whose id
  equals the request id resolves the future; everything else is ignored, and decoding or
  lookup failures are swallowed.
 */
module Correlation {
  import opened Json
  import opened Envelope

  /** The bound of `asyncio.wait_for`. */
  const WaitLimit := 60

  /** A message on the final-results topic: when it arrives, and its body if it decodes as JSON. */
  datatype Delivery = Delivery(at: nat, body: Option<Value>)

  /** The request record both clients publish to the captain. */
  function Request(taskId: string, description: string): Value
  {
    Obj(map[
      TaskIdKey := Str(taskId),
      "task_description" := Str(description),
      "task_type" := Str("stock_recommendation")])
  }

  /**
    `result.get("task_id") or result.get("original_task_data", {}).get("task_id") or "no-id"`;
    a `.get` on something that is not a dict raises.
   */
  function IncomingId(result: Value): Result<Value>
  {
    OrChain(result, TaskIdKey, 1, NoId)
  }

  /** Does this delivery resolve the future of request `taskId`? */
  predicate Matches(d: Delivery, taskId: string)
  {
    d.body.Some? && IncomingId(d.body.value) == Ok(Str(taskId))
  }

  /** All deliveries up to and including `i` arrived before the wait ended. */
  predicate InTime(ds: seq<Delivery>, i: int)
  {
    forall j :: 0 <= j <= i && j < |ds| ==> ds[j].at < WaitLimit
  }

  /**
    The outcome of the wait: the first delivery, among those that arrive before the
    limit, that matches the request; `None` is the timeout. A resolved wait always carries
    the id of the request.
   */
  function Await(ds: seq<Delivery>, taskId: string): (r: Option<Value>)
    ensures r.Some? ==> IncomingId(r.value) == Ok(Str(taskId))
  {
    if ds == [] || ds[0].at >= WaitLimit then None
    else if Matches(ds[0], taskId) then Some(ds[0].body.value)
    else Await(ds[1..], taskId)
  }

  /**
    The wait resolves with a delivery exactly when some delivery that arrived in time
    matches, and then with the earliest such one; otherwise it times out.
   */
  lemma {:induction false} AwaitIsFirstInTimeMatch(ds: seq<Delivery>, taskId: string)
    ensures Await(ds, taskId).Some? ==>
              exists i :: 0 <= i < |ds| && InTime(ds, i) && Matches(ds[i], taskId)
                          && Await(ds, taskId).value == ds[i].body.value
                          && (forall j :: 0 <= j < i ==> !Matches(ds[j], taskId))
    ensures Await(ds, taskId).None? ==> forall i :: 0 <= i < |ds| && InTime(ds, i) ==> !Matches(ds[i], taskId)
  {
    if ds != [] && ds[0].at < WaitLimit && !Matches(ds[0], taskId) {
      var rest := ds[1..];
      AwaitIsFirstInTimeMatch(rest, taskId);
      assert forall i :: 1 <= i < |ds| && InTime(ds, i) ==> InTime(rest, i - 1);
      assert forall i :: 0 <= i < |rest| && InTime(rest, i) ==> InTime(ds, i + 1);
      if Await(rest, taskId).Some? {
        var i :| 0 <= i < |rest| && InTime(rest, i) && Matches(rest[i], taskId)
                 && Await(rest, taskId).value == rest[i].body.value
                 && (forall j :: 0 <= j < i ==> !Matches(rest[j], taskId));
        assert InTime(ds, i + 1) && ds[i + 1] == rest[i];
      } else {
        forall i | 0 <= i < |ds| && InTime(ds, i)
          ensures !Matches(ds[i], taskId)
        {
          if i > 0 {
            assert InTime(rest, i - 1) && rest[i - 1] == ds[i];
          }
        }
      }
    } else if ds != [] && ds[0].at < WaitLimit {
      assert InTime(ds, 0);
    } else if ds != [] {
      assert forall i :: 0 <= i < |ds| ==> !InTime(ds, i);
    }
  }

  /** The first match wins: deliveries after a matching one cannot change the outcome. */
  lemma {:induction false} FirstMatchWins(ds: seq<Delivery>, later: seq<Delivery>, taskId: string)
    requires Await(ds, taskId).Some?
    ensures Await(ds + later, taskId) == Await(ds, taskId)
  {
    assert (ds + later)[0] == ds[0];
    if !Matches(ds[0], taskId) {
      assert (ds + later)[1..] == ds[1..] + later;
      FirstMatchWins(ds[1..], later, taskId);
    }
  }

  /** The id lookup reads two levels: on a two-level envelope it is the first truthy id, else "no-id". */
  lemma IncomingIdIsFirstTruthy(result: Value)
    requires result.Obj?
    ensures IncomingId(result).Ok? ==>
              IncomingId(result).value == FirstTruthy(Take(Levels(result), 2), TaskIdKey, NoId)
  {
    OrChainIsFirstTruthy(result, TaskIdKey, 1, NoId);
  }

  /** One delivery of the wait. */
  lemma AwaitStep(ds: seq<Delivery>, taskId: string)
    requires ds != [] && ds[0].at < WaitLimit
    ensures Matches(ds[0], taskId) ==> Await(ds, taskId) == Some(ds[0].body.value)
    ensures !Matches(ds[0], taskId) ==> Await(ds, taskId) == Await(ds[1..], taskId)
  {
  }

  /** The single-slot future of one request. */
  class ReplyFuture {
    var result: Option<Value>

    constructor ()
      ensures result == None
    {
      result := None;
    }

    /**
      `result_handler`: a matching delivery resolves the future if it is still pending;
      an undecodable body or a failed lookup is swallowed.
     */
    method Deliver(d: Delivery, taskId: string)
      modifies this
      ensures result == if old(result).None? && Matches(d, taskId) then Some(d.body.value) else old(result)
    {
      if d.body.None? {
        return;
      }
      var incoming := IncomingId(d.body.value);
      if incoming.Err? {
        return;
      }
      if incoming.value == Str(taskId) && result.None? {
        result := Some(d.body.value);
      }
    }
  }

  /** `asyncio.wait_for(future, timeout=60)` over the deliveries in arrival order. */
  method AwaitResult(ds: seq<Delivery>, taskId: string) returns (r: Option<Value>)
    ensures r == Await(ds, taskId)
  {
    var future := new ReplyFuture();
    var i := 0;
    while i < |ds| && ds[i].at < WaitLimit && future.result.None?
      invariant 0 <= i <= |ds|
      invariant future.result.None? ==> Await(ds, taskId) == Await(ds[i..], taskId)
      invariant future.result.Some? ==> future.result == Await(ds, taskId)
    {
      AwaitStep(ds[i..], taskId);
      assert ds[i..][0] == ds[i] && ds[i..][1..] == ds[i + 1..];
      future.Deliver(ds[i], taskId);
      i := i + 1;
    }
    if future.result.None? {
      assert ds[i..] == [] || ds[i..][0].at >= WaitLimit;
    }
    r := future.result;
  }
}
