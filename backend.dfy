/**
  The HTTP backend's `/start-task` endpoint: it publishes a request for the captain under
  a fresh id, waits on the final-results topic for the reply that carries that id, and
  answers the HTTP call with that reply or with a fixed timeout record. The fresh id
  (a UUID) and the deliveries on the final-results topic are parameters.
 */
module Backend {
  import opened Json
  import opened Envelope
  import opened Bus
  import opened Correlation

  const TimeoutRecord := Obj(map["error" := Str("Timeout waiting for response from agents")])

  /** What the endpoint returns: the matched result, or the timeout record. */
  function Response(taskId: string, ds: seq<Delivery>): Value
  {
    match Await(ds, taskId)
    case Some(result) => result
    case None => TimeoutRecord
  }

  /** The request carries its own id where the result handler looks for it. */
  lemma RequestCarriesId(taskId: string, description: string)
    requires taskId != ""
    ensures IncomingId(Request(taskId, description)) == Ok(Str(taskId))
    ensures Request(taskId, description).fields["task_type"] == Str("stock_recommendation")
  {
  }

  /**
    The caller gets the timeout record exactly when no delivery that arrived in time
    carried the request id; otherwise it gets the earliest such delivery. The timeout
    record itself can never be mistaken for a reply, since its id reads as "no-id".
   */
  lemma TimeoutExactlyWithoutMatch(taskId: string, ds: seq<Delivery>)
    requires taskId != "no-id"
    ensures Response(taskId, ds) == TimeoutRecord <==>
              forall i :: 0 <= i < |ds| && InTime(ds, i) ==> !Matches(ds[i], taskId)
    ensures Response(taskId, ds) != TimeoutRecord ==>
              exists i :: 0 <= i < |ds| && InTime(ds, i) && Matches(ds[i], taskId) && Response(taskId, ds) == ds[i].body.value
  {
    AwaitIsFirstInTimeMatch(ds, taskId);
    assert IncomingId(TimeoutRecord) == Ok(NoId);
  }

  /** The backend process: what it has published and how many result subscriptions are open. */
  class Server {
    var published: seq<Message>
    var openSubscriptions: nat

    constructor ()
      ensures published == [] && openSubscriptions == 0
    {
      published := [];
      openSubscriptions := 0;
    }

    /**
      `start_task`: subscribe, publish the request, wait, unsubscribe on both the reply
      and the timeout path, and answer.
     */
    method StartTask(description: string, freshId: string, ds: seq<Delivery>) returns (response: Value)
      modifies this
      ensures published == old(published) + [Message(CaptainTopic, Request(freshId, description))]
      ensures openSubscriptions == old(openSubscriptions)
      ensures response == Response(freshId, ds)
    {
      var taskData := Request(freshId, description);
      openSubscriptions := openSubscriptions + 1;
      published := published + [Message(CaptainTopic, taskData)];
      var result := AwaitResult(ds, freshId);
      if result.Some? {
        openSubscriptions := openSubscriptions - 1;
        return result.value;
      }
      openSubscriptions := openSubscriptions - 1;
      response := TimeoutRecord;
    }
  }
}
