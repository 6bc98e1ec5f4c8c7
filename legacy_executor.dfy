/**
  The older, registry-driven executor. The worker set of a task is whatever the vector
  store returns for the task's description; an empty selection is reported to the client
  as an error record. Tracking is (re)set on every fan-out, replies are stored without
  deduplication, and a task completes when the stored replies equal the expected count
  exactly. The vector store query is a parameter: it maps a query text to the rows of ids
  the collection returns.
 */
module LegacyExecutor {
  import opened Json
  import opened Envelope
  import opened Bus
  import Executor

  const DescriptionKey := "task_description"
  const NoSuitableAgent := "No suitable sub-agent found."

  /** The rows of ids a collection query returns, first row for the first query text. */
  type QueryRows = seq<seq<string>>

  /** `search_top_agents`: the first row of ids, or none when there are no rows. */
  function SearchTopAgents(rows: QueryRows): (ids: seq<string>)
    ensures rows == [] ==> ids == []
    ensures rows != [] ==> ids == rows[0]
  {
    if rows == [] then [] else rows[0]
  }

  /**
    `search_best_agent`: the first id of the first row, `None` without rows, `IndexError`
    on an empty row. The best agent is the head of the top agents, and the search only
    fails where the top list is empty.
   */
  function SearchBestAgent(rows: QueryRows): (r: Result<Option<string>>)
    ensures SearchTopAgents(rows) != [] ==> r == Ok(Some(SearchTopAgents(rows)[0]))
    ensures r.Ok? && r.value.Some? ==> SearchTopAgents(rows) != []
    ensures r == Ok(None) <==> rows == []
    ensures r.Err? <==> rows != [] && SearchTopAgents(rows) == []
    ensures r.Err? ==> r.error == IndexError
  {
    if rows == [] then Ok(None)
    else if rows[0] == [] then Err(IndexError)
    else Ok(Some(rows[0][0]))
  }

  /** The record the client receives when no worker matched. */
  function NoAgentError(taskId: Value): Value
  {
    Obj(map[TaskIdKey := taskId, "error" := Str(NoSuitableAgent)])
  }

  /** One dispatch per selected worker, in selection order. */
  function LegacyDispatches(ids: seq<string>, structured: map<string, Value>, taskId: Value): (ms: seq<Message>)
    ensures |ms| == |ids|
    ensures forall i :: 0 <= i < |ids| ==> ms[i] == Message(AgentTopic(ids[i]), DispatchPayload(structured, taskId))
  {
    if ids == [] then []
    else [Message(AgentTopic(ids[0]), DispatchPayload(structured, taskId))] + LegacyDispatches(ids[1..], structured, taskId)
  }

  /**
    The query text and the task id of a structured task: both are read from
    "original_task_data" only, with the defaults "N/A" and "no-id" and no truthiness test.
    A task or an "original_task_data" that is not a dict raises at `.get`.
   */
  function ReadTask(data: Value): Result<(Value, Value)>
  {
    if !data.Obj? then Err(AttributeError)
    else
      var original := GetOr(data.fields, OriginalKey, EmptyObj);
      if !original.Obj? then Err(AttributeError)
      else Ok((GetOr(original.fields, DescriptionKey, Str("N/A")), GetOr(original.fields, TaskIdKey, NoId)))
  }

  /**
    `executor_handler` as one step: an empty selection publishes one error record and
    changes nothing; otherwise tracking for the id is overwritten with an empty reply
    list and the selection size, and one dispatch per selected worker is published.
   */
  function OnTask(t: Tracking, data: Value, query: Value -> QueryRows): (s: Step)
    ensures s.raised ==> s.tracking == t && s.published == []
    ensures !s.raised ==> s.published != []
    ensures ReadTask(data).Ok? ==>
              var tid := ReadTask(data).value.1;
              s.tracking.responses - {tid} == t.responses - {tid} && s.tracking.expected - {tid} == t.expected - {tid}
  {
    match ReadTask(data)
    case Err(_) => Step(t, [], true)
    case Ok((text, tid)) =>
      var ids := SearchTopAgents(query(text));
      if ids == [] then Step(t, [Message(ClientReplyTopic, NoAgentError(tid))], false)
      else if !Hashable(tid) then Step(t, [], true)
      else Step(Tracking(t.responses[tid := []], t.expected[tid := |ids|]), LegacyDispatches(ids, data.fields, tid), false)
  }

  /**
    `subagent_response_handler` as one step: the reply is appended to its id's list
    (created if absent); an id without an expected count raises `KeyError` after the
    append; the task completes when the count is reached exactly.
   */
  function OnReply(t: Tracking, reply: Value): (s: Step)
    ensures !reply.Obj? ==> s == Step(t, [], true)
    ensures reply.Obj? ==>
              var tid := GetOr(reply.fields, TaskIdKey, NoId);
              && s.tracking.responses - {tid} == t.responses - {tid} && s.tracking.expected - {tid} == t.expected - {tid}
              && (tid in s.tracking.expected ==> tid in t.expected && s.tracking.expected[tid] == t.expected[tid])
              && (s.published != [] ==> |s.published| == 1 && IsFinalFor(s.published[0], tid))
  {
    if !reply.Obj? then Step(t, [], true)
    else
      var tid := GetOr(reply.fields, TaskIdKey, NoId);
      if !Hashable(tid) then Step(t, [], true)
      else
        var replies := (if tid in t.responses then t.responses[tid] else []) + [reply];
        if tid !in t.expected then Step(Tracking(t.responses[tid := replies], t.expected), [], true)
        else if |replies| == t.expected[tid] then
          Step(Tracking(t.responses - {tid}, t.expected - {tid}), [Message(ClientReplyTopic, FinalResult(tid, replies))], false)
        else Step(Tracking(t.responses[tid := replies], t.expected), [], false)
  }

  /**
    What the two handlers keep: an expected count only exists beside a reply list, is
    positive and is not yet reached; stored replies are dicts filed under their own id.
   */
  ghost predicate Inv(t: Tracking)
  {
    && t.expected.Keys <= t.responses.Keys
    && (forall k :: k in t.responses ==> Hashable(k))
    && (forall k :: k in t.expected ==> 0 <= |t.responses[k]| < t.expected[k])
    && (forall k, r :: k in t.responses && r in t.responses[k] ==> r.Obj? && GetOr(r.fields, TaskIdKey, NoId) == k)
  }

  lemma OnTaskKeepsInv(t: Tracking, data: Value, query: Value -> QueryRows)
    requires Inv(t)
    ensures Inv(OnTask(t, data, query).tracking)
  {
  }

  lemma OnReplyKeepsInv(t: Tracking, reply: Value)
    requires Inv(t)
    ensures Inv(OnReply(t, reply).tracking)
  {
  }

  /** An empty selection publishes exactly one error record for the task and creates no tracking. */
  lemma EmptySelectionReportsError(t: Tracking, data: Value, query: Value -> QueryRows)
    requires ReadTask(data).Ok? && SearchTopAgents(query(ReadTask(data).value.0)) == []
    ensures OnTask(t, data, query) == Step(t, [Message(ClientReplyTopic, NoAgentError(ReadTask(data).value.1))], false)
  {
  }

  /**
    A non-empty selection overwrites whatever tracking the id had (a redelivered task
    loses the replies collected so far), leaves every other id alone, and sends one
    dispatch to "agent." + id for each selected worker.
   */
  lemma FanOutResets(t: Tracking, data: Value, query: Value -> QueryRows)
    requires ReadTask(data).Ok? && Hashable(ReadTask(data).value.1)
    requires SearchTopAgents(query(ReadTask(data).value.0)) != []
    ensures var tid := ReadTask(data).value.1;
            var ids := SearchTopAgents(query(ReadTask(data).value.0));
            var s := OnTask(t, data, query);
            && !s.raised
            && s.tracking.responses[tid] == [] && s.tracking.expected[tid] == |ids|
            && (forall k :: k != tid ==> (k in s.tracking.responses <==> k in t.responses))
            && (forall k :: k != tid && k in t.responses ==> s.tracking.responses[k] == t.responses[k])
            && (forall k :: k != tid ==> (k in s.tracking.expected <==> k in t.expected))
            && (forall k :: k != tid && k in t.expected ==> s.tracking.expected[k] == t.expected[k])
            && |s.published| == |ids|
            && (forall i :: 0 <= i < |ids| ==>
                  s.published[i].topic == AgentTopic(ids[i]) && s.published[i].payload.fields[TaskIdKey] == tid)
  {
  }

  /**
    The id is read one level down only: a task whose id sits at the top level is tracked
    under "no-id" here, while the current executor finds it.
   */
  lemma TopLevelIdIgnored(id: string)
    requires id != ""
    ensures var task := Obj(map[TaskIdKey := Str(id)]);
            ReadTask(task) == Ok((Str("N/A"), NoId)) && Executor.ExtractTaskId(task) == Str(id)
  {
  }

  /** Replies are not deduplicated: below the expected count every reply is appended, whatever its agent tag. */
  lemma EveryReplyAppended(t: Tracking, reply: Value)
    requires reply.Obj? && Hashable(GetOr(reply.fields, TaskIdKey, NoId))
    requires var tid := GetOr(reply.fields, TaskIdKey, NoId);
             tid in t.responses && tid in t.expected && |t.responses[tid]| + 1 != t.expected[tid]
    ensures var tid := GetOr(reply.fields, TaskIdKey, NoId);
            OnReply(t, reply) == Step(Tracking(t.responses[tid := t.responses[tid] + [reply]], t.expected), [], false)
  {
  }

  /**
    Completion is exact and happens once: a final result is published only for the reply's
    own id, when the stored replies plus this one are exactly the expected count; it holds
    them in arrival order, and both tracking entries are removed.
   */
  lemma CompletionAtExactCount(t: Tracking, reply: Value)
    requires Inv(t)
    requires OnReply(t, reply).published != []
    ensures reply.Obj?
    ensures var tid := GetOr(reply.fields, TaskIdKey, NoId);
            && tid in t.expected
            && |t.responses[tid]| + 1 == t.expected[tid]
            && OnReply(t, reply).published == [Message(ClientReplyTopic, FinalResult(tid, t.responses[tid] + [reply]))]
            && tid !in OnReply(t, reply).tracking.responses
            && tid !in OnReply(t, reply).tracking.expected
  {
  }

  /**
    Conversely, a reply whose id is tracked and whose arrival makes the stored replies
    exactly the expected count publishes the final result and removes both entries.
   */
  lemma ExactCountCompletes(t: Tracking, reply: Value)
    requires reply.Obj?
    requires var tid := GetOr(reply.fields, TaskIdKey, NoId);
             Hashable(tid) && tid in t.responses && tid in t.expected && |t.responses[tid]| + 1 == t.expected[tid]
    ensures var tid := GetOr(reply.fields, TaskIdKey, NoId);
            && OnReply(t, reply).published == [Message(ClientReplyTopic, FinalResult(tid, t.responses[tid] + [reply]))]
            && !OnReply(t, reply).raised
            && tid !in OnReply(t, reply).tracking.responses
            && tid !in OnReply(t, reply).tracking.expected
  {
  }

  /** A reply for an id that was never fanned out raises `KeyError`, but stays stored. */
  lemma UntrackedReplyRaises(t: Tracking, reply: Value)
    requires reply.Obj? && Hashable(GetOr(reply.fields, TaskIdKey, NoId))
    requires GetOr(reply.fields, TaskIdKey, NoId) !in t.expected
    ensures var tid := GetOr(reply.fields, TaskIdKey, NoId);
            && OnReply(t, reply).raised && OnReply(t, reply).published == []
            && tid in OnReply(t, reply).tracking.responses
            && OnReply(t, reply).tracking.responses[tid][|OnReply(t, reply).tracking.responses[tid]| - 1] == reply
  {
    var tid := GetOr(reply.fields, TaskIdKey, NoId);
    var replies := (if tid in t.responses then t.responses[tid] else []) + [reply];
    assert replies[|replies| - 1] == reply;
  }

  /** A reply from the price worker, identified only by its id and agent tag. */
  function PriceReply(id: string): Value
  {
    Obj(map[TaskIdKey := Str(id), "agent" := Str("PricePredictorAgent")])
  }

  /**
    The same worker answering twice completes a task that expected two different workers:
    the final result holds the one reply twice. The current executor drops the second copy.
   */
  lemma DuplicateReplyCompletes(id: string)
    ensures var tid := Str(id);
            var t := Tracking(map[tid := []], map[tid := 2]);
            var s1 := OnReply(t, PriceReply(id));
            var s2 := OnReply(s1.tracking, PriceReply(id));
            && s1.published == []
            && s2.published == [Message(ClientReplyTopic, FinalResult(tid, [PriceReply(id), PriceReply(id)]))]
            && s2.tracking == NoTracking
  {
    var tid := Str(id);
    var t := Tracking(map[tid := []], map[tid := 2]);
    var s1 := OnReply(t, PriceReply(id));
    assert [] + [PriceReply(id)] == [PriceReply(id)];
    assert map[tid := []][tid := [PriceReply(id)]] == map[tid := [PriceReply(id)]];
    assert s1.tracking == Tracking(map[tid := [PriceReply(id)]], map[tid := 2]);
    assert [PriceReply(id)] + [PriceReply(id)] == [PriceReply(id), PriceReply(id)];
    assert map[tid := [PriceReply(id)]] - {tid} == map[];
    assert map[tid := 2] - {tid} == map[];
  }

  /** The publishing loop of `executor_handler`: one dispatch per selected worker, in order. */
  method FanOut(ids: seq<string>, structured: map<string, Value>, taskId: Value) returns (ms: seq<Message>)
    ensures ms == LegacyDispatches(ids, structured, taskId)
  {
    ms := [];
    var i := 0;
    while i < |ids|
      invariant 0 <= i <= |ids|
      invariant ms == LegacyDispatches(ids, structured, taskId)[..i]
    {
      assert LegacyDispatches(ids, structured, taskId)[..i + 1]
          == LegacyDispatches(ids, structured, taskId)[..i] + [LegacyDispatches(ids, structured, taskId)[i]];
      ms := ms + [Message(AgentTopic(ids[i]), DispatchPayload(structured, taskId))];
      i := i + 1;
    }
  }

  /**
    The older executor process: its two tracking dictionaries and the messages it has
    published. Its handlers change them exactly as `OnTask` and `OnReply` say.
   */
  class RegistryExecutor {
    var responses: map<Value, seq<Value>>
    var expectedCount: map<Value, int>
    var published: seq<Message>

    ghost function State(): Tracking
      reads this
    {
      Tracking(responses, expectedCount)
    }

    ghost predicate Valid()
      reads this
    {
      Inv(State())
    }

    constructor ()
      ensures Valid() && State() == NoTracking && published == []
    {
      responses := map[];
      expectedCount := map[];
      published := [];
    }

    /** `executor_handler`, with the collection query given as `query`. */
    method HandleTask(data: Value, query: Value -> QueryRows) returns (raised: bool)
      requires Valid()
      modifies this
      ensures Valid()
      ensures State() == OnTask(old(State()), data, query).tracking
      ensures published == old(published) + OnTask(old(State()), data, query).published
      ensures raised == OnTask(old(State()), data, query).raised
    {
      OnTaskKeepsInv(State(), data, query);
      if !data.Obj? {
        return true;
      }
      var original := GetOr(data.fields, OriginalKey, EmptyObj);
      if !original.Obj? {
        return true;
      }
      var userQuery := GetOr(original.fields, DescriptionKey, Str("N/A"));
      var taskId := GetOr(original.fields, TaskIdKey, NoId);
      var topAgentIds := SearchTopAgents(query(userQuery));
      if topAgentIds == [] {
        published := published + [Message(ClientReplyTopic, NoAgentError(taskId))];
        return false;
      }
      if !Hashable(taskId) {
        return true;
      }
      responses := responses[taskId := []];
      expectedCount := expectedCount[taskId := |topAgentIds|];
      var dispatches := FanOut(topAgentIds, data.fields, taskId);
      published := published + dispatches;
      raised := false;
    }

    /** `subagent_response_handler`. */
    method HandleReply(reply: Value) returns (raised: bool)
      requires Valid()
      modifies this
      ensures Valid()
      ensures State() == OnReply(old(State()), reply).tracking
      ensures published == old(published) + OnReply(old(State()), reply).published
      ensures raised == OnReply(old(State()), reply).raised
    {
      OnReplyKeepsInv(State(), reply);
      if !reply.Obj? {
        return true;
      }
      var taskId := GetOr(reply.fields, TaskIdKey, NoId);
      if !Hashable(taskId) {
        return true;
      }
      var stored := if taskId in responses then responses[taskId] else [];
      var replies := stored + [reply];
      if taskId !in expectedCount {
        responses := responses[taskId := replies];
        return true;
      }
      if |replies| == expectedCount[taskId] {
        published := published + [Message(ClientReplyTopic, FinalResult(taskId, replies))];
        responses := responses - {taskId};
        expectedCount := expectedCount - {taskId};
      } else {
        responses := responses[taskId := replies];
      }
      raised := false;
    }
  }
}
