/**
  The executor sub-agent: it fans every structured task out to a fixed list of three
  workers and aggregates their replies, keyed by task id, in the two dictionaries
  `tasks_responses` and `tasks_expected_count`. Replies are deduplicated by their
  "agent" tag; a task completes when the expected count is positive and the stored
  replies reach it, and its tracking entries are then removed.
 */
module Executor {
  import opened Json
  import opened Envelope
  import opened Bus

  /** The static worker list every task is fanned out to. */
  const AllAgentIds: seq<string> := ["stock_news_agent", "stock_price_agent", "price_predictor_agent"]

  /**
    `extract_task_id`: a truthy top-level "task_id", else the id found by searching a dict
    under "original_task_data", else "no-id". Total: it never raises and never returns a
    falsy value.
   */
  function ExtractTaskId(data: Value): (r: Value)
    ensures Truthy(r)
    ensures !data.Obj? ==> r == NoId
  {
    match data
    case Obj(m) =>
      if TaskIdKey in m && Truthy(m[TaskIdKey]) then m[TaskIdKey]
      else if OriginalKey in m && m[OriginalKey].Obj? then
        var tid := ExtractTaskId(m[OriginalKey]);
        if tid != NoId then tid else NoId
      else NoId
    case _ => NoId
  }

  /** The extractor is the first truthy "task_id" along the whole envelope chain. */
  lemma {:induction false} ExtractIsFirstTruthy(data: Value)
    ensures ExtractTaskId(data) == FirstTruthy(Levels(data), TaskIdKey, NoId)
  {
    match data
    case Obj(m) =>
      if TaskIdKey in m && Truthy(m[TaskIdKey]) {
      } else if OriginalKey in m && m[OriginalKey].Obj? {
        ExtractIsFirstTruthy(m[OriginalKey]);
        assert Levels(data)[1..] == Levels(m[OriginalKey]);
      } else {
        assert Levels(data) == [m];
      }
    case _ =>
  }

  /** The dispatch messages of one fan-out, one per worker in list order. */
  function Dispatches(structured: map<string, Value>, taskId: Value): seq<Message>
  {
    seq(|AllAgentIds|, i requires 0 <= i < |AllAgentIds| =>
      Message(AgentTopic(AllAgentIds[i]), DispatchPayload(structured, taskId)))
  }

  /** Some stored reply carries this agent tag. */
  predicate HasAgent(stored: seq<Value>, tag: Value)
  {
    exists i :: 0 <= i < |stored| && AgentTag(stored[i]) == tag
  }

  ghost predicate DistinctAgents(replies: seq<Value>)
  {
    forall i, j :: 0 <= i < j < |replies| ==> AgentTag(replies[i]) != AgentTag(replies[j])
  }

  /**
    The invariant the two handlers keep: an expected count only exists beside a reply
    list, equals the worker count and is not yet reached; stored replies are dicts
    filed under their own extracted id, with pairwise-distinct agent tags.
   */
  ghost predicate Inv(t: Tracking)
  {
    && t.expected.Keys <= t.responses.Keys
    && (forall k :: k in t.responses ==> Hashable(k))
    && (forall k :: k in t.expected ==> |t.responses[k]| < t.expected[k] == |AllAgentIds|)
    && (forall k :: k in t.responses ==> DistinctAgents(t.responses[k]))
    && (forall k, r :: k in t.responses && r in t.responses[k] ==> r.Obj? && ExtractTaskId(r) == k)
  }

  /**
    `executor_handler` as one step: tracking is created only when the id has no reply
    list; a message that is not a dict raises at its first `.get`, after tracking was
    created; an unhashable id raises before anything changes.
   */
  function OnTask(t: Tracking, data: Value): (s: Step)
    ensures var tid := ExtractTaskId(data);
            s.tracking.responses - {tid} == t.responses - {tid} && s.tracking.expected - {tid} == t.expected - {tid}
    ensures s.raised ==> s.published == []
    ensures !s.raised ==> |s.published| == |AllAgentIds|
  {
    var tid := ExtractTaskId(data);
    if !Hashable(tid) then Step(t, [], true)
    else
      var t1 := if tid in t.responses then t
                else Tracking(t.responses[tid := []], t.expected[tid := |AllAgentIds|]);
      if !data.Obj? then Step(t1, [], true)
      else Step(t1, Dispatches(data.fields, tid), false)
  }

  /**
    `subagent_response_handler` as one step: a reply list is created if absent, the reply
    is appended unless its agent tag is already stored, and the task completes when the
    expected count (0 if unset) is positive and reached.
   */
  function OnReply(t: Tracking, reply: Value): (s: Step)
    ensures var tid := ExtractTaskId(reply);
            s.tracking.responses - {tid} == t.responses - {tid} && s.tracking.expected - {tid} == t.expected - {tid}
    ensures var tid := ExtractTaskId(reply);
            tid in s.tracking.expected ==> tid in t.expected && s.tracking.expected[tid] == t.expected[tid]
    ensures s.published != [] ==> |s.published| == 1 && IsFinalFor(s.published[0], ExtractTaskId(reply))
  {
    var tid := ExtractTaskId(reply);
    if !Hashable(tid) then Step(t, [], true)
    else
      var stored := if tid in t.responses then t.responses[tid] else [];
      if !reply.Obj? then Step(Tracking(t.responses[tid := stored], t.expected), [], true)
      else
        var replies := if HasAgent(stored, AgentTag(reply)) then stored else stored + [reply];
        var expected := if tid in t.expected then t.expected[tid] else 0;
        if expected > 0 && |replies| >= expected then
          Step(Tracking(t.responses - {tid}, t.expected - {tid}),
               [Message(ClientReplyTopic, FinalResult(tid, replies))], false)
        else Step(Tracking(t.responses[tid := replies], t.expected), [], false)
  }

  /** A bus delivery to one of the executor's two subscriptions. */
  datatype Event = TaskArrives(data: Value) | ReplyArrives(reply: Value)

  function Apply(t: Tracking, e: Event): Step
  {
    match e
    case TaskArrives(data) => OnTask(t, data)
    case ReplyArrives(reply) => OnReply(t, reply)
  }

  /** Handling `events` one after another, starting from `t`. */
  function Run(t: Tracking, events: seq<Event>): Trace
    decreases |events|
  {
    if events == [] then Trace(t, [])
    else
      var s := Apply(t, events[0]);
      var rest := Run(s.tracking, events[1..]);
      Trace(rest.tracking, s.published + rest.published)
  }

  lemma OnTaskKeepsInv(t: Tracking, data: Value)
    requires Inv(t)
    ensures Inv(OnTask(t, data).tracking)
  {
    var tid := ExtractTaskId(data);
    if Hashable(tid) && tid !in t.responses {
      InvFresh(t, tid);
    }
  }

  /** Fresh tracking for an untracked hashable id keeps the invariant. */
  lemma InvFresh(t: Tracking, tid: Value)
    requires Inv(t) && Hashable(tid) && tid !in t.responses
    ensures Inv(Tracking(t.responses[tid := []], t.expected[tid := |AllAgentIds|]))
  {
  }

  /** Filing a well-formed reply list under a hashable id keeps the invariant. */
  lemma InvStore(t: Tracking, tid: Value, replies: seq<Value>)
    requires Inv(t) && Hashable(tid) && DistinctAgents(replies)
    requires forall r :: r in replies ==> r.Obj? && ExtractTaskId(r) == tid
    requires tid in t.expected ==> |replies| < t.expected[tid]
    ensures Inv(Tracking(t.responses[tid := replies], t.expected))
  {
  }

  /** Dropping both tracking entries of an id keeps the invariant. */
  lemma InvRemove(t: Tracking, tid: Value)
    requires Inv(t)
    ensures Inv(Tracking(t.responses - {tid}, t.expected - {tid}))
  {
  }

  /** Appending a reply whose agent tag is not stored keeps the tags pairwise distinct. */
  lemma AppendKeepsDistinct(stored: seq<Value>, reply: Value)
    requires DistinctAgents(stored) && !HasAgent(stored, AgentTag(reply))
    ensures DistinctAgents(stored + [reply])
  {
    var replies := stored + [reply];
    forall i, j | 0 <= i < j < |replies|
      ensures AgentTag(replies[i]) != AgentTag(replies[j])
    {
      if j == |stored| {
        assert AgentTag(stored[i]) != AgentTag(reply);
      }
    }
  }

  lemma OnReplyKeepsInv(t: Tracking, reply: Value)
    requires Inv(t)
    ensures Inv(OnReply(t, reply).tracking)
  {
    var tid := ExtractTaskId(reply);
    if Hashable(tid) {
      var stored := if tid in t.responses then t.responses[tid] else [];
      if !reply.Obj? {
        InvStore(t, tid, stored);
      } else {
        var replies := if HasAgent(stored, AgentTag(reply)) then stored else stored + [reply];
        if !HasAgent(stored, AgentTag(reply)) {
          AppendKeepsDistinct(stored, reply);
        }
        var expected := if tid in t.expected then t.expected[tid] else 0;
        if expected > 0 && |replies| >= expected {
          InvRemove(t, tid);
        } else {
          InvStore(t, tid, replies);
        }
      }
    }
  }

  /**
    Completion is exact: a final result is published only for the reply's own id, holds
    the previously stored replies followed by this one, exactly as many as were
    expected, with pairwise-distinct agent tags, and both tracking entries are gone.
   */
  lemma CompletionIsExact(t: Tracking, reply: Value)
    requires Inv(t)
    requires OnReply(t, reply).published != []
    ensures var tid := ExtractTaskId(reply);
            && tid in t.expected
            && !HasAgent(t.responses[tid], AgentTag(reply))
            && OnReply(t, reply).published == [Message(ClientReplyTopic, FinalResult(tid, t.responses[tid] + [reply]))]
            && |t.responses[tid] + [reply]| == t.expected[tid] == |AllAgentIds|
            && DistinctAgents(t.responses[tid] + [reply])
            && tid !in OnReply(t, reply).tracking.responses
            && tid !in OnReply(t, reply).tracking.expected
  {
    var tid := ExtractTaskId(reply);
    AppendKeepsDistinct(t.responses[tid], reply);
  }

  /** A redelivered task keeps its tracking untouched, yet all three dispatches go out again. */
  lemma RedeliveryKeepsTracking(t: Tracking, data: Value)
    requires Inv(t) && data.Obj? && ExtractTaskId(data) in t.responses
    ensures OnTask(t, data).tracking == t
    ensures OnTask(t, data).published == Dispatches(data.fields, ExtractTaskId(data))
    ensures |OnTask(t, data).published| == 3
  {
  }

  /** A reply whose agent tag is already stored for its task changes nothing and publishes nothing. */
  lemma DuplicateReplyIsNoOp(t: Tracking, reply: Value)
    requires Inv(t) && reply.Obj?
    requires ExtractTaskId(reply) in t.responses
    requires HasAgent(t.responses[ExtractTaskId(reply)], AgentTag(reply))
    ensures OnReply(t, reply) == Step(t, [], false)
  {
    var tid := ExtractTaskId(reply);
    assert t.responses[tid := t.responses[tid]] == t.responses;
  }

  /** A task id with replies stored but no expected count: it can never complete. */
  ghost predicate Blocked(t: Tracking, tid: Value)
  {
    tid in t.responses && tid !in t.expected
  }

  /** A reply that arrives before its fan-out (or after its task completed) leaves the id blocked. */
  lemma ReplyBeforeFanOutBlocks(t: Tracking, reply: Value)
    requires reply.Obj? && Hashable(ExtractTaskId(reply))
    requires ExtractTaskId(reply) !in t.responses && ExtractTaskId(reply) !in t.expected
    ensures Blocked(OnReply(t, reply).tracking, ExtractTaskId(reply))
    ensures OnReply(t, reply).tracking.responses[ExtractTaskId(reply)] == [reply]
    ensures OnReply(t, reply).published == []
  {
  }

  /** One step keeps a blocked id blocked and publishes no final result for it. */
  lemma BlockedStep(t: Tracking, tid: Value, e: Event)
    requires Blocked(t, tid)
    ensures Blocked(Apply(t, e).tracking, tid)
    ensures forall m :: m in Apply(t, e).published ==> !IsFinalFor(m, tid)
  {
    match e
    case TaskArrives(data) =>
      forall m | m in OnTask(t, data).published
        ensures !IsFinalFor(m, tid)
      {
        assert m.topic[..6] == "agent.";
      }
    case ReplyArrives(reply) =>
  }

  /**
    Once blocked, forever blocked: whatever tasks and replies arrive afterwards, the
    expected count is never set again and no final result for the id is ever published.
   */
  lemma {:induction false} BlockedForever(t: Tracking, tid: Value, events: seq<Event>)
    requires Blocked(t, tid)
    ensures Blocked(Run(t, events).tracking, tid)
    ensures forall m :: m in Run(t, events).published ==> !IsFinalFor(m, tid)
    decreases |events|
  {
    if events != [] {
      BlockedStep(t, tid, events[0]);
      BlockedForever(Apply(t, events[0]).tracking, tid, events[1..]);
    }
  }

  /** Running a non-empty sequence: the first step, then the rest from its state. */
  lemma RunCons(t: Tracking, e: Event, rest: seq<Event>, s: Step, tail: Trace)
    requires Apply(t, e) == s && Run(s.tracking, rest) == tail
    ensures Run(t, [e] + rest) == Trace(tail.tracking, s.published + tail.published)
  {
    assert ([e] + rest)[1..] == rest;
  }

  /** A reply from a new agent tag that does not reach the expected count is appended. */
  lemma ReplyAppends(t: Tracking, reply: Value, tid: Value)
    requires reply.Obj? && Hashable(tid) && ExtractTaskId(reply) == tid
    requires tid in t.responses && tid in t.expected
    requires !HasAgent(t.responses[tid], AgentTag(reply))
    requires |t.responses[tid]| + 1 < t.expected[tid]
    ensures Apply(t, ReplyArrives(reply)) == Step(Tracking(t.responses[tid := t.responses[tid] + [reply]], t.expected), [], false)
  {
  }

  /** A reply from a new agent tag that reaches a positive expected count completes the task. */
  lemma ReplyCompletes(t: Tracking, reply: Value, tid: Value)
    requires reply.Obj? && Hashable(tid) && ExtractTaskId(reply) == tid
    requires tid in t.responses && tid in t.expected
    requires !HasAgent(t.responses[tid], AgentTag(reply))
    requires 0 < t.expected[tid] <= |t.responses[tid]| + 1
    ensures Apply(t, ReplyArrives(reply)) == Step(Tracking(t.responses - {tid}, t.expected - {tid}),
                                                  [Message(ClientReplyTopic, FinalResult(tid, t.responses[tid] + [reply]))], false)
  {
  }

  /** A task whose id has no reply list gets fresh tracking and all three dispatches. */
  lemma FanOutFresh(t: Tracking, data: Value, tid: Value)
    requires data.Obj? && Hashable(tid) && ExtractTaskId(data) == tid && tid !in t.responses
    ensures Apply(t, TaskArrives(data)) == Step(Tracking(t.responses[tid := []], t.expected[tid := |AllAgentIds|]),
                                                Dispatches(data.fields, tid), false)
  {
  }

  /** Running one event whose step is known. */
  lemma RunOne(t: Tracking, e: Event, s: Step)
    requires Apply(t, e) == s
    ensures Run(t, [e]) == Trace(s.tracking, s.published)
  {
    RunCons(t, e, [], s, Trace(s.tracking, []));
    assert [e] + [] == [e] && s.published + [] == s.published;
  }

  /** Running two events whose steps are known. */
  lemma RunTwo(t: Tracking, e0: Event, e1: Event, s0: Step, s1: Step)
    requires Apply(t, e0) == s0 && Apply(s0.tracking, e1) == s1
    ensures Run(t, [e0, e1]) == Trace(s1.tracking, s0.published + s1.published)
  {
    RunOne(s0.tracking, e1, s1);
    RunCons(t, e0, [e1], s0, Trace(s1.tracking, s1.published));
    assert [e0] + [e1] == [e0, e1];
  }

  /** Running three events whose steps are known. */
  lemma RunThree(t: Tracking, e0: Event, e1: Event, e2: Event, s0: Step, s1: Step, s2: Step)
    requires Apply(t, e0) == s0 && Apply(s0.tracking, e1) == s1 && Apply(s1.tracking, e2) == s2
    ensures Run(t, [e0, e1, e2]) == Trace(s2.tracking, s0.published + (s1.published + s2.published))
  {
    RunTwo(s0.tracking, e1, e2, s1, s2);
    RunCons(t, e0, [e1, e2], s0, Trace(s2.tracking, s1.published + s2.published));
    assert [e0] + [e1, e2] == [e0, e1, e2];
  }

  /** Running four events whose steps are known. */
  lemma RunFour(t: Tracking, e0: Event, e1: Event, e2: Event, e3: Event, s0: Step, s1: Step, s2: Step, s3: Step)
    requires Apply(t, e0) == s0 && Apply(s0.tracking, e1) == s1
    requires Apply(s1.tracking, e2) == s2 && Apply(s2.tracking, e3) == s3
    ensures Run(t, [e0, e1, e2, e3]) == Trace(s3.tracking, s0.published + (s1.published + (s2.published + s3.published)))
  {
    RunThree(s0.tracking, e1, e2, e3, s1, s2, s3);
    RunCons(t, e0, [e1, e2, e3], s0, Trace(s3.tracking, s1.published + (s2.published + s3.published)));
    assert [e0] + [e1, e2, e3] == [e0, e1, e2, e3];
  }

  /** Removing a key that was absent before two updates restores the map. */
  lemma RemoveAfterUpdates<V>(m: map<Value, V>, tid: Value, a: V, b: V, c: V)
    requires tid !in m
    ensures m[tid := a][tid := b][tid := c] - {tid} == m
    ensures m[tid := a] - {tid} == m
  {
  }

  /** Three replies with distinct tags: no reply's tag is stored when it arrives after the earlier ones. */
  lemma NotYetTagged(r0: Value, r1: Value, r2: Value)
    requires AgentTag(r0) != AgentTag(r1) && AgentTag(r0) != AgentTag(r2) && AgentTag(r1) != AgentTag(r2)
    ensures !HasAgent([], AgentTag(r0)) && !HasAgent([r0], AgentTag(r1)) && !HasAgent([r0, r1], AgentTag(r2))
  {
  }

  /** Proof helper for `FanOutThenThreeReplies`: the three appends it performs, as sequence displays. */
  lemma ThreeAppends(r0: Value, r1: Value, r2: Value)
    ensures [] + [r0] == [r0] && [r0] + [r1] == [r0, r1] && [r0, r1] + [r2] == [r0, r1, r2]
  {
  }

  /**
    The normal life of a task: a fresh task is fanned out, then one reply arrives from each
    of three distinct agent tags. The three dispatches are followed by exactly one final
    result holding the replies in arrival order, and the tracking is back where it started.
   */
  lemma FanOutThenThreeReplies(tid: Value, t: Tracking, data: Value, r0: Value, r1: Value, r2: Value)
    requires data.Obj? && Hashable(tid) && tid !in t.responses && tid !in t.expected
    requires r0.Obj? && r1.Obj? && r2.Obj?
    requires ExtractTaskId(data) == tid && ExtractTaskId(r0) == tid && ExtractTaskId(r1) == tid && ExtractTaskId(r2) == tid
    requires AgentTag(r0) != AgentTag(r1) && AgentTag(r0) != AgentTag(r2) && AgentTag(r1) != AgentTag(r2)
    ensures Run(t, [TaskArrives(data), ReplyArrives(r0), ReplyArrives(r1), ReplyArrives(r2)])
         == Trace(t, Dispatches(data.fields, tid) + [Message(ClientReplyTopic, FinalResult(tid, [r0, r1, r2]))])
  {
    var t0 := Tracking(t.responses[tid := []], t.expected[tid := |AllAgentIds|]);
    var t1 := Tracking(t0.responses[tid := [r0]], t0.expected);
    var t2 := Tracking(t1.responses[tid := [r0, r1]], t0.expected);
    NotYetTagged(r0, r1, r2);
    ThreeAppends(r0, r1, r2);
    RemoveAfterUpdates(t.responses, tid, [], [r0], [r0, r1]);
    RemoveAfterUpdates(t.expected, tid, |AllAgentIds|, |AllAgentIds|, |AllAgentIds|);
    FanOutFresh(t, data, tid);
    ReplyAppends(t0, r0, tid);
    ReplyAppends(t1, r1, tid);
    ReplyCompletes(t2, r2, tid);
    RunFour(t, TaskArrives(data), ReplyArrives(r0), ReplyArrives(r1), ReplyArrives(r2),
            Step(t0, Dispatches(data.fields, tid), false), Step(t1, [], false), Step(t2, [], false),
            Step(t, [Message(ClientReplyTopic, FinalResult(tid, [r0, r1, r2]))], false));
  }

  /** The structured task the executor test publishes: its id sits one level down. */
  function TestTask(): Value
  {
    Obj(map[
      "OP_CODE" := Str("STOCK_RECOMMENDATION"),
      "UserContext" := Obj(map["preference" := Str("short_term_gains")]),
      "ProcessContext" := Obj(map["history" := Str("test conversation data")]),
      OriginalKey := Obj(map[
        TaskIdKey := Str("exec-test-001"),
        "task_description" := Str("What new stocks should I buy this week?"),
        "task_type" := Str("stock_recommendation")])])
  }

  /** The dummy reply the executor test publishes for one worker. */
  function TestReply(agentId: string): Value
  {
    Obj(map[TaskIdKey := Str("exec-test-001"), "agent" := Str(agentId), "info" := Str("Dummy result from " + agentId)])
  }

  /**
    The executor test scenario: after the fan-out of "exec-test-001" and one reply from
    each of the three workers, exactly one final result for "exec-test-001" is published,
    holding the three replies in arrival order, and no tracking is left behind.
   */
  lemma ExecTestScenario()
    ensures var replies := [TestReply(AllAgentIds[0]), TestReply(AllAgentIds[1]), TestReply(AllAgentIds[2])];
            var trace := Run(NoTracking, [TaskArrives(TestTask()), ReplyArrives(replies[0]),
                                          ReplyArrives(replies[1]), ReplyArrives(replies[2])]);
            && |trace.published| == 4
            && trace.published[3] == Message(ClientReplyTopic, FinalResult(Str("exec-test-001"), replies))
            && trace.tracking == NoTracking
  {
    var inner := TestTask().fields[OriginalKey];
    assert ExtractTaskId(inner) == Str("exec-test-001");
    assert TaskIdKey !in TestTask().fields;
    TestReplyId(AllAgentIds[0]);
    TestReplyId(AllAgentIds[1]);
    TestReplyId(AllAgentIds[2]);
    FanOutThenThreeReplies(Str("exec-test-001"), NoTracking, TestTask(),
      TestReply(AllAgentIds[0]), TestReply(AllAgentIds[1]), TestReply(AllAgentIds[2]));
  }

  lemma TestReplyId(agentId: string)
    ensures ExtractTaskId(TestReply(agentId)) == Str("exec-test-001")
    ensures AgentTag(TestReply(agentId)) == Str(agentId)
  {
    assert TestReply(agentId).fields[TaskIdKey] == Str("exec-test-001");
  }

  /** The publishing loop of `executor_handler`: one dispatch per worker of the static list, in order. */
  method FanOut(structured: map<string, Value>, taskId: Value) returns (ms: seq<Message>)
    ensures ms == Dispatches(structured, taskId)
  {
    ms := [];
    var i := 0;
    while i < |AllAgentIds|
      invariant 0 <= i <= |AllAgentIds|
      invariant ms == Dispatches(structured, taskId)[..i]
    {
      ms := ms + [Message(AgentTopic(AllAgentIds[i]), DispatchPayload(structured, taskId))];
      i := i + 1;
    }
  }

  /** The duplicate scan of `subagent_response_handler`: does a stored reply carry this agent tag? */
  method FindAgent(stored: seq<Value>, tag: Value) returns (found: bool)
    ensures found <==> HasAgent(stored, tag)
  {
    found := false;
    var i := 0;
    while i < |stored| && !found
      invariant 0 <= i <= |stored|
      invariant found ==> HasAgent(stored, tag)
      invariant !found ==> forall j :: 0 <= j < i ==> AgentTag(stored[j]) != tag
    {
      found := AgentTag(stored[i]) == tag;
      i := i + 1;
    }
  }

  /**
    The executor process: the two tracking dictionaries and the messages it has
    published so far. Its handlers change them exactly as `OnTask` and `OnReply` say.
   */
  class ExecutorAgent {
    var responses: map<Value, seq<Value>>
    var expectedCount: map<Value, int>
    var published: seq<Message>

    ghost function State(): Tracking
      reads this
    {
      Tracking(responses, expectedCount)
    }

    ghost predicate Valid()
      reads this
    {
      Inv(State())
    }

    constructor ()
      ensures Valid() && State() == NoTracking && published == []
    {
      responses := map[];
      expectedCount := map[];
      published := [];
    }

    /** `executor_handler`. */
    method HandleTask(data: Value) returns (raised: bool)
      requires Valid()
      modifies this
      ensures Valid()
      ensures State() == OnTask(old(State()), data).tracking
      ensures published == old(published) + OnTask(old(State()), data).published
      ensures raised == OnTask(old(State()), data).raised
    {
      OnTaskKeepsInv(State(), data);
      var taskId := ExtractTaskId(data);
      if !Hashable(taskId) {
        return true;
      }
      if taskId !in responses {
        responses := responses[taskId := []];
        expectedCount := expectedCount[taskId := |AllAgentIds|];
      }
      if !data.Obj? {
        return true;
      }
      var dispatches := FanOut(data.fields, taskId);
      published := published + dispatches;
      raised := false;
    }

    /** `subagent_response_handler`. */
    method HandleReply(reply: Value) returns (raised: bool)
      requires Valid()
      modifies this
      ensures Valid()
      ensures State() == OnReply(old(State()), reply).tracking
      ensures published == old(published) + OnReply(old(State()), reply).published
      ensures raised == OnReply(old(State()), reply).raised
    {
      OnReplyKeepsInv(State(), reply);
      var taskId := ExtractTaskId(reply);
      if !Hashable(taskId) {
        return true;
      }
      // The list created for an untracked id is written back together with the reply.
      var stored := if taskId in responses then responses[taskId] else [];
      if !reply.Obj? {
        responses := responses[taskId := stored];
        return true;
      }
      var duplicate := FindAgent(stored, AgentTag(reply));
      var replies := if duplicate then stored else stored + [reply];
      var expected := if taskId in expectedCount then expectedCount[taskId] else 0;
      if expected > 0 && |replies| >= expected {
        published := published + [Message(ClientReplyTopic, FinalResult(taskId, replies))];
        responses := responses - {taskId};
        expectedCount := expectedCount - {taskId};
      } else {
        responses := responses[taskId := replies];
      }
      raised := false;
    }
  }
}
