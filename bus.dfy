/**
  What the handlers exchange over the message bus: topics, the records both
  executors build, and the aggregation state both executors keep.
  A handler invocation is one atomic step; what it publishes is recorded in order.
 */
module Bus {
  import opened Json
  import opened Envelope

  const ExecutorTopic := "agent.executor"
  const CrewResponsesTopic := "crew.responses"
  const ClientReplyTopic := "client.final.results"
  const CaptainTopic := "crew.captain"

  /** A publish: topic and decoded payload. */
  datatype Message = Message(topic: string, payload: Value)

  /** The per-worker topic `f"agent.{agent_id}"`. */
  function AgentTopic(agentId: string): string
  {
    "agent." + agentId
  }

  /**
    The record an executor sends to one worker: the task id it settled on and the
    classification fields of the structured task, each defaulted when absent.
   */
  function DispatchPayload(structured: map<string, Value>, taskId: Value): Value
  {
    Obj(map[
      TaskIdKey := taskId,
      "OP_CODE" := GetOr(structured, "OP_CODE", Str("UNKNOWN")),
      "UserContext" := GetOr(structured, "UserContext", EmptyObj),
      "ProcessContext" := GetOr(structured, "ProcessContext", EmptyObj),
      OriginalKey := GetOr(structured, OriginalKey, EmptyObj)
    ])
  }

  /** The terminal record `{task_id, aggregated_results}`. */
  function FinalResult(taskId: Value, replies: seq<Value>): Value
  {
    Obj(map[TaskIdKey := taskId, "aggregated_results" := Arr(replies)])
  }

  /** `reply.get("agent")`: a missing tag reads as `None`. */
  function AgentTag(reply: Value): Value
  {
    if reply.Obj? then GetOr(reply.fields, "agent", Null) else Null
  }

  /** Is `m` a final result published for `taskId`? */
  predicate IsFinalFor(m: Message, taskId: Value)
  {
    m.topic == ClientReplyTopic && m.payload.Obj? && TaskIdKey in m.payload.fields
    && m.payload.fields[TaskIdKey] == taskId && "aggregated_results" in m.payload.fields
  }

  /** The two dictionaries `tasks_responses` and `tasks_expected_count`. */
  datatype Tracking = Tracking(responses: map<Value, seq<Value>>, expected: map<Value, int>)

  const NoTracking := Tracking(map[], map[])

  /** One handler invocation: the new tracking state, what it published, and whether it raised. */
  datatype Step = Step(tracking: Tracking, published: seq<Message>, raised: bool)

  /** A sequence of handler invocations from some state: the final state and everything published. */
  datatype Trace = Trace(tracking: Tracking, published: seq<Message>)
}
