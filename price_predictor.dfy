/**
  The price-predictor worker: it answers every dispatch with a fixed recommendation,
  tagged with the task id it finds in the dispatch. Its id lookup is a fixed or-chain
  over three envelope levels that turns any lookup failure into "no-id".
 */
module PricePredictor {
  import opened Json
  import opened Envelope
  import opened Bus
  import Executor

  const AgentName := "PricePredictorAgent"
  const Advice := "Buy TSLA, NVDA, AAPL"

  /**
    `extract_task_id` of the worker: the first truthy "task_id" at the top level, one
    level down or two levels down, else "no-id"; a `.get` on something that is not a
    dict is caught and also gives "no-id".
   */
  function ExtractTaskId(data: Value): (r: Value)
    ensures Truthy(r)
  {
    OrChainTruthy(data, TaskIdKey, 2, NoId);
    match OrChain(data, TaskIdKey, 2, NoId)
    case Ok(v) => v
    case Err(_) => NoId
  }

  /** The reply `predictor_handler` publishes on "crew.responses". */
  function Reply(data: Value): Value
  {
    Obj(map[TaskIdKey := ExtractTaskId(data), "agent" := Str(AgentName), "info" := Str(Advice)])
  }

  function Handle(data: Value): Message
  {
    Message(CrewResponsesTopic, Reply(data))
  }

  /** The worker's id is the first truthy id among the first three envelope levels. */
  lemma {:induction false} IsFirstTruthyOfThree(data: Value)
    ensures ExtractTaskId(data) == FirstTruthy(Take(Levels(data), 3), TaskIdKey, NoId)
  {
    if data.Obj? {
      OrChainIsFirstTruthy(data, TaskIdKey, 2, NoId);
    }
  }

  /** On envelopes at most three levels deep, the worker and the executor find the same id. */
  lemma AgreesWithExecutorWhenShallow(data: Value)
    requires |Levels(data)| <= 3
    ensures ExtractTaskId(data) == Executor.ExtractTaskId(data)
  {
    IsFirstTruthyOfThree(data);
    Executor.ExtractIsFirstTruthy(data);
  }

  /** An id found among the first three levels is the executor's id too, however deep the envelope. */
  lemma AgreesWithExecutorWhenFound(data: Value)
    requires ExtractTaskId(data) != NoId
    ensures ExtractTaskId(data) == Executor.ExtractTaskId(data)
  {
    IsFirstTruthyOfThree(data);
    Executor.ExtractIsFirstTruthy(data);
    var ls := Levels(data);
    FirstTruthyNull(Take(ls, 3), NoId);
    FirstTruthyOfPrefix(ls, 3, TaskIdKey, NoId);
  }

  /** With a truthy result, the fallback does not matter. */
  lemma {:induction false} FirstTruthyNull(ls: seq<map<string, Value>>, fallback: Value)
    requires FirstTruthy(ls, TaskIdKey, fallback) != fallback
    ensures FirstTruthy(ls, TaskIdKey, Null) == FirstTruthy(ls, TaskIdKey, fallback)
  {
    if ls != [] && !(TaskIdKey in ls[0] && Truthy(ls[0][TaskIdKey])) {
      FirstTruthyNull(ls[1..], fallback);
    }
  }

  /** An id three levels down is not found by the worker, while the executor finds it. */
  lemma MissesDepthThree(id: string)
    requires id != "" && id != "no-id"
    ensures var data := Wrap(Wrap(Wrap(Obj(map[TaskIdKey := Str(id)]))));
            ExtractTaskId(data) == NoId && Executor.ExtractTaskId(data) == Str(id)
  {
    var inner := Obj(map[TaskIdKey := Str(id)]);
    assert Executor.ExtractTaskId(inner) == Str(id);
    assert Executor.ExtractTaskId(Wrap(inner)) == Str(id);
    assert Executor.ExtractTaskId(Wrap(Wrap(inner))) == Str(id);
  }

  /** A lookup failure is swallowed: a present "original_task_data" that is not a dict gives "no-id". */
  lemma BadEnvelopeYieldsNoId(data: Value)
    requires data.Obj? && !Truthy(GetOr(data.fields, TaskIdKey, Null))
    requires OriginalKey in data.fields && !data.fields[OriginalKey].Obj?
    ensures ExtractTaskId(data) == NoId
  {
  }

  /**
    A reply to an executor dispatch carries the dispatch's id, so the executor files it
    under the task it fanned out.
   */
  lemma ReplyCarriesDispatchId(structured: map<string, Value>, taskId: Value)
    requires Truthy(taskId)
    ensures ExtractTaskId(DispatchPayload(structured, taskId)) == taskId
    ensures Executor.ExtractTaskId(Handle(DispatchPayload(structured, taskId)).payload) == taskId
    ensures Bus.AgentTag(Reply(DispatchPayload(structured, taskId))) == Str(AgentName)
  {
  }
}
