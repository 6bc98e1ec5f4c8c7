/**
  How the stages fit together for one client request: the client publishes the request,
  the captain hands it to the prompt processor (the deployed captain forwards it as it is,
  the captain script under tests/, tests/captain_agent.py, wraps it under
  "original_task_data"), the prompt processor builds a
  record that holds the message it received, the executor extracts the id from that
  record, and the client recognises the executor's final result by that id.
 */
module Pipeline {
  import opened Json
  import opened Envelope
  import opened Bus
  import Executor
  import LegacyExecutor
  import PromptProcessor
  import Correlation

  /** The wrapping of the captain script under tests/ does not change the id the executor extracts. */
  lemma WrapKeepsId(task: Value)
    ensures Executor.ExtractTaskId(Wrap(task)) == Executor.ExtractTaskId(task)
  {
    assert TaskIdKey !in Wrap(task).fields;
  }

  /**
    Whatever the classifier does, and whether the captain forwards the request as it is
    or wraps it, the executor tracks a client request under the client's own id, and the
    final result it publishes for that id is the one the client's result handler accepts.
   */
  lemma ClientIdSurvivesPipeline(id: string, description: string, c: PromptProcessor.Classification,
                                 replies: seq<Value>, at: nat)
    requires id != ""
    ensures var record := PromptProcessor.Record(Correlation.Request(id, description).fields, c);
            Executor.ExtractTaskId(record) == Str(id)
    ensures var record := PromptProcessor.Record(Wrap(Correlation.Request(id, description)).fields, c);
            Executor.ExtractTaskId(record) == Str(id)
    ensures Correlation.Matches(Correlation.Delivery(at, Some(FinalResult(Str(id), replies))), id)
  {
    var request := Correlation.Request(id, description);
    PromptProcessor.RecordKeepsExecutorId(request.fields, c);
    PromptProcessor.RecordKeepsExecutorId(Wrap(request).fields, c);
    WrapKeepsId(request);
  }

  /**
    On the deployed path, where the captain forwards the request as it is, the older
    executor finds both the description and the id one level down in the record.
   */
  lemma LegacyExecutorReadsForwardedRequest(id: string, description: string, c: PromptProcessor.Classification)
    ensures var record := PromptProcessor.Record(Correlation.Request(id, description).fields, c);
            LegacyExecutor.ReadTask(record) == Ok((Str(description), Str(id)))
  {
    var request := Correlation.Request(id, description);
    var record := PromptProcessor.Record(request.fields, c);
    assert record.fields[OriginalKey] == request;
  }

  /**
    The older executor reads the id and the query text one level down only, which in a
    record built under the wrapping of the captain script under tests/ is that wrapper: it finds neither,
    queries "N/A" and tracks the request under "no-id".
   */
  lemma LegacyExecutorMissesWrappedId(id: string, description: string, c: PromptProcessor.Classification)
    ensures var record := PromptProcessor.Record(Wrap(Correlation.Request(id, description)).fields, c);
            LegacyExecutor.ReadTask(record) == Ok((Str("N/A"), NoId))
  {
    var wrapped := Wrap(Correlation.Request(id, description));
    var record := PromptProcessor.Record(wrapped.fields, c);
    assert record.fields[OriginalKey] == wrapped;
  }

  /**
    The test suite starts the deployed captain, which forwards the request as it is, yet
    its forwarding test looks for the description under "original_task_data" in what
    reaches the prompt processor. A forwarded request has no such key, so that test's
    check does not hold for the deployed captain; only the wrapping script's output
    satisfies it.
   */
  lemma ForwardingTestExpectsWrap(id: string, description: string)
    ensures var forwarded := Correlation.Request(id, description);
            GetOr(forwarded.fields, OriginalKey, EmptyObj) == EmptyObj
    ensures var wrapped := Wrap(Correlation.Request(id, description));
            && GetOr(wrapped.fields, OriginalKey, EmptyObj).Obj?
            && "task_description" in GetOr(wrapped.fields, OriginalKey, EmptyObj).fields
  {
  }
}
