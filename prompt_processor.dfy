/**
  The prompt processor: it reads the user's prompt from an envelope, has it classified
  into a structured record (OP_CODE, UserContext, ProcessContext), stamps the record with
  the task id and the whole received message, and publishes it to the executor. When the
  classification fails in any way it publishes a fixed fallback record instead. The
  classifier (a chat completion followed by `json.loads`) is a parameter.
 */
module PromptProcessor {
  import opened Json
  import opened Envelope
  import opened Bus
  import Executor

  const DescriptionKey := "task_description"
  const Placeholder := "No task description provided"

  /** What the classifier produced: a decoded JSON document, or a failure of the call or of the decoding. */
  datatype Classification = Parsed(doc: Value) | Failed

  /** The characters Python's `str.strip()` removes. */
  predicate PyWhitespace(c: char)
  {
    || c == ' ' || '\t' <= c <= '\r' || '\U{1C}' <= c <= '\U{1F}'
    || c == '\U{85}' || c == '\U{A0}' || c == '\U{1680}' || '\U{2000}' <= c <= '\U{200A}'
    || c == '\U{2028}' || c == '\U{2029}' || c == '\U{202F}' || c == '\U{205F}' || c == '\U{3000}'
  }

  /** `not s.strip()`. */
  predicate Blank(s: string)
  {
    forall i :: 0 <= i < |s| ==> PyWhitespace(s[i])
  }

  /** The prompt or-chain over three levels, with "" as the fallback; it runs outside the `try`. */
  function ExtractPrompt(task: Value): Result<Value>
  {
    OrChain(task, DescriptionKey, 2, Str(""))
  }

  /**
    The text handed to the classifier: the extracted prompt, or the placeholder when it
    is blank. A prompt that is not a string raises at `.strip()`.
   */
  function PromptSent(task: Value): Result<string>
  {
    match ExtractPrompt(task)
    case Err(e) => Err(e)
    case Ok(p) =>
      if !p.Str? then Err(AttributeError)
      else if Blank(p.s) then Ok(Placeholder)
      else Ok(p.s)
  }

  /** The record published when classification fails: only the top-level id is kept. */
  function Fallback(task: map<string, Value>): Value
  {
    Obj(map[
      TaskIdKey := GetOr(task, TaskIdKey, Null),
      "OP_CODE" := Str("UNKNOWN"),
      "UserContext" := EmptyObj,
      "ProcessContext" := EmptyObj,
      OriginalKey := Obj(task)])
  }

  /**
    The record built inside the `try`: a decoded dict gets the first truthy id of the
    three levels (else `None`) and the whole received message; a decoded value that is
    not a dict, a failed id lookup, or a failed classification gives the fallback.
   */
  function Record(task: map<string, Value>, c: Classification): Value
  {
    if c.Parsed? && c.doc.Obj? then
      match OrChain(Obj(task), TaskIdKey, 2, Null)
      case Ok(tid) => Obj(c.doc.fields[TaskIdKey := tid][OriginalKey := Obj(task)])
      case Err(_) => Fallback(task)
    else Fallback(task)
  }

  /**
    `prompt_processor_handler` as one step: the message it publishes, or the exception it
    raises. Whatever the classifier returns, the published record gives the executor the
    id of the message received.
   */
  function Handle(task: Value, classify: string -> Classification): (r: Result<Message>)
    ensures r.Ok? ==> task.Obj? && Executor.ExtractTaskId(r.value.payload) == Executor.ExtractTaskId(task)
  {
    match PromptSent(task)
    case Err(e) => Err(e)
    case Ok(p) =>
      RecordKeepsExecutorId(task.fields, classify(p));
      Ok(Message(ExecutorTopic, Record(task.fields, classify(p))))
  }

  /** `prompt_processor_handler`, step by step. */
  method HandleTask(task: Value, classify: string -> Classification) returns (r: Result<Message>)
    ensures r == Handle(task, classify)
  {
    if !task.Obj? {
      return Err(AttributeError);
    }
    var prompt := ExtractPrompt(task);
    if prompt.Err? {
      return Err(prompt.error);
    }
    if !prompt.value.Str? {
      return Err(AttributeError);
    }
    var userPrompt := prompt.value.s;
    if Blank(userPrompt) {
      userPrompt := Placeholder;
    }
    var structured: Value;
    var c := classify(userPrompt);
    var taskId := OrChain(task, TaskIdKey, 2, Null);
    if c.Parsed? && c.doc.Obj? && taskId.Ok? {
      var fields := c.doc.fields;
      fields := fields[TaskIdKey := taskId.value];
      fields := fields[OriginalKey := task];
      structured := Obj(fields);
    } else {
      structured := Fallback(task.fields);
    }
    r := Ok(Message(ExecutorTopic, structured));
  }

  /** The prompt is the first truthy description among the first three envelope levels, else "". */
  lemma PromptIsFirstTruthy(task: Value)
    requires task.Obj?
    ensures ExtractPrompt(task).Ok? ==>
              ExtractPrompt(task).value == FirstTruthy(Take(Levels(task), 3), DescriptionKey, Str(""))
  {
    OrChainIsFirstTruthy(task, DescriptionKey, 2, Str(""));
  }

  /**
    The classifier never receives a blank text: it gets the extracted prompt unchanged
    when that has visible characters, and the placeholder otherwise.
   */
  lemma ClassifierNeverSeesBlank(task: Value)
    ensures PromptSent(task).Ok? ==> !Blank(PromptSent(task).value)
    ensures PromptSent(task).Ok? ==>
              PromptSent(task).value == Placeholder || ExtractPrompt(task) == Ok(Str(PromptSent(task).value))
    ensures ExtractPrompt(task).Ok? && ExtractPrompt(task).value.Str? && !Blank(ExtractPrompt(task).value.s) ==>
              PromptSent(task) == Ok(ExtractPrompt(task).value.s)
  {
    assert !PyWhitespace(Placeholder[0]);
  }

  /**
    Exactly one record is published to the executor for every message whose prompt could
    be read, whichever branch built it, and it always carries the whole received message.
   */
  lemma OneRecordPerMessage(task: Value, classify: string -> Classification)
    ensures Handle(task, classify).Ok? <==> PromptSent(task).Ok?
    ensures Handle(task, classify).Ok? ==>
              && Handle(task, classify).value.topic == ExecutorTopic
              && Handle(task, classify).value.payload.Obj?
              && Handle(task, classify).value.payload.fields[OriginalKey] == task
    ensures !task.Obj? ==> Handle(task, classify) == Err(AttributeError)
  {
  }

  /**
    A failed classification, one that decodes to something other than a dict, or an id
    lookup that raises on a non-dict "original_task_data" yields the fallback: OP_CODE
    "UNKNOWN", empty contexts, the top-level id only.
   */
  lemma FailureGivesFallback(task: map<string, Value>, c: Classification)
    requires !(c.Parsed? && c.doc.Obj? && OrChain(Obj(task), TaskIdKey, 2, Null).Ok?)
    ensures var r := Record(task, c);
            && r.Obj? && r.fields.Keys == {TaskIdKey, "OP_CODE", "UserContext", "ProcessContext", OriginalKey}
            && r.fields["OP_CODE"] == Str("UNKNOWN")
            && r.fields["UserContext"] == EmptyObj && r.fields["ProcessContext"] == EmptyObj
            && r.fields[TaskIdKey] == (if TaskIdKey in task then task[TaskIdKey] else Null)
  {
  }

  /**
    A successful classification keeps every classified field except the two it
    overwrites; its id is the first truthy id among the first three levels, else `None`.
   */
  lemma SuccessKeepsClassification(task: map<string, Value>, doc: map<string, Value>)
    requires OrChain(Obj(task), TaskIdKey, 2, Null).Ok?
    ensures var r := Record(task, Parsed(Obj(doc)));
            && r.Obj?
            && r.fields.Keys == doc.Keys + {TaskIdKey, OriginalKey}
            && (forall k :: k in doc && k != TaskIdKey && k != OriginalKey ==> r.fields[k] == doc[k])
            && r.fields[TaskIdKey] == FirstTruthy(Take(Levels(Obj(task)), 3), TaskIdKey, Null)
  {
    OrChainIsFirstTruthy(Obj(task), TaskIdKey, 2, Null);
  }

  /**
    Whatever branch ran, the executor extracts from the record the same id it would
    extract from the received message: the record's own id is either that id or falsy,
    and the message itself sits under "original_task_data".
   */
  lemma RecordKeepsExecutorId(task: map<string, Value>, c: Classification)
    ensures Executor.ExtractTaskId(Record(task, c)) == Executor.ExtractTaskId(Obj(task))
  {
    var r := Record(task, c);
    var chain := OrChain(Obj(task), TaskIdKey, 2, Null);
    if c.Parsed? && c.doc.Obj? && chain.Ok? {
      var tid := chain.value;
      assert r.fields[TaskIdKey] == tid && r.fields[OriginalKey] == Obj(task);
      if Truthy(tid) {
        var ls := Levels(Obj(task));
        OrChainIsFirstTruthy(Obj(task), TaskIdKey, 2, Null);
        FirstTruthyOfPrefix(ls, 3, TaskIdKey, NoId);
        Executor.ExtractIsFirstTruthy(Obj(task));
      }
    }
  }
}
