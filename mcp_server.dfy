/**
  The MCP gateway's `recommend_stocks` tool: it draws a task id "task-NNNN", publishes a
  request for the captain, waits on the final-results topic for the reply with that id
  and turns every outcome into a result for the tool caller: the reply, a timeout
  message, a connection message or an error message. The random draw is a
  nondeterministic choice; what the bus does (connect, subscribe, publish) and the
  deliveries on the final-results topic are parameters.
 */
module McpServer {
  import opened Json
  import opened Envelope
  import opened Bus
  import opened Correlation

  const IdPrefix := "task-"
  // Each fixed message is split after its first word.
  const TimeoutText := "\U{23F3} Timeout:" + " No response received from CrewAI system. Please check that all agents are running."
  const NoServerText := "\U{274C} Could" + " not connect to NATS server. Is it running on localhost:4222?"
  const ErrorPrefix := "\U{274C} Error occurred: "
  const InternalPrefix := "\U{274C} Internal error: "

  /** How the bus calls before the wait went: all fine, a connection-class error, or another exception. */
  datatype BusOutcome = Reachable | ConnectionError | OtherError(message: string)

  /**
    What the tool returns. A recommendation is rendered as "✅ Recommendation:" followed
    by the reply pretty-printed as JSON; the rendering is not part of this model.
   */
  datatype ToolReply = Recommendation(result: Value) | Text(text: string)

  function DigitChar(d: nat): char
    requires d < 10
  {
    ('0' as int + d) as char
  }

  /** The decimal digits of `n`, as `str(n)` writes them. */
  function Decimal(n: nat): (s: string)
    ensures |s| >= 1
    ensures forall i :: 0 <= i < |s| ==> '0' <= s[i] <= '9'
  {
    if n < 10 then [DigitChar(n)] else Decimal(n / 10) + [DigitChar(n % 10)]
  }

  /** The number a string of decimal digits denotes. */
  function ParseDecimal(s: string): nat
    requires forall i :: 0 <= i < |s| ==> '0' <= s[i] <= '9'
  {
    if s == [] then 0 else ParseDecimal(s[..|s| - 1]) * 10 + (s[|s| - 1] as int - '0' as int)
  }

  /** Reading back the digits gives the number. */
  lemma {:induction false} DecimalRoundTrip(n: nat)
    ensures ParseDecimal(Decimal(n)) == n
  {
    if n >= 10 {
      var s := Decimal(n);
      assert s[..|s| - 1] == Decimal(n / 10);
      DecimalRoundTrip(n / 10);
    }
  }

  /** Numbers from 1000 to 9999 have exactly four digits. */
  lemma FourDigits(n: nat)
    requires 1000 <= n <= 9999
    ensures |Decimal(n)| == 4
  {
    assert |Decimal(n / 1000)| == 1;
    assert |Decimal(n / 100)| == |Decimal(n / 100 / 10)| + 1 && n / 100 / 10 == n / 1000;
    assert |Decimal(n / 10)| == |Decimal(n / 10 / 10)| + 1 && n / 10 / 10 == n / 100;
  }

  function TaskIdOf(n: nat): string
  {
    IdPrefix + Decimal(n)
  }

  /** The number inside a "task-" id, if the rest is all digits. */
  function ParseTaskId(s: string): Option<nat>
  {
    if |s| > |IdPrefix| && s[..|IdPrefix|] == IdPrefix && (forall i :: |IdPrefix| <= i < |s| ==> '0' <= s[i] <= '9')
    then Some(ParseDecimal(s[|IdPrefix|..]))
    else None
  }

  /**
    Every drawn id reads back as its number, so ids drawn from different numbers differ;
    two draws of the same number (the draw has 9000 outcomes) give the same id.
   */
  lemma TaskIdRoundTrip(n: nat)
    ensures ParseTaskId(TaskIdOf(n)) == Some(n)
  {
    var s := TaskIdOf(n);
    assert s[|IdPrefix|..] == Decimal(n);
    DecimalRoundTrip(n);
  }

  /** `generate_task_id`: "task-" and a number drawn from 1000 to 9999. */
  method GenerateTaskId() returns (id: string)
    ensures exists n :: 1000 <= n <= 9999 && id == TaskIdOf(n)
    ensures |id| == 9 && id[..5] == IdPrefix
  {
    assert 1000 <= 1000 <= 9999;
    var n: nat :| 1000 <= n <= 9999;
    FourDigits(n);
    id := IdPrefix + Decimal(n);
    assert id[..5] == IdPrefix && id == TaskIdOf(n);
  }

  /** The result of `send_to_captain_and_wait` for each outcome of the bus calls and the wait. */
  function SendResult(taskId: string, bus: BusOutcome, ds: seq<Delivery>): ToolReply
  {
    match bus
    case ConnectionError => Text(NoServerText)
    case OtherError(message) => Text(ErrorPrefix + message)
    case Reachable =>
      match Await(ds, taskId)
      case Some(result) => Recommendation(result)
      case None => Text(TimeoutText)
  }

  predicate IsInternalError(r: ToolReply)
  {
    r.Text? && |r.text| >= |InternalPrefix| && r.text[..|InternalPrefix|] == InternalPrefix
  }

  /**
    Every failure inside `send_to_captain_and_wait` is already mapped to a message, so the
    "Internal error" branch of the tool is never taken; each message tells its cause apart.
   */
  lemma SendNeverInternalError(taskId: string, bus: BusOutcome, ds: seq<Delivery>)
    ensures !IsInternalError(SendResult(taskId, bus, ds))
    ensures SendResult(taskId, bus, ds).Recommendation? <==> bus.Reachable? && Await(ds, taskId).Some?
    ensures SendResult(taskId, bus, ds) == Text(TimeoutText) <==> bus.Reachable? && Await(ds, taskId).None?
    ensures SendResult(taskId, bus, ds) == Text(NoServerText) <==> bus.ConnectionError?
  {
    var r := SendResult(taskId, bus, ds);
    assert InternalPrefix[2] != ErrorPrefix[2] && InternalPrefix[2] != TimeoutText[2] && InternalPrefix[2] != NoServerText[2];
    if bus.OtherError? {
      assert (ErrorPrefix + bus.message)[2] == ErrorPrefix[2];
      assert (ErrorPrefix + bus.message)[..2] == ErrorPrefix[..2];
      assert (ErrorPrefix + bus.message) != TimeoutText by {
        assert TimeoutText[0] != ErrorPrefix[0];
      }
      assert (ErrorPrefix + bus.message) != NoServerText by {
        assert NoServerText[2] != ErrorPrefix[2];
      }
    }
    assert TimeoutText != NoServerText by {
      assert TimeoutText[0] != NoServerText[0];
    }
  }

  /** A recommendation is always the reply whose id is the drawn id. */
  lemma RecommendationMatchesId(taskId: string, bus: BusOutcome, ds: seq<Delivery>)
    requires SendResult(taskId, bus, ds).Recommendation?
    ensures exists i :: 0 <= i < |ds| && InTime(ds, i) && Matches(ds[i], taskId)
                        && SendResult(taskId, bus, ds).result == ds[i].body.value
  {
    AwaitIsFirstInTimeMatch(ds, taskId);
  }

  /**
    The gateway process: what it has published and how many result subscriptions it has
    opened. Neither the subscription nor the connection is ever closed.
   */
  class Gateway {
    var published: seq<Message>
    var openSubscriptions: nat

    constructor ()
      ensures published == [] && openSubscriptions == 0
    {
      published := [];
      openSubscriptions := 0;
    }

    /** `send_to_captain_and_wait`. */
    method SendToCaptainAndWait(prompt: string, taskId: string, bus: BusOutcome, ds: seq<Delivery>) returns (reply: ToolReply)
      modifies this
      ensures reply == SendResult(taskId, bus, ds)
      ensures published == old(published) + (if bus.Reachable? then [Message(CaptainTopic, Request(taskId, prompt))] else [])
      ensures openSubscriptions == old(openSubscriptions) + (if bus.Reachable? then 1 else 0)
    {
      var taskData := Request(taskId, prompt);
      match bus {
        case ConnectionError =>
          return Text(NoServerText);
        case OtherError(message) =>
          return Text(ErrorPrefix + message);
        case Reachable =>
      }
      openSubscriptions := openSubscriptions + 1;
      published := published + [Message(CaptainTopic, taskData)];
      var result := AwaitResult(ds, taskId);
      if result.Some? {
        return Recommendation(result.value);
      }
      reply := Text(TimeoutText);
    }

    /** `recommend_stocks`: draw an id, send, and map any escaping exception to an internal-error message. */
    method RecommendStocks(prompt: string, bus: BusOutcome, ds: seq<Delivery>) returns (reply: ToolReply)
      modifies this
      ensures exists n :: 1000 <= n <= 9999 && reply == SendResult(TaskIdOf(n), bus, ds)
                          && published == old(published) + (if bus.Reachable? then [Message(CaptainTopic, Request(TaskIdOf(n), prompt))] else [])
      ensures openSubscriptions == old(openSubscriptions) + (if bus.Reachable? then 1 else 0)
      ensures !IsInternalError(reply)
    {
      var taskId := GenerateTaskId();
      ghost var n :| 1000 <= n <= 9999 && taskId == TaskIdOf(n);
      reply := SendToCaptainAndWait(prompt, taskId, bus, ds);
      SendNeverInternalError(taskId, bus, ds);
    }
  }
}
