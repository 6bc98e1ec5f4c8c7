# Stock-recommendation agent crew: fan-out, aggregation and reply correlation

This project models the task flow of a multi-agent stock-recommendation system whose
stages talk over a publish/subscribe bus (NATS), and proves properties of that model.

- A client publishes a request. The client is the HTTP backend (`/start-task`) or the MCP
  gateway (`recommend_stocks`). The request carries a task id: a UUID from the backend, a
  random "task-NNNN" (NNNN from 1000 to 9999) from the gateway.
- The captain passes the request on to the prompt processor. The deployed captain,
  which the test suite also starts, forwards it as it is. The standalone captain script
  under tests/ (`tests/captain_agent.py`) wraps it under `"original_task_data"`, the
  shape the suite's forwarding test expects. Both paths are modelled.
- The prompt processor has it classified into a structured record (`OP_CODE`,
  `UserContext`, `ProcessContext`). It stamps the record with the task id and the whole
  received message.
- The executor fans the record out to a fixed list of three workers. It collects their
  replies per task id in two dictionaries (`tasks_responses`, `tasks_expected_count`),
  dropping replies whose `"agent"` tag it already holds. It publishes one aggregated
  final result once the expected count is reached.
- The client waits up to 60 time units for the final result that carries its id.

Also modelled:

- the older, registry-driven executor, which selects workers through a vector-store query;
- the price-predictor worker;
- the captain's in-memory agent registry with its simulated vector search.

Modules, one per source file or shared concept:

- `Json`: decoded JSON values, Python truthiness, `dict.get` and hashability. Python
  exceptions are `Result` errors.
- `Envelope`: the `"original_task_data"` chain and the Python or-chain lookup
  (`d.get(k) or d.get("original_task_data", {}).get(k) or ... or fallback`). Both are
  compared against one reference definition, "the first truthy value along the chain".
- `Bus`: topics, the dispatch and final-result records, and the tracking state.
- `Executor` and `LegacyExecutor`: each handler invocation is a pure function from the
  tracking state to a `Step` (new state, messages published, whether it raised).
  - A class (`ExecutorAgent`, `RegistryExecutor`) holds the two dictionaries and the
    published messages as fields.
  - Its handler methods update them step by step. Each is proved to do exactly what the
    step function says.
  - The properties are lemmas about the step functions and about `Run`, a sequence of
    deliveries.
- `PricePredictor` and `PromptProcessor`: the worker and the classifier stage. The
  classifier (a chat completion and `json.loads`) is a function parameter.
- `Correlation`: the client-side single-slot future and the 60-unit wait, shared by
  `Backend` and `McpServer`. Deliveries on the final-results topic are a sequence with
  arrival times.
- `CaptainRegistry`: the registry class. Random draws are nondeterministic choices.
- `Pipeline`: lemmas about how the stages compose for one client request.

Where the code departs from the behaviour one would expect of this design (an idempotent
fan-out, tracking that is released when a client gives up, a task that completes once its
workers have answered), the model follows the code:

- A redelivered task is dispatched to all three workers again, so the fan-out is not
  idempotent. Only its tracking is left untouched (`Executor.RedeliveryKeepsTracking`).
- No tracking entry is ever evicted when the client times out.
- A reply that arrives before its task's fan-out is stored. It leaves the id with replies
  but no expected count, and that task can then never complete (`Executor.BlockedForever`).
- The older executor resets tracking on every fan-out and does not deduplicate replies
  (`LegacyExecutor.FanOutResets`, `LegacyExecutor.DuplicateReplyCompletes`).

## Model

| member | source | states |
|---|---|---|
| Envelope.OrChainIsFirstTruthy | src/latest_ai_development/tools/sub_agents/price_predictor_agent.py:10-15 | The or-chain over `depth + 1` levels returns the first truthy value among the first `depth + 1` envelope levels, or the fallback. When it raises, the reference over those levels yields the fallback. |
| Envelope.OrChainRaisesOnlyWithoutTruthy | src/latest_ai_development/tools/sub_agents/price_predictor_agent.py:10-15 | When the or-chain raises, none of the levels it read held a truthy value under the key. |
| Envelope.OrChainTruthy | src/latest_ai_development/tools/sub_agents/price_predictor_agent.py:10-15 | An or-chain only ever returns a truthy value or its fallback. |
| Executor.ExtractTaskId | src/latest_ai_development/tools/agent_registry/executor_subagent.py:13-25 | Extraction is total: it never returns a falsy id, and anything that is not a dict gives "no-id". Recursion descends only into the nested dict, so it terminates. |
| Executor.ExtractIsFirstTruthy | src/latest_ai_development/tools/agent_registry/executor_subagent.py:13-25 | The extracted id is the first truthy "task_id" along the whole envelope chain, else "no-id". A truthy top-level id is therefore returned unchanged. |
| Executor.FanOutFresh | src/latest_ai_development/tools/agent_registry/executor_subagent.py:45-59 | A task whose id has no reply list gets an empty list, an expected count of 3, and one dispatch per worker. |
| Executor.RedeliveryKeepsTracking | src/latest_ai_development/tools/agent_registry/executor_subagent.py:45-59 | A redelivered task leaves the tracking unchanged, yet all three dispatches are published again. |
| Executor.OnTaskKeepsInv | src/latest_ai_development/tools/agent_registry/executor_subagent.py:35-60 | The task handler keeps the tracking invariant: counts sit beside lists, equal 3 and are not yet reached; stored replies are dicts under their own id with distinct agent tags. |
| Executor.OnReplyKeepsInv | src/latest_ai_development/tools/agent_registry/executor_subagent.py:62-89 | The reply handler keeps the same invariant. Deduplication by agent tag keeps the tags distinct. |
| Executor.DuplicateReplyIsNoOp | src/latest_ai_development/tools/agent_registry/executor_subagent.py:72-75 | A reply whose agent tag is already stored for its id changes nothing and publishes nothing. |
| Executor.ReplyAppends | src/latest_ai_development/tools/agent_registry/executor_subagent.py:72-79 | A reply with a new tag that does not reach the count is appended at the end of its id's list. |
| Executor.ReplyCompletes | src/latest_ai_development/tools/agent_registry/executor_subagent.py:77-89 | A reply with a new tag that reaches a positive count publishes the final result with the stored replies plus this one. Both tracking entries are removed. |
| Executor.CompletionIsExact | src/latest_ai_development/tools/agent_registry/executor_subagent.py:77-89 | A final result is published only for the reply's own id. It holds exactly the expected number (3) of replies, in arrival order, with pairwise-distinct agent tags, and the id's tracking is gone. |
| Executor.ReplyBeforeFanOutBlocks | src/latest_ai_development/tools/agent_registry/executor_subagent.py:69-79 | A reply for an untracked id is stored as that id's only reply, without an expected count, and publishes nothing. |
| Executor.BlockedStep | src/latest_ai_development/tools/agent_registry/executor_subagent.py:35-89 | Any delivery keeps an id that has replies but no count in that state, and publishes no final result for it. |
| Executor.BlockedForever | src/latest_ai_development/tools/agent_registry/executor_subagent.py:35-89 | Once an id has replies but no count, no sequence of later deliveries ever completes it. |
| Executor.FanOutThenThreeReplies | src/latest_ai_development/tools/agent_registry/executor_subagent.py:35-89 | A fresh task followed by replies from three distinct tags publishes the three dispatches and then exactly one final result. That result holds the replies in arrival order, and the tracking returns to its start. |
| Executor.ExecTestScenario | tests/test_suite.py:158-191 | In the executor test, the fourth message published is the final result for "exec-test-001" with the three dummy replies, and no tracking is left. |
| Executor.ExecutorAgent.constructor | src/latest_ai_development/tools/agent_registry/executor_subagent.py:32-33 | The executor starts with empty tracking dictionaries, which satisfy the invariant. |
| Executor.ExecutorAgent.HandleTask | src/latest_ai_development/tools/agent_registry/executor_subagent.py:35-60 | The dictionaries and the published messages change exactly as the task step says, and the invariant is kept. |
| Executor.ExecutorAgent.HandleReply | src/latest_ai_development/tools/agent_registry/executor_subagent.py:62-89 | The dictionaries and the published messages change exactly as the reply step says, and the invariant is kept. |
| Executor.OnTask | src/latest_ai_development/tools/agent_registry/executor_subagent.py:35-60 | The task step touches the tracking of the task's own id only. A raised exception publishes nothing; otherwise one dispatch per worker is published. |
| Executor.OnReply | src/latest_ai_development/tools/agent_registry/executor_subagent.py:62-89 | The reply step touches the tracking of the reply's own id only and never sets or changes an expected count. It publishes at most one message, the final result for that id. |
| Executor.FanOut | src/latest_ai_development/tools/agent_registry/executor_subagent.py:50-59 | The publishing loop produces one dispatch per worker of the static list, in list order, each with the settled id and the defaulted classification fields. |
| Executor.FindAgent | src/latest_ai_development/tools/agent_registry/executor_subagent.py:74 | The duplicate scan reports a match exactly when some stored reply carries the agent tag. |
| LegacyExecutor.SearchBestAgent | src/latest_ai_development/tools/agent_registry/agent_registry.py:47-61 | The best agent is the head of the top agents. The search gives `None` exactly without rows and raises `IndexError` exactly on an empty first row. |
| LegacyExecutor.LegacyDispatches | src/latest_ai_development/tools/agent_registry/agent_registry.py:104-115 | There is one dispatch per selected worker, in selection order, to "agent." + id. |
| LegacyExecutor.EmptySelectionReportsError | src/latest_ai_development/tools/agent_registry/agent_registry.py:93-98 | An empty selection publishes exactly one error record for the task and leaves the tracking unchanged. |
| LegacyExecutor.FanOutResets | src/latest_ai_development/tools/agent_registry/agent_registry.py:100-115 | A non-empty selection overwrites the id's tracking with an empty list and the selection size, and leaves every other id alone. It sends one dispatch per worker, each carrying the id. |
| LegacyExecutor.TopLevelIdIgnored | src/latest_ai_development/tools/agent_registry/agent_registry.py:89-90 | The id and the query are read one level down only: a top-level id is tracked as "no-id", while the current executor finds it. |
| LegacyExecutor.OnTaskKeepsInv | src/latest_ai_development/tools/agent_registry/agent_registry.py:84-115 | The task handler keeps the invariant: counts sit beside lists, are positive and are not yet reached, and stored replies are dicts under their own id. |
| LegacyExecutor.OnReplyKeepsInv | src/latest_ai_development/tools/agent_registry/agent_registry.py:117-143 | The reply handler keeps the same invariant. |
| LegacyExecutor.EveryReplyAppended | src/latest_ai_development/tools/agent_registry/agent_registry.py:127-129 | Below the expected count, every reply is appended, whatever its agent tag. |
| LegacyExecutor.CompletionAtExactCount | src/latest_ai_development/tools/agent_registry/agent_registry.py:131-143 | A final result is published only for the reply's own id, and only when the stored replies plus this one equal the count. Both entries are removed. |
| LegacyExecutor.ExactCountCompletes | src/latest_ai_development/tools/agent_registry/agent_registry.py:131-143 | A reply for a tracked id that brings the stored replies to exactly the count publishes the final result with them in arrival order, and removes both entries. |
| LegacyExecutor.UntrackedReplyRaises | src/latest_ai_development/tools/agent_registry/agent_registry.py:127-132 | A reply for an id without a count raises `KeyError`, publishes nothing, and stays stored as the last reply. |
| LegacyExecutor.DuplicateReplyCompletes | src/latest_ai_development/tools/agent_registry/agent_registry.py:122-143 | The same worker answering twice completes a two-worker task, with the one reply held twice. |
| LegacyExecutor.OnTask | src/latest_ai_development/tools/agent_registry/agent_registry.py:84-115 | A raised exception leaves the tracking unchanged and publishes nothing. Otherwise the client gets an error record or the workers get dispatches. Only the tracking of the id read from the task changes. |
| LegacyExecutor.OnReply | src/latest_ai_development/tools/agent_registry/agent_registry.py:117-143 | A reply that is not a dict raises and changes nothing. Otherwise only the tracking of the reply's own id changes, no expected count is set or changed, and at most the final result for that id is published. |
| LegacyExecutor.FanOut | src/latest_ai_development/tools/agent_registry/agent_registry.py:105-115 | The publishing loop produces one dispatch per selected worker, in selection order. |
| LegacyExecutor.RegistryExecutor.constructor | src/latest_ai_development/tools/agent_registry/agent_registry.py:81-82 | The executor starts with empty tracking dictionaries. |
| LegacyExecutor.RegistryExecutor.HandleTask | src/latest_ai_development/tools/agent_registry/agent_registry.py:84-115 | The state and the published messages change exactly as the task step says, and the invariant is kept. |
| LegacyExecutor.RegistryExecutor.HandleReply | src/latest_ai_development/tools/agent_registry/agent_registry.py:117-143 | The state and the published messages change exactly as the reply step says, and the invariant is kept. |
| PricePredictor.ExtractTaskId | src/latest_ai_development/tools/sub_agents/price_predictor_agent.py:8-17 | The worker's id is always truthy: a lookup failure is caught and gives "no-id". |
| PricePredictor.IsFirstTruthyOfThree | src/latest_ai_development/tools/sub_agents/price_predictor_agent.py:8-17 | The worker's id is the first truthy id among the first three envelope levels, else "no-id". |
| PricePredictor.AgreesWithExecutorWhenShallow | src/latest_ai_development/tools/sub_agents/price_predictor_agent.py:8-17 | On envelopes at most three levels deep, the worker and the executor extract the same id. |
| PricePredictor.AgreesWithExecutorWhenFound | src/latest_ai_development/tools/sub_agents/price_predictor_agent.py:8-17 | When the worker finds an id, it is the executor's id too, however deep the envelope. |
| PricePredictor.MissesDepthThree | src/latest_ai_development/tools/sub_agents/price_predictor_agent.py:10-14 | An id three wrappings down gives "no-id" in the worker but is found by the executor. |
| PricePredictor.BadEnvelopeYieldsNoId | src/latest_ai_development/tools/sub_agents/price_predictor_agent.py:16-17 | A non-dict "original_task_data" beneath a falsy top-level id gives "no-id" instead of raising. |
| PricePredictor.ReplyCarriesDispatchId | src/latest_ai_development/tools/sub_agents/price_predictor_agent.py:23-35 | A reply to an executor dispatch carries the dispatch's id, where the executor finds it, and the tag "PricePredictorAgent". |
| PromptProcessor.Handle | src/latest_ai_development/tools/captain/prompt_processor_subagent.py:19-102 | Whatever the classifier returns, a published record gives the executor the id of the message received, and only a dict message gets a record. |
| PromptProcessor.HandleTask | src/latest_ai_development/tools/captain/prompt_processor_subagent.py:19-102 | The handler publishes exactly the record that the specification function `Handle` describes, or raises what it raises. |
| PromptProcessor.PromptIsFirstTruthy | src/latest_ai_development/tools/captain/prompt_processor_subagent.py:23-28 | The prompt is the first truthy description among the first three levels, else "". |
| PromptProcessor.ClassifierNeverSeesBlank | src/latest_ai_development/tools/captain/prompt_processor_subagent.py:32-34 | The classifier never receives a blank text. It gets the prompt unchanged when the prompt has visible characters, and the placeholder otherwise. |
| PromptProcessor.OneRecordPerMessage | src/latest_ai_development/tools/captain/prompt_processor_subagent.py:36-102 | Exactly one record goes to "agent.executor" whenever the prompt could be read. It always holds the whole received message, and a non-dict message raises `AttributeError`. |
| PromptProcessor.FailureGivesFallback | src/latest_ai_development/tools/captain/prompt_processor_subagent.py:73-100 | A failed or non-dict classification, or an id lookup that raises, yields the fallback record: "UNKNOWN", empty contexts, and the top-level id or `None`. |
| PromptProcessor.SuccessKeepsClassification | src/latest_ai_development/tools/captain/prompt_processor_subagent.py:70-81 | A successful classification keeps every classified field except the two it overwrites. Its id is the first truthy id among three levels, else `None`. |
| PromptProcessor.RecordKeepsExecutorId | src/latest_ai_development/tools/captain/prompt_processor_subagent.py:73-81 | Whatever branch built the record, the executor extracts from it the same id it would extract from the received message. |
| Correlation.IncomingIdIsFirstTruthy | crewai-backend/main.py:110-114 | The client reads the first truthy id among two levels, else "no-id". |
| Correlation.ReplyFuture.constructor | crewai-backend/main.py:105 | The future starts pending. |
| Correlation.ReplyFuture.Deliver | crewai-backend/main.py:107-118 | A matching delivery resolves a pending future. Anything else, including a resolved future, an undecodable body or a failed lookup, leaves it unchanged. |
| Correlation.Await | crewai-backend/main.py:107-127 | A resolved wait always carries the request's own id, as the result handler reads it. |
| Correlation.AwaitResult | crewai-backend/main.py:123-124 | The wait returns exactly what the specification function `Await` gives. |
| Correlation.AwaitIsFirstInTimeMatch | crewai-backend/main.py:115-127 | The wait resolves exactly when some in-time delivery matches, and then with the earliest one; otherwise it times out. |
| Correlation.FirstMatchWins | crewai-backend/main.py:115-116 | Deliveries after the first match cannot change the outcome. |
| Backend.RequestCarriesId | crewai-backend/main.py:98-103 | The request carries its id where the result handler looks for it. |
| Backend.TimeoutExactlyWithoutMatch | crewai-backend/main.py:123-129 | The caller gets the timeout record exactly when no in-time delivery matched. Otherwise it gets the earliest matching one. |
| Backend.Server.StartTask | crewai-backend/main.py:96-129 | One request goes to "crew.captain". The subscription is closed on both paths, and the answer is the reply or the timeout record. |
| McpServer.Decimal | src/mcp_server.py:15 | `str(n)` is a non-empty string of decimal digits. |
| McpServer.DecimalRoundTrip | src/mcp_server.py:15 | Reading back the decimal digits gives the number. |
| McpServer.FourDigits | src/mcp_server.py:15 | Numbers from 1000 to 9999 have four digits. |
| McpServer.TaskIdRoundTrip | src/mcp_server.py:14-15 | "task-" + digits reads back as its number, so ids drawn from different numbers differ. |
| McpServer.GenerateTaskId | src/mcp_server.py:14-15 | The id is "task-" and a number from 1000 to 9999, nine characters long. |
| McpServer.SendNeverInternalError | src/mcp_server.py:17-82 | Every outcome of the send maps to its own message, and the "Internal error" branch is never taken. |
| McpServer.RecommendationMatchesId | src/mcp_server.py:41-71 | A recommendation is always the in-time delivery whose id is the drawn id. |
| McpServer.Gateway.SendToCaptainAndWait | src/mcp_server.py:27-82 | The tool reply matches the outcome. A reachable bus gets one request published and one subscription opened that is never closed. |
| McpServer.Gateway.RecommendStocks | src/mcp_server.py:17-25 | For some drawn id from 1000 to 9999, the reply is the send result for that id, and a reachable bus gets the request with that id published and one more subscription opened. The reply is never an internal error. |
| CaptainRegistry.SimulatedEmbedding | src/latest_ai_development/tools/captain/agent_registry.py:39 | An embedding is 384 values in [0, 1). |
| CaptainRegistry.Registry.constructor | src/latest_ai_development/tools/captain/agent_registry.py:15-19 | The registry starts empty and valid. |
| CaptainRegistry.Registry.GetAgentDetails | src/latest_ai_development/tools/captain/agent_registry.py:131-141 | In a valid registry a record is found exactly for registered ids, and it carries the id it was looked up by. |
| CaptainRegistry.Registry.RegisterAgent | src/latest_ai_development/tools/captain/agent_registry.py:21-40 | The record is stored under its id, replacing any earlier one, and every other agent and embedding is unchanged. The id joins the key order only if new, and gets a fresh 384-value embedding. |
| CaptainRegistry.Registry.SimulateVectorSearch | src/latest_ai_development/tools/captain/agent_registry.py:89-129 | The search gives nothing or singleton rows of distinct registered ids. There are exactly `top_k` rows when more agents are registered, else all agents in order. A negative `top_k` raises `ValueError`. |
| CaptainRegistry.Registry.SearchBestAgent | src/latest_ai_development/tools/captain/agent_registry.py:42-87 | An empty query, an empty registry or a non-positive `top_k` gives `None`. A found id is registered, and with at most `top_k` agents it is the first registered. |
| Pipeline.WrapKeepsId | tests/captain_agent.py:19-21 | The wrapping done by the captain script tests/captain_agent.py does not change the id the executor extracts. |
| Pipeline.ClientIdSurvivesPipeline | src/latest_ai_development/tools/captain/prompt_processor_subagent.py:73-81 | Whether the captain forwards the request as it is or wraps it, and whatever the classifier does, the executor tracks it under the client's own id, and its final result for that id is accepted by the client. |
| Pipeline.LegacyExecutorReadsForwardedRequest | src/latest_ai_development/tools/captain/captain_agent.py:19 | When the deployed captain forwards the request as it is, the older executor reads the request's own description and id from the prompt-processor record. |
| Pipeline.ForwardingTestExpectsWrap | tests/test_suite.py:112-137 | A request forwarded as it is has no "original_task_data", so the forwarding test's check (a description under that key) fails for the deployed captain that the suite starts; the wrapping script's output passes it. |
| Pipeline.LegacyExecutorMissesWrappedId | src/latest_ai_development/tools/agent_registry/agent_registry.py:89-90 | On a prompt-processor record built under the wrapping of the captain script tests/captain_agent.py, the older executor queries "N/A" and tracks the request under "no-id". |

## Left out

Not modelled:

- The NATS connection, subscriptions and message delivery. Handlers are applied to
  decoded messages one at a time. Concurrency between processes is not modelled.
- Interleaving of one executor's two handlers at their awaits. The model assumes that
  the callbacks of one subscription run one at a time, as the NATS client runs them, so
  only a task handler and a reply handler can interleave.
  - In the current executor, the task handler's awaits come after its last tracking
    write. The reply handler awaits the publish of a final result between reading the
    tracking and removing the id. A task handler that runs there for the same id finds
    it tracked and changes nothing. The tracking therefore ends as if the task had
    arrived just before the completing reply; only the order of published messages can
    differ from that atomic order.
  - In the older executor, a task handler that runs at that await for the same id resets
    its tracking, and the reply handler then removes the fresh tracking. No atomic order
    gives that state, and the model does not capture it.
- Collisions of the gateway's task ids. Two concurrent requests can draw the same
  number from 1000 to 9999; the model follows one request at a time.
- JSON encoding and decoding. A message body that fails to decode before a handler runs
  is not modelled; on the client side it is a delivery with no body.
- JSON floating-point numbers, and Python's equality of `True`, `1` and `1.0`. It makes
  them the same dictionary key, and the executor's duplicate check
  (`response.get("agent") == agent_name`) treats tags `1` and `true` as the same agent;
  the model tells them apart. Numbers are integers.
- The chat-completion call, the Chroma collection and the UUID generator. They are
  function parameters or arguments.
- Logging and printing.
- `BaseException` subclasses such as cancellation, which the handlers do not catch.
- Python's recursion limit: `extract_task_id` is modelled on arbitrarily deep envelopes.
- The similarity scores of the simulated search, which no caller reads, and its query
  argument, which it ignores.
- The pretty-printed JSON text of the MCP recommendation: the reply carries the
  decoded result.
- Aliasing: a stored reply is a value, not a shared mutable dict.
- Timing is not modelled as a clock: each delivery carries an arrival time, and the wait
  ends at the first delivery at or after 60.

Weaker than the source, or narrower:

- McpServer.Gateway.SendToCaptainAndWait: every exception inside the `try` is modelled as
  raised before the subscription, so it opens no subscription and publishes nothing. That
  covers an exception other than a connection-class error, and also a connection-class
  error (`ErrConnectionClosed`, `ErrTimeout`) raised by the subscribe or the publish after
  the connect. Where exactly it arises inside the `try` is not modelled.
- McpServer.Gateway.RecommendStocks: the connection that `send_to_captain_and_wait` opens
  and never closes is modelled only through the subscription counter. The drawn id is
  not promised to differ from the ids of other requests in flight.
- CaptainRegistry.Registry.SearchBestAgent: `top_k` is always passed explicitly (the
  source's default is 1).
- Backend.TimeoutExactlyWithoutMatch: assumes the request id is not "no-id". A UUID never
  is, and only under that assumption can a matching reply never equal the timeout record.
