# Verified models of the after-sales system

This project models the parts of the after-sales agent whose behaviour is hardest to see from one function, and
proves what they promise. Each module follows one component of the repository; module and file have the same name.

| Modules | Component |
|---|---|
| ReviewMarkers, ReviewProtocol, ReviewInvariant, ReviewSafety, ReviewGrants | Kafka review consumers sharing Redis idempotency keys, as an interleaved step system |
| AgentWorkflow, AgentNodes, AgentBounds, AgentApproval, AgentOutcomes, AgentHandover, AgentRetrieval, AgentInfluence | The agent graph: nodes, routers and guards, for an arbitrary model and arbitrary tool results |
| RagRewrite | Validation of retrieval assessments and rewritten queries |
| CircuitBreakers, RerankerLifecycle, RerankerReports, RerankedItems | The reranker client under concurrency and its circuit breaker |
| TokenSplitter | Token-bounded splitting of source text |
| ChunkedBody, SseStream | The chunked request body (section 7.1 of RFC 9112) and server-sent events (section 9.2 of the WHATWG HTML Living Standard) |
| ToolHistory | Normalising and rendering conversation histories with tool calls |
| RankFusion, FusionLaws | Reciprocal rank fusion |
| LruCaches | The two caches with a time to live |
| RagMetrics, ControlledMetrics | Metric arithmetic over the reals |
| Wrappers, Collections, Whitespace | Shared datatypes and facts; Python's notion of whitespace |

Code that updates state is modelled twice: by a method or class that updates it the same way, and by a function of
the old state that the method is proved to compute. The theorems are about that function, or about sequences of its
applications. Concurrency is a step system: a step is one Redis command, one critical section or one private decision,
and a run is any sequence of enabled steps. Clocks, the network, the language model, the Java services and the
providers are parameters that may answer anything.

## What turned out differently from what one expects

- **Review consumers.** The branch that neither acknowledges nor defers is reachable: `SET NX` fails on another
  consumer's marker, the key expires, `GET` finds nothing, and the record is passed over. `LostExactlyByLosingRead` and
  `RunLosesIffLosingRead` give the exact condition, `ExpiryInsideClaimLosesRecord` a concrete run.
- **Reranker.** An admitted call reports exactly once unless it leaves silently, and the last one to do so with the
  probe flag set wedges the breaker for good (`WedgesExactlyBySilence`, `WedgeIsPermanent`). An open client can come
  to that exactly when it was given a transport of the caller's or a candidate that is no dictionary
  (`OpenClientWedgesIff`); with its own transport and dictionaries it never does (`OpenClientNeverWedges`).
- **Agent graph.** Both deterministic routers always name an action, so the model's free tool choice at the end of
  `decide_next` is never reached. With a ticket or attachments what the planner and the decider answer has no
  influence on the calls (`RepliesCannotSteer`). The evaluator of retrieval results, the same model, has: after the
  first usable search it can add one multi-query search, and after either search it can end the loop in a transfer.
  Nothing else in the calls depends on the model (`ModelOnlyJudgesRetrieval`); that approvals have their grounds and
  runs their bounds holds whatever it answers.
- **Handing over.** The fast retry of a submission forgets that a person is needed, and the check that would bring the
  transfer back looks for the verdict `MANUAL_REVIEW` while the agent submits `MANUAL_REVIEW_REQUIRED`. A manual verdict
  submitted at once is always handed over. One that succeeds only at the retry is answered by a reply when it rests on
  a risk reason alone, or when the retry took the last step, whatever the verdict notes: `ManualVerdictHandedOverIff`
  gives the exact condition for every run, `RiskVerdictNotHandedOver` and `DoubtfulVerdictAtStepLimit` two such runs.
- **Server-sent events.** The round trip holds exactly when every event name is one line without surrounding blanks
  (`ReadInvertsWrite`); `PaddedNameIsTrimmed` is a name that does not come back.
- **Tool history.** The round trip holds exactly when all arguments use only JSON shapes (`RoundTripIffJsonShaped`); a
  tuple does not come back (`TupleDoesNotComeBack`).
- **Metrics.** A negative cutoff slices from the end but leaves no ideal gain, so NDCG is zero where the other metrics
  are not (`NegativeCutoffHasNoGain`); recall can fall when the cutoff passes from negative to non-negative
  (`RecallDropsAtZero`). The Wilson bound exceeds the observed rate exactly when z is negative and some attempt failed
  (`WilsonAtMostRate`, with `NegativeZExceedsRate` as an instance).

## Assumptions made explicit

- Kafka: the iterator advances the position when it yields, and `commit()` commits every assigned position. Redis:
  each command is atomic and `EXEC` is void if the key was written since `WATCH`. Clocks only move forward.
- `ReviewProtocol.Init`: at the start every key in Redis is a readable marker whose terminal status is true.
- `TokenSplitter.Lexicon`: no whitespace character is alphanumeric or an underscore.
- `SseStream.Faithful`: JSON text is one line, not empty, without surrounding whitespace, and is parsed back.
- `RerankerLifecycle.CanSay`: the client's own HTTP transport raises neither `CLIENT_CLOSED` nor `CircuitOpenError`, as
  its code shows; a transport given to the constructor may raise anything.
- `ToolHistory.Value`: messages are trees. Two calls that share one dictionary object, which stay shared through the
  deep copy and are then edited twice, are outside the model.
- `ToolHistory.Lawful`: reading JSON gives JSON-shaped values and reads back the JSON-shaped values that were written.
- `ControlledMetrics.IsSqrt` and `RagMetrics.Decreasing`: what is used of the square root and of the discount.

## Model

| member | source | states |
|---|---|---|
| `ReviewMarkers.RedisEventIdempotencyStore.constructor` | python_agent/after_sales_agent/interface/kafka_adapter.py:309-318 | a store starts from the keys that are in Redis |
| `ReviewMarkers.RedisEventIdempotencyStore.Claim` | python_agent/after_sales_agent/interface/kafka_adapter.py:351-387 | an uninterrupted claim does to the keys, and answers, exactly what `ClaimEffect` says: create, acknowledge, defer, take over, or no verdict |
| `ReviewMarkers.RedisEventIdempotencyStore.RefreshProcessing` | python_agent/after_sales_agent/interface/kafka_adapter.py:389-398 | the marker is rewritten with the new time exactly when it is an owned PROCESSING marker, else nothing changes |
| `ReviewMarkers.RedisEventIdempotencyStore.Mark` | python_agent/after_sales_agent/interface/kafka_adapter.py:400-410 | the terminal status replaces whatever the key held |
| `ReviewMarkers.RedisEventIdempotencyStore.Release` | python_agent/after_sales_agent/interface/kafka_adapter.py:412-416 | the key is deleted exactly when it is an owned PROCESSING marker |
| `ReviewInvariant.NextKeepsInv` | python_agent/after_sales_agent/interface/kafka_adapter.py:494-679 | every step of every consumer, heartbeat and key expiry keeps the invariant over log, read positions, committed offsets, Redis and outcomes |
| `ReviewInvariant.RunKeepsInv` | python_agent/after_sales_agent/interface/kafka_adapter.py:494-679 | the invariant holds in every state of every run with any number of consumers |
| `ReviewSafety.CommittedRecordsAccounted` | python_agent/after_sales_agent/interface/kafka_adapter.py:514-679 | in every state of every run, each record below a committed offset is dead-lettered, has a durable outcome, or was skipped by the branch that neither acknowledges nor defers |
| `ReviewSafety.TerminalMarkersBacked` | python_agent/after_sales_agent/interface/kafka_adapter.py:904-975 | in every state of every run a terminal marker is backed: FAILED by a dead letter, the others by a durable outcome |
| `ReviewSafety.LostExactlyByLosingRead` | python_agent/after_sales_agent/interface/kafka_adapter.py:576-600 | a step loses a record if and only if it is the GET that finds no marker for a not yet settled event after SET NX had failed |
| `ReviewSafety.LosingReadNeedsExpiry` | python_agent/after_sales_agent/interface/kafka_adapter.py:351-365 | that GET happens only if the key expired after the same claim's SET NX had failed |
| `ReviewSafety.RunLosesIffLosingRead` | python_agent/after_sales_agent/interface/kafka_adapter.py:494-679 | over any run: some record is lost in some state if and only if some step is such a GET |
| `ReviewSafety.QuietRunLosesNothing` | python_agent/after_sales_agent/interface/kafka_adapter.py:472-679 | with crashes, rebalances, takeovers, heartbeats and expiries in any order, nothing is lost as long as no key expires inside a claim |
| `ReviewSafety.ExpiryInsideClaimLosesRecord` | python_agent/after_sales_agent/interface/kafka_adapter.py:576-600 | a reachable state in which a record is below the committed offset and nobody handled it: the promised unreachability of that branch is false |
| `ReviewGrants.EveryGrantIsCreationOrStaleTakeover` | python_agent/after_sales_agent/interface/kafka_adapter.py:351-387 | every grant creates an absent key or atomically replaces exactly the PROCESSING value the winner examined, at least the stale time old at that instant and never terminal |
| `ReviewGrants.FreshMarkerIsNotOvertaken` | python_agent/after_sales_agent/interface/kafka_adapter.py:351-398 | over any stretch of any run in which the heartbeat keeps the marker fresh in every state, nobody is granted the event |
| `ReviewGrants.NoVersionGrantedTwice` | python_agent/after_sales_agent/interface/kafka_adapter.py:351-387 | over any run no two grants write or take over the same stored version of a key |
| `ReviewGrants.ClaimAloneIsClaim` | python_agent/after_sales_agent/interface/kafka_adapter.py:351-387 | the commands GET, WATCH and GET, EXEC run back to back refine the store object's claim |
| `CircuitBreakers.OpenIffThresholdReached` | python_agent/after_sales_agent/infrastructure/resilience.py:46-68 | over any history the breaker is open exactly when at least `threshold` failures were reported since the last success |
| `CircuitBreakers.AdmitsExactlyAfterRecovery` | python_agent/after_sales_agent/infrastructure/resilience.py:46-55 | while open it admits a call exactly when no probe is out and the recovery time has passed since the latest failure |
| `CircuitBreakers.OneProbeBetweenReports` | python_agent/after_sales_agent/infrastructure/resilience.py:46-68 | between two reports at most one call gets through an open breaker, and the probe flag says whether one did |
| `CircuitBreakers.CircuitBreaker.constructor` | python_agent/after_sales_agent/infrastructure/resilience.py:32-44 | a new breaker is closed |
| `CircuitBreakers.CircuitBreaker.BeforeCall` | python_agent/after_sales_agent/infrastructure/resilience.py:46-55 | answers as the history says and leaves the state the history says |
| `CircuitBreakers.CircuitBreaker.ReportSuccess` | python_agent/after_sales_agent/infrastructure/resilience.py:57-61 | the state after one more success in the history |
| `CircuitBreakers.CircuitBreaker.ReportFailure` | python_agent/after_sales_agent/infrastructure/resilience.py:63-68 | the state after one more failure in the history |
| `RerankerLifecycle.NextKeepsLifecycle` | python_agent/after_sales_agent/providers/reranker_client.py:319-355 | every step of concurrent `rerank` and `close` keeps: active count equals the calls inside, one closer, completeness only when idle |
| `RerankerLifecycle.ClosedAtMostOnce` | python_agent/after_sales_agent/providers/reranker_client.py:319-338 | in every interleaving the transport is closed at most once |
| `RerankerLifecycle.ClosedOnlyWhenIdle` | python_agent/after_sales_agent/providers/reranker_client.py:319-338 | it is closed only when no call is active |
| `RerankerLifecycle.NeverUsedAfterClose` | python_agent/after_sales_agent/providers/reranker_client.py:308-464 | every use of the transport finds it present and not closed |
| `RerankerLifecycle.CloseReturnsWhenComplete` | python_agent/after_sales_agent/providers/reranker_client.py:319-338 | a `close` that returned did so after closing was complete, and no call begins or is inside from then on |
| `RerankerLifecycle.CloseCannotHang` | python_agent/after_sales_agent/providers/reranker_client.py:308-351 | once the client is closed, the calls inside and the closer have only a bounded number of steps left in any interleaving, and until closing is complete one of them can always take its next one |
| `RerankerReports.OwingEndsByReportOrSilence` | python_agent/after_sales_agent/providers/reranker_client.py:385-462 | an admitted call stops owing its report by its one report or by a silent exit, and in no other way |
| `RerankerReports.AdmittedReportsExactlyOnce` | python_agent/after_sales_agent/providers/reranker_client.py:385-462 | an admitted call that returned reported exactly once if and only if it did not leave silently: a candidate that is no dictionary, client closed when the transport is fetched, or the transport raising CLIENT_CLOSED or CircuitOpenError |
| `RerankerReports.WedgesExactlyBySilence` | python_agent/after_sales_agent/providers/reranker_client.py:385-462 | a step leaves a set probe flag with no call to clear it exactly when the last owing call leaves silently |
| `RerankerReports.OpenClientNeverWedges` | python_agent/after_sales_agent/providers/reranker_client.py:308-462 | a client that makes its own transport and is called with dictionaries: in every state of every run in which it is open, a set probe flag has an admitted call in flight, and every admitted call that returned reported exactly once |
| `RerankerReports.OpenClientWedgesIff` | python_agent/after_sales_agent/providers/reranker_client.py:385-467 | under any configuration an open client can come to be wedged - the probe flag set and no call left to clear it - exactly when it was given a transport or may be called with a candidate that is no dictionary; the runs are constructed |
| `RerankerReports.WedgeIsPermanent` | python_agent/after_sales_agent/providers/reranker_client.py:385-462 | in any run, once wedged it is wedged in every later state, and no later call is admitted |
| `RerankerReports.RunBreakerIsReplay` | python_agent/after_sales_agent/providers/reranker_client.py:385-462 | in every run the client's breaker is the replay of the calls and reports so far |
| `RerankerReports.RunBreakerOpensAndAdmits` | python_agent/after_sales_agent/providers/reranker_client.py:385-462 | in every state of every run: open iff enough failures since the last success; admission while open only after recovery |
| `RerankerLifecycle.LifecycleFields.constructor` | python_agent/after_sales_agent/providers/reranker_client.py:278-306 | no call active, not closed |
| `RerankerLifecycle.LifecycleFields.BeginCall` | python_agent/after_sales_agent/providers/reranker_client.py:340-345 | the field update is the step of the protocol, and it is refused exactly when closed |
| `RerankerLifecycle.LifecycleFields.FinishCall` | python_agent/after_sales_agent/providers/reranker_client.py:347-351 | the field update is the step of the protocol, and it notifies exactly when the last call leaves |
| `RerankerLifecycle.LifecycleFields.BeginClosing` | python_agent/after_sales_agent/providers/reranker_client.py:319-331 | the field update is the step of the protocol, and exactly the first closer proceeds |
| `RerankerLifecycle.LifecycleFields.MarkComplete` | python_agent/after_sales_agent/providers/reranker_client.py:331-338 | completion is recorded as the step of the protocol |
| `RerankedItems.ValidatedItems` | python_agent/after_sales_agent/providers/reranker_client.py:471-511 | accepts exactly the lists of the requested number of distinct in-range candidates with finite scores, and returns them in the provider's order |
| `TokenSplitter.EstimateTokens` | python_agent/after_sales_agent/application/knowledge_ingestion/token_counter.py:6-26 | the counting loop computes the token measure of the normalised text |
| `TokenSplitter.EstimateSubadditive` | python_agent/after_sales_agent/application/knowledge_ingestion/token_counter.py:6-26 | joining two texts never costs more than the two together |
| `TokenSplitter.SourceUnits` | python_agent/after_sales_agent/application/knowledge_ingestion/token_counter.py:77-102 | the lexer loop yields the units of the text, each with its estimate |
| `TokenSplitter.UnitsLossless` | python_agent/after_sales_agent/application/knowledge_ingestion/token_counter.py:77-102 | the units concatenate to the text |
| `TokenSplitter.RunCost` | python_agent/after_sales_agent/application/knowledge_ingestion/token_counter.py:77-102 | a run of spaces is free and a run of word characters costs one token however it is sliced |
| `TokenSplitter.Split` | python_agent/after_sales_agent/application/knowledge_ingestion/token_counter.py:29-74 | the packing loop computes the greedy packing, or the refusal |
| `TokenSplitter.SplitLosslessAndBounded` | python_agent/after_sales_agent/application/knowledge_ingestion/token_counter.py:29-74 | for every accepted text the parts concatenate to it and each respects both limits |
| `TokenSplitter.RefusedIffCharacterTooCostly` | python_agent/after_sales_agent/application/knowledge_ingestion/token_counter.py:29-74 | with valid limits a text is refused exactly when one of its characters alone costs more than the token limit |
| `TokenSplitter.PackIsACut` | python_agent/after_sales_agent/application/knowledge_ingestion/token_counter.py:42-74 | when no unit exceeds the character limit the parts are a cut of the units into runs within both budgets |
| `TokenSplitter.GreedyIsOptimal` | python_agent/after_sales_agent/application/knowledge_ingestion/token_counter.py:42-74 | and no such cut has fewer parts |
| `ChunkedBody.ByteStream.constructor` | python_agent/after_sales_agent/interface/http_server.py:88-109 | a stream holds the bytes still to be read |
| `ChunkedBody.ByteStream.Read` | python_agent/after_sales_agent/interface/http_server.py:127-131 | `read(n)` takes up to n bytes from the front |
| `ChunkedBody.ByteStream.ReadLine` | python_agent/after_sales_agent/interface/http_server.py:111-122 | `readline(limit)` takes the bytes through the first line feed, at most `limit` |
| `ChunkedBody.ReadTrailers` | python_agent/after_sales_agent/interface/http_server.py:120-124 | consumes the lines up to and including the first empty one, or everything |
| `ChunkedBody.ReadChunked` | python_agent/after_sales_agent/interface/http_server.py:109-132 | the reading loop answers and consumes exactly as `Decode` says |
| `ChunkedBody.NeverExceedsLimit` | python_agent/after_sales_agent/interface/http_server.py:109-132 | no returned body is longer than the limit (unless it was before the first chunk) |
| `ChunkedBody.DecodeInvertsEncode` | python_agent/after_sales_agent/interface/http_server.py:109-132 | for canonical chunks within the limit the reader returns their concatenation and leaves exactly what follows the message |
| `ChunkedBody.PrefixNeverDecodesShorter` | python_agent/after_sales_agent/interface/http_server.py:109-132 | every strict prefix of a canonical message is rejected or decodes to the same full body |
| `SseStream.SseReader.constructor` | frontend/uniapp/src/utils/afterSalesAgent.js:269-270 | the reader starts with an empty buffer and the event name `message` |
| `SseStream.SseReader.OnLine` | frontend/uniapp/src/utils/afterSalesAgent.js:296-302 | one line updates the event name and makes at most one callback |
| `SseStream.SseReader.OnChunk` | frontend/uniapp/src/utils/afterSalesAgent.js:288-304 | one chunk makes the callbacks of the lines it completes and keeps the unfinished line |
| `SseStream.FeedTwice` | frontend/uniapp/src/utils/afterSalesAgent.js:288-304 | two chunks are read like their concatenation |
| `SseStream.CutsDoNotMatter` | frontend/uniapp/src/utils/afterSalesAgent.js:288-304 | every way of cutting the character stream gives the same callbacks in the same order and the same final state as one whole read |
| `SseStream.DeliversCleanNames` | frontend/uniapp/src/utils/afterSalesAgent.js:295-299 | the reader only ever delivers single-line names without surrounding whitespace |
| `SseStream.ReadsCleanEventsBack` | python_agent/after_sales_agent/interface/http_server.py:369-373 | reading what was written returns the original events when every name is clean |
| `SseStream.ReadInvertsWrite` | python_agent/after_sales_agent/interface/http_server.py:369-373 | and, however the stream is cut, exactly then |
| `SseStream.PaddedNameIsTrimmed` | frontend/uniapp/src/utils/afterSalesAgent.js:295-299 | an event whose name has a leading blank comes back under the trimmed name |
| `RagRewrite.NormalizeKeepsWords` | python_agent/after_sales_agent/application/rag_query_rewrite.py:297-299 | normalising keeps exactly the words, separated by single blanks |
| `RagRewrite.NormalIffFixed` | python_agent/after_sales_agent/application/rag_query_rewrite.py:297-299 | the texts it leaves alone are exactly the normal ones; it is idempotent |
| `RagRewrite.ValidateCandidates` | python_agent/after_sales_agent/application/rag_query_rewrite.py:190-216 | the loop returns the first usable proposals, at most the limit |
| `RagRewrite.SelectedAreFresh` | python_agent/after_sales_agent/application/rag_query_rewrite.py:190-216 | the chosen queries are well formed, pairwise different and different from every query used before, up to whitespace and case, and at most the limit |
| `RagRewrite.NothingUsablePassedOver` | python_agent/after_sales_agent/application/rag_query_rewrite.py:190-216 | a usable proposal is passed over only for want of room |
| `RagRewrite.SelectIsIncremental` | python_agent/after_sales_agent/application/rag_query_rewrite.py:190-216 | later proposals never change what earlier ones gave |
| `RagRewrite.NoneChosenIffNoneUsable` | python_agent/after_sales_agent/application/rag_query_rewrite.py:190-216 | nothing is chosen exactly when nothing is usable |
| `RagRewrite.AcceptedDecision` | python_agent/after_sales_agent/application/rag_query_rewrite.py:122-188 | an accepted decision that finds knowledge missing is never sufficient; queries are proposed exactly when insufficient and rewriting is allowed, and then one to three fresh ones |
| `RagRewrite.InsufficientNeedsAUsableQuery` | python_agent/after_sales_agent/application/rag_query_rewrite.py:156-188 | an insufficient answer is accepted exactly when one of its proposals is usable |
| `AgentWorkflow.PassAdvances` | python_agent/after_sales_agent/application/after_sales_workflow.py:460-687 | a pass that leads to another one has taken a step and is still within the step limit |
| `AgentNodes.AgentRun.constructor` | python_agent/after_sales_agent/application/after_sales_workflow.py:171-210 | a run starts from the request's state |
| `AgentNodes.AgentRun.Receive` | python_agent/after_sales_agent/application/after_sales_workflow.py:245-251 | the node in place refines `ReceiveMessage` |
| `AgentNodes.AgentRun.Classify` | python_agent/after_sales_agent/application/after_sales_workflow.py:253-284 | the node in place refines `ClassifyOrPlan` |
| `AgentNodes.AgentRun.ApplyAction` | python_agent/after_sales_agent/application/after_sales_workflow.py:1900-1954 | the planned action, its stamped arguments and the kafka guard |
| `AgentNodes.AgentRun.RunTool` | python_agent/after_sales_agent/application/after_sales_workflow.py:460-518 | the node in place refines `ToolCall`: limits first, then execution, one more trace element either way |
| `AgentNodes.AgentRun.RememberQueries` | python_agent/after_sales_agent/application/after_sales_workflow.py:560-576 | the loop adds exactly the queries that are new up to case folding |
| `AgentNodes.AgentRun.ObserveCase` | python_agent/after_sales_agent/application/after_sales_workflow.py:591-616 | what one result changes about ticket, attachments, order and session |
| `AgentNodes.AgentRun.ObserveToolResult` | python_agent/after_sales_agent/application/after_sales_workflow.py:520-616 | the node in place refines `Observe` |
| `AgentNodes.AgentRun.CountEvaluation` | python_agent/after_sales_agent/application/after_sales_workflow.py:1139-1201 | a first-phase evaluation happens once; every evaluation is counted |
| `AgentNodes.AgentRun.DecideGuarded` | python_agent/after_sales_agent/application/after_sales_workflow.py:668-678 | the deterministic decision, worded by the model where it closes the run |
| `AgentNodes.AgentRun.DecideFollowUp` | python_agent/after_sales_agent/application/after_sales_workflow.py:658-678 | a follow-up search or transfer comes before the deterministic decision |
| `AgentNodes.AgentRun.Decide` | python_agent/after_sales_agent/application/after_sales_workflow.py:618-687 | the node in place refines `DecideNext` |
| `AgentNodes.AgentRun.TransferToHuman` | python_agent/after_sales_agent/application/after_sales_workflow.py:836-906 | the node in place refines `HumanHandoff` |
| `AgentNodes.AgentRun.SendFinalReply` | python_agent/after_sales_agent/application/after_sales_workflow.py:908-971 | the node in place refines `FinalReply` |
| `AgentNodes.AgentRun.OnePass` | python_agent/after_sales_agent/application/after_sales_workflow.py:140-153 | tool, observation and decision in place are one pass |
| `AgentNodes.AgentRun.ToolLoop` | python_agent/after_sales_agent/application/after_sales_workflow.py:140-153 | the loop over the nodes ends and computes `Loop` |
| `AgentNodes.AgentRun.Handle` | python_agent/after_sales_agent/application/after_sales_workflow.py:116-210 | handling a message in place computes `Run`, so every result about runs holds of it |
| `AgentBounds.RunIsBounded` | python_agent/after_sales_agent/application/after_sales_workflow.py:460-687 | for every model, tool and evaluator: at most max(1, max_steps) passes, at most `max_tool_calls` executed calls, no call with the same arguments executed more often than allowed |
| `AgentBounds.HumanExactlyWhenConfirmed` | python_agent/after_sales_agent/application/after_sales_workflow.py:836-906 | the run ends in human mode exactly when a transfer to a waiting or processing human session was confirmed |
| `AgentApproval.BestKnowledgeHidesNothing` | python_agent/after_sales_agent/application/after_sales_workflow.py:1341-1367 | the retrieval result used for the decision is a trusted one whenever any search returned a trusted one |
| `AgentApproval.ApprovedExactlyOnGrounds` | python_agent/after_sales_agent/application/after_sales_workflow.py:1488-1613 | a review is an approval if and only if its grounds are in the trace |
| `AgentApproval.ApprovalsAreGrounded` | python_agent/after_sales_agent/application/after_sales_workflow.py:1373-1613 | in any run with a ticket every submitted approval came from the review queue, after the ticket was fetched as pending, with a successful damaging image review of enough confidence, a damage claim, no functional claim, no risk reason, no emotional priority and a trusted policy: a traceable hit of the ticket's own merchant and version, in force when the customer applied, with enough score |
| `AgentApproval.SubmissionEndsTheLoop` | python_agent/after_sales_agent/application/after_sales_workflow.py:1389-1402 | a successful submission belongs to a ticket and the review queue and no pass follows it, so there is at most one |
| `AgentInfluence.DecisionsCompared` | python_agent/after_sales_agent/application/after_sales_workflow.py:618-713 | two decisions in one state with the same tool result, whatever the model says in all its parts: they lead to the same next call, or the evaluator is asked about the last result and one of them plans one more search with added queries or a transfer |
| `AgentInfluence.ModelOnlyJudgesRetrieval` | python_agent/after_sales_agent/application/after_sales_workflow.py:253-713 | with a ticket or attachments, two runs with the same tool results make the same calls whatever the model says as planner, decider and evaluator, or they part exactly after a result the evaluator is asked about - the first usable search or a multi-query search - where one of them adds queries to that search or is handed to a person |
| `AgentInfluence.RepliesCannotSteer` | python_agent/after_sales_agent/application/after_sales_workflow.py:253-713 | with a ticket or attachments and equal answers of the evaluator, calls, arguments and results of the loop do not depend on what the planner and the decider answer |
| `AgentOutcomes.UncertainSubmissionIsOnlyRepeated` | python_agent/after_sales_agent/application/after_sales_workflow.py:739-777 | with a ticket, if any review is submitted after one whose result is unknown, the very next call is that same submission with the same arguments and its request number |
| `AgentOutcomes.GoodCaseIsApproved` | python_agent/after_sales_agent/application/after_sales_workflow.py:1373-1613 | a pending ticket with clear damage, enough confidence and a trusted policy is approved in exactly four calls - ticket, images, policy, approval - and the run then replies, or transfers if the model cannot word the reply |
| `AgentHandover.ManualVerdictHandedOverIff` | python_agent/after_sales_agent/application/after_sales_workflow.py:618-687 | in every run with a ticket whose calls end with a successful verdict that is no approval: it goes to a person exactly when that verdict was submitted at once, or the step limit was not reached and the verdict notes an uncertainty, the answer is flagged as failed, or the model cannot word the reply; otherwise it replies |
| `AgentHandover.RiskVerdictNotHandedOver` | python_agent/after_sales_agent/application/after_sales_workflow.py:739-777 | a whole run that is answered by a reply: the evidence is good, a risk reason forces the manual verdict, the submission times out and succeeds at the fast retry |
| `AgentHandover.DoubtfulVerdictAtStepLimit` | python_agent/after_sales_agent/application/after_sales_workflow.py:627-635 | another: the ticket has no policy version, the verdict notes the uncertain policy, and the retry succeeds on the last step |
| `AgentHandover.ReviewActAttentive` | python_agent/after_sales_agent/application/after_sales_workflow.py:1488-1613 | a verdict that is no approval asks for a person |
| `AgentRetrieval.RunsAreFrugal` | python_agent/after_sales_agent/application/after_sales_workflow.py:1139-1298 | every run does at most one multi-query search and at most two evaluations; the search carries one to three well-formed queries, pairwise different and different from everything searched before |
| `ToolHistory.NormalizeToolHistory` | python_agent/after_sales_agent/providers/resilient_llm_runtime.py:87-120 | the loop with its pending call and seen identifiers computes `Normalize`, including which message is refused first and why |
| `ToolHistory.AcceptsExactlyHistories` | python_agent/after_sales_agent/providers/resilient_llm_runtime.py:87-209 | accepts exactly the sequences of plain messages and adjacent call/observation pairs with matching, never reused identifiers |
| `ToolHistory.NormalizeIdempotent` | python_agent/after_sales_agent/providers/resilient_llm_runtime.py:87-209 | normalising a normalised history changes nothing |
| `ToolHistory.Render` | python_agent/after_sales_agent/providers/resilient_llm_runtime.py:73-84 | the rendering loop computes `RenderToolHistory` |
| `ToolHistory.RenderingNeverFails` | python_agent/after_sales_agent/providers/resilient_llm_runtime.py:73-293 | rendering succeeds exactly when normalisation does, for every provider |
| `ToolHistory.RoundTripIffJsonShaped` | python_agent/after_sales_agent/providers/resilient_llm_runtime.py:73-293 | normalising an OpenAI-rendered history gives back the normalised history exactly when every call's arguments use only JSON shapes |
| `ToolHistory.TupleDoesNotComeBack` | python_agent/after_sales_agent/providers/resilient_llm_runtime.py:73-293 | for every lawful codec that writes it, a call with a tuple among its arguments is accepted and rendered but not given back |
| `ToolHistory.ReadArgumentsAreJsonShaped` | python_agent/after_sales_agent/providers/resilient_llm_runtime.py:152-168 | arguments that arrived as text always do |
| `ToolHistory.OllamaFormLosesCalls` | python_agent/after_sales_agent/providers/resilient_llm_runtime.py:271-293 | the Ollama form can be normalised again exactly when the history has no call |
| `RankFusion.MergeRanking` | python_agent/after_sales_agent/retrieval/rrf.py:65-90 | merging one ranking credits every distinct item once with its rank and fails exactly on a hit without identity |
| `RankFusion.RankingMerged` | python_agent/after_sales_agent/retrieval/rrf.py:64-90 | after each ranking the dictionary holds, for every item, its standing over the rankings so far |
| `RankFusion.MergeRankings` | python_agent/after_sales_agent/retrieval/rrf.py:64-90 | the loop over the rankings builds the standings of all items, or names the first ranking with an unnamed hit |
| `RankFusion.FuseRankings` | python_agent/after_sales_agent/retrieval/rrf.py:52-98 | the general form computes `Fusion`, error cases included |
| `RankFusion.FuseChannels` | python_agent/after_sales_agent/retrieval/rrf.py:6-49 | the two-channel form, with a loop and a table of its own, agrees with the general form on the two rankings and gives each item's rank and own score per channel |
| `FusionLaws.StandingMeans` | python_agent/after_sales_agent/retrieval/rrf.py:64-90 | an item carries the sum of 1/(k + deduplicated rank), the rankings that hold it in order, and its rank in each |
| `FusionLaws.FusedIsTheBest` | python_agent/after_sales_agent/retrieval/rrf.py:92-98 | the output is the union of the rankings in the strict (score descending, identity) order cut at the limit; whatever else a ranking holds is behind everything returned |
| `FusionLaws.SmallerLimitIsPrefix` | python_agent/after_sales_agent/retrieval/rrf.py:92-98 | a smaller limit gives a prefix |
| `FusionLaws.RankingsPermuted` | python_agent/after_sales_agent/retrieval/rrf.py:52-98 | order and scores do not depend on the order of the rankings |
| `FusionLaws.DominantComesFirst` | python_agent/after_sales_agent/retrieval/rrf.py:52-98 | an item ahead of another in every ranking containing the other comes first |
| `LruCaches.OrderedCache.constructor` | python_agent/after_sales_agent/retrieval/pgvector_retriever.py:164-165 | an empty cache |
| `LruCaches.OrderedCache.Get` | python_agent/after_sales_agent/providers/vision_review_service.py:297-308 | a hit moves to the end and is returned, an expired entry goes, anything else stays |
| `LruCaches.OrderedCache.Put` | python_agent/after_sales_agent/providers/vision_review_service.py:311-317 | the new entry comes last and the oldest ones are dropped down to capacity |
| `LruCaches.OrderedCache.GetQueryEmbedding` | python_agent/after_sales_agent/retrieval/pgvector_retriever.py:1613-1633 | the embedder's front: a hit, or the embedding stored with the time read before; bypassed for an empty text or a zero time to live |
| `LruCaches.CacheInvariant` | python_agent/after_sales_agent/providers/vision_review_service.py:297-317 | over any history: within capacity, distinct keys, entries in the order of their last use, each the one last stored |
| `LruCaches.RecencyOrder` | python_agent/after_sales_agent/providers/vision_review_service.py:297-317 | entries are in the order of their last use, within capacity, no key twice |
| `LruCaches.HitsAreFresh` | python_agent/after_sales_agent/providers/vision_review_service.py:297-308 | a hit returns what was last stored under that key, within the time to live |
| `LruCaches.RecentKeysHit` | python_agent/after_sales_agent/providers/vision_review_service.py:297-317 | an unexpired key is a hit if fewer than `capacity` other keys were used since its last use |
| `RagMetrics.RankedIds` | python_agent/after_sales_agent/evaluation/rag_metrics.py:102-113 | the loop computes the first occurrences |
| `RagMetrics.RankingIsDistinct` | python_agent/after_sales_agent/evaluation/rag_metrics.py:102-113 | the ranking names each given identifier exactly once |
| `RagMetrics.NdcgIsNormalised` | python_agent/after_sales_agent/evaluation/rag_metrics.py:57-68 | for any positive strictly decreasing discount NDCG is in [0,1], is 1 exactly when the cutoff is positive and the first min(relevant, cutoff) positions are relevant, and positive exactly when a positive cutoff keeps something relevant |
| `RagMetrics.PositiveTogether` | python_agent/after_sales_agent/evaluation/rag_metrics.py:43-54 | recall, reciprocal rank and hit rate are positive together at every cutoff |
| `RagMetrics.NdcgPositiveTogetherIff` | python_agent/after_sales_agent/evaluation/rag_metrics.py:43-68 | NDCG joins them exactly when the cutoff is not negative or keeps nothing relevant |
| `RagMetrics.NegativeCutoffHasNoGain` | python_agent/after_sales_agent/evaluation/rag_metrics.py:57-68 | a negative cutoff for which it does not |
| `RagMetrics.RecallGrowsIffCutGrows` | python_agent/after_sales_agent/evaluation/rag_metrics.py:53-54 | whatever is relevant, recall does not fall from one cutoff to another exactly when the second keeps at least as much |
| `RagMetrics.RecallDropsAtZero` | python_agent/after_sales_agent/evaluation/rag_metrics.py:53-54 | a ranking whose recall drops from 1 to 0 as the cutoff grows from -1 to 0 |
| `RagMetrics.CutGrows` | python_agent/after_sales_agent/evaluation/rag_metrics.py:53-54 | a growing cutoff keeps at least as much unless it passes from negative to non-negative |
| `ControlledMetrics.F1IsDice` | python_agent/after_sales_agent/evaluation/controlled_multi_agent_evaluator.py:139-149 | when the cleaned sets are not both empty, F1 is twice their overlap divided by the sum of their sizes |
| `ControlledMetrics.F1Laws` | python_agent/after_sales_agent/evaluation/controlled_multi_agent_evaluator.py:139-149 | F1 is symmetric, in [0,1], 1 exactly for equal cleaned sets and 0 exactly for disjoint ones not both empty |
| `ControlledMetrics.WilsonAtMostRate` | python_agent/after_sales_agent/evaluation/controlled_multi_agent_evaluator.py:152-159 | for 0 <= successes <= total the bound is defined and not negative, and at most the observed rate exactly when z >= 0 or every attempt succeeded |
| `ControlledMetrics.NegativeZExceedsRate` | python_agent/after_sales_agent/evaluation/controlled_multi_agent_evaluator.py:152-159 | successes 0, total 1 and z = -1: the rate is 0 and the bound is one half |

## Left out

- ReviewInvariant.RunKeepsInv: the message loop is a step system instead of one in-place loop, because several consumers, heartbeats and expiries interleave with it; each Redis operation run alone is also a method of a class.
- ReviewSafety.QuietRunLosesNothing: a consumer that joins reads from the committed offsets of its partitions; Kafka's group protocol itself is not modelled.
- "A terminal status in Redis is permanent" is not claimed: a heartbeat reads and then writes, so it can overwrite a mark.
- The local-file event store, the metrics server, tracing and logging.
- RerankerLifecycle.CloseCannotHang: that the scheduler keeps running the threads, and the semaphore's bound on concurrent calls, are not modelled; waiting for the semaphore ends by its timeout.
- A probe of the language model client can wedge its own breaker in the same way; only the reranker is modelled.
- TokenSplitter.EstimateTokens: NFKC expands each character on its own; composition across characters, which the real normal form also performs, is not modelled.
- The Content-Length branch of the request body reader, and the HTTP handlers around both parsers.
- SseStream.SseReader.OnChunk: decoding UTF-8 across chunks is the platform's; a callback that throws is not modelled.
- AgentWorkflow.PassAdvances: LangGraph's own recursion limit, which can stop a long run with an error before the step limit, is not modelled.
- Wording of replies, prompts, skills, the messages sent to the model, and reply sanitising; keyword matching on the conversation appears as booleans of the request, and values that only word a reply or a query as arbitrary text.
- AgentApproval.ApprovedExactlyOnGrounds: policy validity bounds are instants already read in the time zone of the application; hashing of attachments is equality of their content.
- The consultation and formal-review workflows of other services; their results are arbitrary values.
- RagRewrite.AcceptedDecision: numbers are reals, so the overflow of converting a huge integer confidence to a float is not modelled.
- ToolHistory.Normalize: message, call and function dictionaries have string keys; arguments may be any Python value.
- The trust labels of multi-query retrieval, embeddings, SQL, vision prompts and the disk cache of image reviews.
- LruCaches.OrderedCache.GetQueryEmbedding: stripping the text is the caller's; the embedder's answer is a parameter.
- Floating-point rounding: scores, confidences and metrics are reals.
- RagMetrics.NdcgIsNormalised: per-case averages and percentiles only combine these numbers and would add easy members.
