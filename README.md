# Poll enricher

A Dafny model of Apache Camel's poll-enrich processor (`PollEnricher`). For each exchange, the processor does the following, in order:

1. It runs a pre-check hook.
2. It evaluates the expression that names the resource endpoint. A `PollDynamicAware` optimiser whose scheme matches may rewrite that target to a static URI.
3. It resolves the endpoint. When the cache size is negative and no endpoint exists yet, it uses a throw-away prototype endpoint.
4. It borrows a polling consumer for the endpoint from its consumer cache.
5. It polls the consumer in the mode its timeout selects: blocking, no-wait or timed.
6. It always gives the consumer back and stops a prototype endpoint.
7. It merges what it received into the exchange with its aggregation strategy. By default that is the private copy strategy.
8. It puts back a failure bridged from the consumer, together with the redelivery headers.
9. It records the URI of the endpoint it polled.

Every path ends with exactly one `done(true)` on the callback, as long as giving the consumer back does not throw (see "## Left out").

Layout:

- `results.dfy` (module `Results`): `Option`, `Result` and map lookup.
- `exchanges.dfy` (module `Exchanges`): the exchange.
  - `ExchangeState` is its value.
  - The class `Exchange` is the mutable object the processor changes in place. Each of its methods states its new `State()` through an operation on `ExchangeState`.
  - The completion callback is `AsyncCallback`.
- `consumers.dfy` (module `Consumers`):
  - Endpoints and polling consumers.
  - The receive modes.
  - The consumer cache, as acquire/release bookkeeping: the bag of consumers lent out and the ordered log of acquisitions and releases.
- `uris.dfy` (module `Uris`): Java's `String.trim` and the scheme of a URI.
- `enrich_spec.dfy` (module `EnrichSpec`): one call of `process` as the pure function `Outcome`. It is built from the steps of `process` as functions:
  - `Evaluate`, `ResolveUri`, `StaticUri`, `Target`, `Acquire`, `PollConsumer`, `PrepareResult`, `CopyAggregation`, `Aggregate`, `StoreVariable`, `Handover`, `Aggregation`, `RestoreFailure`, `AfterPoll`.
- `enrich_lemmas.dfy` (module `EnrichProperties`): the properties of the processor, as lemmas about `Outcome`.
- `poll_enricher.dfy` (module `Processor`): the processor as imperative code.
  - The class `PollEnricher` has its configuration fields, the two constructors, `DoBuild` and `Process`.
  - `Process` is proved to leave the exchange and the consumer cache exactly as `Outcome` says, and to call `done(true)` on the callback exactly once. It also returns the prototype endpoint it stopped.
  - The class `CopyAggregationStrategy` is the default strategy.

Collaborators outside the processor become the function-valued fields of `EnrichSpec.Context`:

- the pre-check hook;
- the type converter;
- property placeholders;
- `ProcessorHelper.prepareRecipient` and `getExistingEndpoint`;
- the endpoint registry;
- what the consumer cache hands out;
- the consumer's receive calls;
- the headers-map factory;
- `ExchangeHelper.shouldSetVariableResult`.

The target expression, the optimiser and a user-supplied aggregation strategy are datatypes holding functions.

Notes on the code's behaviour, which the model follows:

- **Optimiser failures are handled like invalid endpoints.** Errors thrown while rewriting to a static URI are caught with every other resolution error (lines 264-315). They go on the exchange unless invalid endpoints are ignored.
- **Prototype endpoints need a negative cache size.** A cache size of zero does not give one (line 263).
- **A bridged failure is restored whatever `aggregateOnException` says.** The cause is taken whenever the consumer bridges the error handler and the resource carries a failure (lines 366 and 416).
- **The URI-only constructor leaves the expression null.** Processing then fails with a null dereference at line 265. That failure is handled like an invalid endpoint; the static URI is not used as a fallback.

## Model

| member | source | states |
|---|---|---|
| Processor.PollEnricher.Process | core/camel-core-processor/src/main/java/org/apache/camel/processor/PollEnricher.java:247-445 | process returns true and calls done(true) exactly once. The exchange ends as `Outcome` says. The cache logs exactly the acquisition and release of the one consumer polled, and ends with the same consumers lent out. The endpoint is stopped iff it was a prototype. |
| Processor.PollEnricher.PollConsumer | core/camel-core-processor/src/main/java/org/apache/camel/processor/PollEnricher.java:317-357 | The poll uses the mode the timeout selects and the consumer's dynamic overload. done(true) is called once. The consumer is released exactly once, whether the poll returns or throws, and the release is logged. A prototype endpoint is reported stopped, and only then. The exchange ends as `EnrichSpec.PollConsumer` says. |
| Processor.PollEnricher.AcquireConsumer | core/camel-core-processor/src/main/java/org/apache/camel/processor/PollEnricher.java:256-315 | The first try block gives exactly `Acquire`. The cache gains one lent consumer and one `Acquired` entry iff a consumer was borrowed; otherwise it is unchanged. |
| Processor.PollEnricher.Merge | core/camel-core-processor/src/main/java/org/apache/camel/processor/PollEnricher.java:386-413 | Aggregation on the mutable exchange leaves it as `Aggregation` says, and reports what the strategy threw. A configured strategy may change the original exchange in place and return it; the exchange then stays as the strategy left it. Another exchange it returns is copied onto the original, keeping the pattern. |
| Processor.PollEnricher.StoreReceivedInVariable | core/camel-core-processor/src/main/java/org/apache/camel/processor/PollEnricher.java:399-405 | The aggregated exchange ends as `StoreVariable` says: when the result is to go into the variable, the variable holds the aggregated message and the message is put back to the one saved before the poll. |
| Processor.PollEnricher.Enrich | core/camel-core-processor/src/main/java/org/apache/camel/processor/PollEnricher.java:359-441 | Everything after a poll that returned leaves the exchange as `AfterPoll` says. |
| Processor.PollEnricher.RestoreCause | core/camel-core-processor/src/main/java/org/apache/camel/processor/PollEnricher.java:416-432 | Restoring the cause on the mutable exchange gives `RestoreFailure`. |
| Processor.PollEnricher.PrepareResult | core/camel-core-processor/src/main/java/org/apache/camel/processor/PollEnricher.java:490-494 | In place, the exchange becomes `EnrichSpec.PrepareResult` of its old value. |
| Processor.PollEnricher.DoBuild | core/camel-core-processor/src/main/java/org/apache/camel/processor/PollEnricher.java:532-543 | A missing consumer cache is created empty with the configured size; an existing one is kept. A missing strategy becomes the copy strategy; a configured one is kept. No other setting changes. |
| Processor.PollEnricher.constructor | core/camel-core-processor/src/main/java/org/apache/camel/processor/PollEnricher.java:97-101 | It stores the given expression, uri and timeout. The other settings get their defaults: no cache, no strategy, no optimiser, no variable. |
| Processor.PollEnricher.FromUri | core/camel-core-processor/src/main/java/org/apache/camel/processor/PollEnricher.java:109-113 | It leaves the expression null and sets the uri and the timeout. |
| Processor.CopyAggregationStrategy.Aggregate | core/camel-core-processor/src/main/java/org/apache/camel/processor/PollEnricher.java:617-631 | It returns the old exchange, changed in place to `CopyAggregation` of its old value. |
| Consumers.ConsumerCache.AcquirePollingConsumer | core/camel-core-processor/src/main/java/org/apache/camel/processor/PollEnricher.java:304 | It hands out what the cache gives. A consumer handed out is added to the lent bag and logged. A failure changes nothing. |
| Consumers.ConsumerCache.ReleasePollingConsumer | core/camel-core-processor/src/main/java/org/apache/camel/processor/PollEnricher.java:350-352 | The consumer leaves the lent bag and the release is logged. |
| EnrichSpec.SelectMode | core/camel-core-processor/src/main/java/org/apache/camel/processor/PollEnricher.java:189 | Exactly one mode is selected: blocking iff timeout < 0, no-wait iff timeout == 0, timed iff timeout > 0. A timed mode waits the timeout. |
| EnrichSpec.ResolveUri | core/camel-core-processor/src/main/java/org/apache/camel/processor/PollEnricher.java:501-525 | A null recipient gives null, and only a null recipient does. A URI returned is what placeholder resolution made of the recipient's text. A failure is the text's own failure, or the placeholder failure wrapped with the unresolved text. |
| EnrichSpec.UriText | core/camel-core-processor/src/main/java/org/apache/camel/processor/PollEnricher.java:506-515 | A string recipient gives `Trim` of it, that is `String.trim`. An endpoint gives its key. Any other object gives what the type converter makes of it. |
| EnrichSpec.Evaluate | core/camel-core-processor/src/main/java/org/apache/camel/processor/PollEnricher.java:265 | An enricher without an expression fails with a null dereference. Otherwise the recipient is what the expression evaluates to, a failure included. |
| EnrichSpec.StaticUri | core/camel-core-processor/src/main/java/org/apache/camel/processor/PollEnricher.java:266-283 | Without an optimiser there is no static URI. A failure resolving the recipient's URI is the result. A scheme that is not the optimiser's gives none. With a matching scheme, a failure of `prepare` is the result, a null entry gives none, and a prepared entry gives whatever `resolveStaticUri` answers for it, a failure included. Conversely, a static URI comes only from a matching scheme and a prepared entry. |
| EnrichSpec.Target | core/camel-core-processor/src/main/java/org/apache/camel/processor/PollEnricher.java:264-285 | An evaluation failure or an optimisation failure is the result. Without a static URI, the target is the evaluated recipient, prepared. With one, it is the static URI as a string recipient, prepared. |
| EnrichSpec.Acquire | core/camel-core-processor/src/main/java/org/apache/camel/processor/PollEnricher.java:261-315 | There is no target iff the prepared recipient is null. A failure to evaluate, optimise, prepare, resolve or acquire is the result. When every step succeeds, a consumer is lent. Its endpoint is the existing one or the resolved one. The prototype flag holds iff cacheSize < 0 and no endpoint existed. The consumer is the one the cache gave for that endpoint. |
| EnrichSpec.PrepareResult | core/camel-core-processor/src/main/java/org/apache/camel/processor/PollEnricher.java:490-494 | An InOut exchange gets its in message as its out message. An InOnly exchange is unchanged. Nothing but the out message changes. |
| EnrichSpec.CopyAggregation | core/camel-core-processor/src/main/java/org/apache/camel/processor/PollEnricher.java:620-631 | The pattern is kept. With a new exchange, the message and failure come from the new exchange. Without one, the body becomes null, the in headers are kept, the out message is cleared and nothing else changes. |
| EnrichSpec.RestoreFailure | core/camel-core-processor/src/main/java/org/apache/camel/processor/PollEnricher.java:416-432 | The cause is set and the exhausted marker is cleared. Each redelivery header reads as before the poll when it was set then, and is untouched otherwise. Every other header, the body, pattern, properties and variables are unchanged. |
| EnrichSpec.RestoreHeader | core/camel-core-processor/src/main/java/org/apache/camel/processor/PollEnricher.java:423-431 | The header reads as before the poll when it was set then, and is untouched otherwise. Every other header, the body and everything outside the current message are unchanged. |
| EnrichSpec.StoreVariable | core/camel-core-processor/src/main/java/org/apache/camel/processor/PollEnricher.java:399-405 | The pattern and completions are kept. When the result is to go into the variable, the variable holds the aggregated message, the current message is the saved one, and the other variables, the properties, the failure and the exhausted marker are as the strategy left them. Otherwise nothing changes. |
| EnrichSpec.Aggregation | core/camel-core-processor/src/main/java/org/apache/camel/processor/PollEnricher.java:386-413 | The strategy is called iff the resource is not a failure to be copied as it is. Without the strategy, the failed resource is copied onto the exchange. Only a configured strategy can throw. The pattern changes only when a configured strategy returns the original exchange, and never when the strategy keeps the pattern of any original it returns. |
| EnrichSpec.Aggregate | core/camel-core-processor/src/main/java/org/apache/camel/processor/PollEnricher.java:397 | The copy strategy returns the original exchange changed as `CopyAggregation` says and never throws. A configured strategy's answer is kept: the original, another exchange, null, or what it threw. |
| EnrichSpec.Handover | core/camel-core-processor/src/main/java/org/apache/camel/processor/PollEnricher.java:408-411 | The resource's completions are appended to the exchange's, and nothing else changes. Without a resource nothing changes. |
| EnrichSpec.AfterPoll | core/camel-core-processor/src/main/java/org/apache/camel/processor/PollEnricher.java:359-441 | The pattern is kept unless a configured strategy was called. An aggregation failure ends up wrapped as "Error occurred during aggregation". Otherwise, unless the header copy for variableReceive failed, the endpoint property holds the URI of the consumer's endpoint. |
| EnrichSpec.PollConsumer | core/camel-core-processor/src/main/java/org/apache/camel/processor/PollEnricher.java:317-357 | The poll is recorded with the endpoint, consumer and prototype flag, the timeout's mode and the dynamic overload. A poll that throws is recorded wrapped as "Error during poll" and nothing is aggregated. |
| EnrichSpec.Outcome | core/camel-core-processor/src/main/java/org/apache/camel/processor/PollEnricher.java:247-445 | A consumer is polled only after the pre-check passed and a consumer was lent for the resolved endpoint. When nothing is polled, the strategy is not called and at most the exchange's failure changes. |
| Exchanges.ExchangeState.CopyResultsPreservePattern | core/camel-core-processor/src/main/java/org/apache/camel/processor/PollEnricher.java:390 | The pattern is kept. The message, failure and exhausted marker come from the source. Properties and variables are merged, with the source's winning. Completions are untouched. |
| Uris.Trim | core/camel-core-processor/src/main/java/org/apache/camel/processor/PollEnricher.java:508-509 | No character at or below space is left at either end. The result is empty iff the string was all such characters. A string already trimmed is returned as is. |
| Uris.TrimIsInfix | core/camel-core-processor/src/main/java/org/apache/camel/processor/PollEnricher.java:508-509 | The trimmed string is a contiguous slice of the original, and everything cut off on either side is whitespace. |
| Uris.TrimIdempotent | core/camel-core-processor/src/main/java/org/apache/camel/processor/PollEnricher.java:509 | Trimming a string twice gives what trimming it once gives. |
| Exchanges.ExchangeState.PrepareAggregation | core/camel-core-processor/src/main/java/org/apache/camel/processor/PollEnricher.java:395 | The out message is cleared and the current message stays the same; nothing else changes. |
| Uris.ResolveScheme | core/camel-core-processor/src/main/java/org/apache/camel/processor/PollEnricher.java:527-529 | The scheme is the colon-free text before the first ':'. A null URI or one without ':' has no scheme. |
| EnrichProperties.PreCheckFailureRecorded | core/camel-core-processor/src/main/java/org/apache/camel/processor/PollEnricher.java:248-254 | A failed pre-check is recorded wrapped as "Error during pre poll check". Nothing is polled and nothing else changes. |
| EnrichProperties.PollingOnlyAfterAcquisition | core/camel-core-processor/src/main/java/org/apache/camel/processor/PollEnricher.java:294-339 | A consumer is polled iff the pre-check passed and a consumer was borrowed. The poll uses that endpoint and consumer, in the timeout's mode. The exchange-aware overload is used iff the consumer is dynamic. |
| EnrichProperties.PrototypeOnlyForNegativeCacheSize | core/camel-core-processor/src/main/java/org/apache/camel/processor/PollEnricher.java:263-301 | The polled endpoint is a prototype iff cacheSize < 0 and the target was not an existing endpoint. The consumer is the cache's for that endpoint. |
| EnrichProperties.ReceiveModeChosenByTimeout | core/camel-core-processor/src/main/java/org/apache/camel/processor/PollEnricher.java:327-339 | A negative timeout blocks. Zero receives without waiting. A positive timeout waits exactly that long. |
| EnrichProperties.MissingTargetLeavesExchangeUnchanged | core/camel-core-processor/src/main/java/org/apache/camel/processor/PollEnricher.java:284-293 | With a null prepared target, nothing is resolved or polled, and the exchange is unchanged. |
| EnrichProperties.InvalidEndpointPolicy | core/camel-core-processor/src/main/java/org/apache/camel/processor/PollEnricher.java:305-315 | A failure to evaluate, resolve or acquire stops before polling. It is set on the exchange unless invalid endpoints are ignored, and then the exchange is unchanged. |
| EnrichProperties.ExpressionlessEnricherFails | core/camel-core-processor/src/main/java/org/apache/camel/processor/PollEnricher.java:264-315 | Without an expression, processing fails with a null dereference under the invalid-endpoint policy. |
| EnrichProperties.PollFailureRecorded | core/camel-core-processor/src/main/java/org/apache/camel/processor/PollEnricher.java:346-349 | A poll that throws is recorded wrapped as "Error during poll". Nothing else on the exchange changes and no aggregation happens. |
| EnrichProperties.HeaderCopyFailureRecorded | core/camel-core-processor/src/main/java/org/apache/camel/processor/PollEnricher.java:374-384 | A failure copying the headers for variableReceive is set as it is, and nothing is aggregated. |
| EnrichProperties.FailedResourceCopiedWithoutStrategy | core/camel-core-processor/src/main/java/org/apache/camel/processor/PollEnricher.java:387-390 | A failed resource without aggregateOnException is not aggregated. Its body and failure are copied and the pattern is kept. The outcome is the same whatever aggregation strategy is configured. |
| EnrichProperties.CopyStrategyNeverFails | core/camel-core-processor/src/main/java/org/apache/camel/processor/PollEnricher.java:617-631 | Aggregation with the default strategy never throws. |
| EnrichProperties.AggregationFailureRecorded | core/camel-core-processor/src/main/java/org/apache/camel/processor/PollEnricher.java:437-441 | What the strategy throws is recorded wrapped as "Error occurred during aggregation". |
| EnrichProperties.BridgedFailureRestored | core/camel-core-processor/src/main/java/org/apache/camel/processor/PollEnricher.java:359-432 | When bridged, the resource's failure is set, the exhausted marker is cleared and the three redelivery headers are restored. Without bridging, the exchange is the aggregated one with the endpoint property set. |
| EnrichProperties.PolledEndpointRecorded | core/camel-core-processor/src/main/java/org/apache/camel/processor/PollEnricher.java:435 | A completed enrichment sets the endpoint property to the consumer's endpoint URI. The strategy was called iff the resource was not a failure being copied. |
| EnrichProperties.PatternPreserved | core/camel-core-processor/src/main/java/org/apache/camel/processor/PollEnricher.java:247-445 | For all inputs, process keeps the exchange pattern when the strategy never changes the pattern of an original it returns; the copy strategy is one such strategy. For any strategy, the pattern can change only when a configured strategy was called. |
| EnrichProperties.AggregationAppliesStrategyResult | core/camel-core-processor/src/main/java/org/apache/camel/processor/PollEnricher.java:395-411 | For each answer of the strategy: a throw or null leaves the prepared exchange, with the throw reported. Another exchange has its message and failure copied over after the variable is stored. Its properties and variables are merged into the original's, so a stored variable reaches the original, and the pattern is kept. A returned original stays as the strategy left it after the variable is stored, that variable included. In both of these cases, the resource's completions are handed over after the exchange's own. |
| EnrichProperties.AcquireIgnoresStrategy | core/camel-core-processor/src/main/java/org/apache/camel/processor/PollEnricher.java:261-315 | Resolving the endpoint and borrowing a consumer do not depend on the aggregation strategy. |
| EnrichProperties.CopyAggregationIdempotent | core/camel-core-processor/src/main/java/org/apache/camel/processor/PollEnricher.java:620-631 | Copying the same result twice gives the same exchange as copying it once. |
| EnrichProperties.CopyAggregationIgnoresPriorBody | core/camel-core-processor/src/main/java/org/apache/camel/processor/PollEnricher.java:621-622 | With a new exchange, the copied message does not depend on the old exchange's message. |
| EnrichProperties.NothingPolledClearsBody | core/camel-core-processor/src/main/java/org/apache/camel/processor/PollEnricher.java:620-631 | With the copy strategy and no variableReceive, when nothing was received, the body becomes null. The headers are those of the prepared message, and the failure is unchanged. |
| EnrichProperties.ResourceBodyCopied | core/camel-core-processor/src/main/java/org/apache/camel/processor/PollEnricher.java:386-432 | With the copy strategy and no variableReceive, the exchange ends with the received body and failure. |
| EnrichProperties.ReceivedMessageStoredInVariable | core/camel-core-processor/src/main/java/org/apache/camel/processor/PollEnricher.java:399-405 | Suppose the copy strategy is used with variableReceive, the resource either did not fail or aggregateOnException is set, and the result is to go into the variable. Then the variable holds the received message and the exchange keeps its own body. |
| EnrichProperties.ResolveUriIgnoresSurroundingWhitespace | core/camel-core-processor/src/main/java/org/apache/camel/processor/PollEnricher.java:507-509 | Whitespace around a string recipient makes no difference to the URI it resolves to. |
| EnrichProperties.ResolveUriFollowsText | core/camel-core-processor/src/main/java/org/apache/camel/processor/PollEnricher.java:516-522 | Two recipients with the same URI text resolve to the same URI, or fail alike. |
| EnrichProperties.ResolveUriOfEndpointIgnoresConverter | core/camel-core-processor/src/main/java/org/apache/camel/processor/PollEnricher.java:510-511 | An endpoint recipient resolves through its key. The type converter plays no part, and the result succeeds iff placeholder resolution of the key does. |
| EnrichProperties.NoRewriteWithoutMatchingScheme | core/camel-core-processor/src/main/java/org/apache/camel/processor/PollEnricher.java:266-285 | Without an optimiser, or when the recipient's scheme is not the optimiser's, the target is the evaluated recipient, prepared. |
| EnrichProperties.RewriteToStaticUri | core/camel-core-processor/src/main/java/org/apache/camel/processor/PollEnricher.java:266-285 | With a matching scheme, an entry prepared by the optimiser and a static URI resolved from it, the target is that static URI as a string recipient, prepared. |

## Left out

- The consumer cache's internals are not modelled: lookup, LRU eviction and utilisation statistics. Only what it hands out, and the acquire/release bookkeeping, are modelled.
- Blocking and timing of the receive calls, and thread safety, are not modelled. A poll is an oracle that returns an exchange, nothing, or a failure.
- `isBridgeErrorHandler`'s descent into consumer and handler classes is not modelled. It is a flag on the consumer.
- Type conversion, placeholder resolution, `prepareRecipient`, `getExistingEndpoint` and endpoint resolution are foreign calls. So are `ExchangeHelper.shouldSetVariableResult` and the headers-map factory. All of them are context functions.
- `ExchangeHelper.copyResultsPreservePattern`, `prepareAggregation` and `resolveScheme` are not part of this model. Each follows a stated rule:
  - copyResultsPreservePattern: the result goes to the out message only for an InOut target when the source has one.
  - prepareAggregation: it moves an out message to the in message.
  - resolveScheme: the scheme is the text before the first ':'.
- Processor.PollEnricher.Merge: when the strategy returns the original exchange, `copyResultsPreservePattern` of that exchange onto itself is assumed to change nothing. `ExchangeHelper` is not part of this model. If that helper, given the same exchange twice, copies the in message to an out message for an out-capable exchange that has no out message and no failure, then an InOut exchange ends with an out message where the model has none.
- Processor.PollEnricher.Merge: a configured strategy that returns another exchange, returns null or throws is modelled as leaving the original exchange untouched. Changes it makes to the original in place in those cases are not captured. Only when it returns the original is its in-place change modelled.
- Processor.PollEnricher.Merge: within the last try block, only the aggregation strategy can throw. The other calls there are treated as total: `shouldSetVariableResult`, storing the variable, `copyResultsPreservePattern`, `handoverCompletions` and `consumer.getEndpoint()`. Their failures, caught and wrapped as an aggregation failure in the code, are not modelled.
- EnrichProperties.PatternPreserved: the exchange pattern is promised only for a strategy that keeps the pattern of any original exchange it returns. A configured strategy that changes the pattern of the original in place and returns it keeps that change, because the copy of that exchange onto itself is assumed to change nothing (see Merge above).
- Processor.PollEnricher.Process: releasing the consumer and stopping a prototype endpoint, in the `finally` block at lines 350-356, are assumed not to throw. In the code, such a throw escapes `process`, and on the success path the `done(true)` at line 443 is then skipped. "Exactly one `done(true)`" holds only under this assumption.
- Processor.PollEnricher.Process: in the path where the poll throws, `done` is called before the consumer is released. The contract states both effects but not their order.
- Processor.PollEnricher.Process: stopping and shutting down a prototype endpoint is reported through the returned endpoint, not modelled as a service state change.
- The lifecycle hooks `doInit`, `doStart`, `doStop` and `doShutdown`, the lookup of the optimiser by scheme, and logging are not modelled. The optimiser is a field set from outside.
- Getters and setters are not modelled, and neither are `toString` or `getId`.
- Integer widths are not modelled: the timeout is a Java `long` and the cache size an `int`. Only their sign is used, so no overflow matters.
