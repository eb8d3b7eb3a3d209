/**
 * What the poll enricher promises, stated and proved about `EnrichSpec.Outcome`, the
 * function the processor's process method is proved to follow.
 */
module EnrichProperties {
  import opened Results
  import opened Exchanges
  import opened Consumers
  import opened Uris
  import opened EnrichSpec

  /** The pre-check passed, a consumer was borrowed and polling it gave `result`. */
  predicate Received(c: Config, x: ExchangeState, ctx: Context, consumer: Consumer, result: PollResult) {
    && ctx.preCheckPoll(x).None?
    && Acquire(c, x, ctx).Success? && Acquire(c, x, ctx).value.Lent?
    && Acquire(c, x, ctx).value.consumer == consumer
    && ctx.receive(consumer, ReceiveCall(SelectMode(c.timeout), consumer.dynamic)) == result
  }

  /** Copying the original message's headers, needed only for variableReceive, did not throw. */
  predicate HeadersCopied(c: Config, ctx: Context, x: ExchangeState) {
    c.variableReceive.None? || ctx.copyHeaders(x.CurrentMessage().headers).None?
  }

  /** The aggregation step of a run whose poll gave `resource`. */
  function MergeOf(c: Config, ctx: Context, x: ExchangeState, resource: Option<ExchangeState>): Merged {
    Aggregation(c, ctx, x, resource, x.CurrentMessage())
  }

  /** A run whose poll gave a resource or nothing is what `AfterPoll` makes of it. */
  lemma PolledRun(c: Config, x: ExchangeState, ctx: Context, consumer: Consumer, resource: Option<ExchangeState>)
    requires Received(c, x, ctx, consumer, Polled(resource))
    ensures var lent := Acquire(c, x, ctx).value;
            var m := AfterPoll(c, ctx, x, consumer, resource);
            Outcome(c, x, ctx)
              == Run(m.state, Some(Polling(lent.endpoint, consumer, lent.prototype, ReceiveCall(SelectMode(c.timeout), consumer.dynamic))),
                     m.strategyInvoked)
  {
    var lent := Acquire(c, x, ctx).value;
    assert Outcome(c, x, ctx) == PollConsumer(c, x, ctx, lent.endpoint, consumer, lent.prototype);
  }

  /** A failed pre-check is recorded, wrapped, and nothing is polled. */
  lemma PreCheckFailureRecorded(c: Config, x: ExchangeState, ctx: Context)
    requires ctx.preCheckPoll(x).Some?
    ensures var run := Outcome(c, x, ctx);
            && run.polling.None? && !run.strategyInvoked
            && run.after == x.(exception := Some(ExchangeError(PRE_CHECK_FAILED, ctx.preCheckPoll(x).value)))
  {
  }

  /**
   * A consumer is polled exactly when the pre-check passed and one was borrowed for the
   * resolved endpoint; the poll uses that endpoint and consumer, in the mode the timeout
   * selects, with the exchange exactly when the consumer is a dynamic polling consumer.
   */
  lemma PollingOnlyAfterAcquisition(c: Config, x: ExchangeState, ctx: Context)
    ensures Outcome(c, x, ctx).polling.Some? <==>
              ctx.preCheckPoll(x).None? && Acquire(c, x, ctx).Success? && Acquire(c, x, ctx).value.Lent?
    ensures Outcome(c, x, ctx).polling.Some? ==>
              var p := Outcome(c, x, ctx).polling.value;
              && Acquire(c, x, ctx) == Success(Lent(p.endpoint, p.consumer, p.prototype))
              && p.call == ReceiveCall(SelectMode(c.timeout), p.consumer.dynamic)
  {
  }

  /**
   * The endpoint polled is a prototype exactly when the cache size is negative and the
   * target is not an endpoint already; the consumer is the one the cache gave for it.
   */
  lemma PrototypeOnlyForNegativeCacheSize(c: Config, x: ExchangeState, ctx: Context)
    requires Outcome(c, x, ctx).polling.Some?
    ensures Target(c, x, ctx).Success? && Target(c, x, ctx).value.Some?
    ensures var p := Outcome(c, x, ctx).polling.value;
            var target := Target(c, x, ctx).value.value;
            && (p.prototype <==> c.cacheSize < 0 && ctx.existingEndpoint(target).None?)
            && ctx.acquire(p.endpoint) == Success(p.consumer)
  {
  }

  /** A negative timeout blocks, zero does not wait, a positive timeout waits that many milliseconds. */
  lemma ReceiveModeChosenByTimeout(c: Config, x: ExchangeState, ctx: Context)
    requires Outcome(c, x, ctx).polling.Some?
    ensures var mode := Outcome(c, x, ctx).polling.value.call.mode;
            && (c.timeout < 0 ==> mode == Blocking)
            && (c.timeout == 0 ==> mode == NoWait)
            && (c.timeout > 0 ==> mode == Timed(c.timeout))
  {
  }

  /** Without a target there is nothing to poll, and the exchange is left as it was. */
  lemma MissingTargetLeavesExchangeUnchanged(c: Config, x: ExchangeState, ctx: Context)
    requires ctx.preCheckPoll(x).None? && Target(c, x, ctx) == Success(None)
    ensures Outcome(c, x, ctx) == Run(x, None, false)
  {
  }

  /**
   * When resolving the endpoint or borrowing its consumer fails, nothing is polled; the
   * failure is set on the exchange unless invalid endpoints are to be ignored, in which case
   * the exchange is left as it was.
   */
  lemma InvalidEndpointPolicy(c: Config, x: ExchangeState, ctx: Context)
    requires ctx.preCheckPoll(x).None? && Acquire(c, x, ctx).Failure?
    ensures Outcome(c, x, ctx).polling.None?
    ensures c.ignoreInvalidEndpoint ==> Outcome(c, x, ctx).after == x
    ensures !c.ignoreInvalidEndpoint ==> Outcome(c, x, ctx).after == x.(exception := Some(Acquire(c, x, ctx).error))
  {
  }

  /** An enricher built without an expression fails with a null dereference before polling. */
  lemma ExpressionlessEnricherFails(c: Config, x: ExchangeState, ctx: Context)
    requires c.expression.None? && ctx.preCheckPoll(x).None?
    ensures Outcome(c, x, ctx).polling.None?
    ensures Outcome(c, x, ctx).after == if c.ignoreInvalidEndpoint then x else x.(exception := Some(NullReference))
  {
  }

  /** A poll that throws is recorded, wrapped, on the otherwise unchanged exchange. */
  lemma PollFailureRecorded(c: Config, x: ExchangeState, ctx: Context, consumer: Consumer, e: Failure)
    requires Received(c, x, ctx, consumer, PollThrew(e))
    ensures Outcome(c, x, ctx).polling.Some? && !Outcome(c, x, ctx).strategyInvoked
    ensures Outcome(c, x, ctx).after == x.(exception := Some(ExchangeError(POLL_FAILED, e)))
  {
  }

  /** When copying the headers for variableReceive throws, that failure is set and nothing is aggregated. */
  lemma HeaderCopyFailureRecorded(c: Config, x: ExchangeState, ctx: Context, consumer: Consumer,
                                  resource: Option<ExchangeState>, e: Failure)
    requires Received(c, x, ctx, consumer, Polled(resource))
    requires c.variableReceive.Some? && ctx.copyHeaders(x.CurrentMessage().headers) == Some(e)
    ensures Outcome(c, x, ctx).after == x.(exception := Some(e))
    ensures !Outcome(c, x, ctx).strategyInvoked
  {
  }

  /**
   * A failed resource exchange is not aggregated unless aggregateOnException is set: its
   * result and failure are copied onto the exchange, which keeps its pattern, and the
   * outcome is the same whatever aggregation strategy `s` is configured.
   */
  lemma FailedResourceCopiedWithoutStrategy(c: Config, x: ExchangeState, ctx: Context, consumer: Consumer,
                                            r: ExchangeState, s: Strategy)
    requires Received(c, x, ctx, consumer, Polled(Some(r))) && HeadersCopied(c, ctx, x)
    requires r.IsFailed() && !c.aggregateOnException
    ensures var run := Outcome(c, x, ctx);
            && !run.strategyInvoked
            && run.after.pattern == x.pattern
            && run.after.exception == r.exception
            && run.after.CurrentMessage().body == r.CurrentMessage().body
    ensures Outcome(c.(strategy := s), x, ctx) == Outcome(c, x, ctx)
  {
    PolledRun(c, x, ctx, consumer, Some(r));
    FailedResourceCopied(c, ctx, x, consumer, r);
    AcquireIgnoresStrategy(c, x, ctx, s);
    PolledRun(c.(strategy := s), x, ctx, consumer, Some(r));
    FailedResourceIgnoresStrategy(c, ctx, x, consumer, r, s);
  }

  /** The step of process that copies a failed resource onto the exchange. */
  lemma FailedResourceCopied(c: Config, ctx: Context, x: ExchangeState, consumer: Consumer, r: ExchangeState)
    requires HeadersCopied(c, ctx, x)
    requires r.IsFailed() && !c.aggregateOnException
    ensures var m := AfterPoll(c, ctx, x, consumer, Some(r));
            && !m.strategyInvoked
            && m.state.pattern == x.pattern
            && m.state.exception == r.exception
            && m.state.CurrentMessage().body == r.CurrentMessage().body
  {
    var merged := x.CopyResultsPreservePattern(r);
    assert Aggregation(c, ctx, x, Some(r), x.CurrentMessage()) == Merged(merged, false, None);
    if consumer.bridgesErrorHandler {
      var restored := RestoreFailure(merged, r.exception.value, x.inMessage.headers);
      assert AfterPoll(c, ctx, x, consumer, Some(r)).state
          == restored.(properties := restored.properties[TO_ENDPOINT := Text(consumer.endpoint.uri)]);
    } else {
      assert AfterPoll(c, ctx, x, consumer, Some(r)).state
          == merged.(properties := merged.properties[TO_ENDPOINT := Text(consumer.endpoint.uri)]);
    }
  }

  /** Resolving the endpoint and borrowing a consumer do not depend on the aggregation strategy. */
  lemma AcquireIgnoresStrategy(c: Config, x: ExchangeState, ctx: Context, s: Strategy)
    ensures Acquire(c.(strategy := s), x, ctx) == Acquire(c, x, ctx)
  {
    var other := c.(strategy := s);
    assert Evaluate(other, x) == Evaluate(c, x);
    if Evaluate(c, x).Success? {
      assert StaticUri(other, x, ctx, Evaluate(c, x).value) == StaticUri(c, x, ctx, Evaluate(c, x).value);
    }
    assert Target(other, x, ctx) == Target(c, x, ctx);
  }

  /** After a failed poll that is copied as it is, the strategy plays no part. */
  lemma FailedResourceIgnoresStrategy(c: Config, ctx: Context, x: ExchangeState, consumer: Consumer, r: ExchangeState, s: Strategy)
    requires r.IsFailed() && !c.aggregateOnException
    ensures AfterPoll(c.(strategy := s), ctx, x, consumer, Some(r)) == AfterPoll(c, ctx, x, consumer, Some(r))
  {
    assert Aggregation(c.(strategy := s), ctx, x, Some(r), x.CurrentMessage()) == Aggregation(c, ctx, x, Some(r), x.CurrentMessage());
  }

  /** The copy strategy never throws. */
  lemma CopyStrategyNeverFails(c: Config, ctx: Context, x: ExchangeState, resource: Option<ExchangeState>, saved: Message)
    requires c.strategy.CopyStrategy?
    ensures Aggregation(c, ctx, x, resource, saved).failure.None?
  {
  }

  /** A failure thrown by the aggregation strategy is set on the exchange, wrapped. */
  lemma AggregationFailureRecorded(c: Config, x: ExchangeState, ctx: Context, consumer: Consumer,
                                   resource: Option<ExchangeState>, e: Failure)
    requires Received(c, x, ctx, consumer, Polled(resource)) && HeadersCopied(c, ctx, x)
    requires MergeOf(c, ctx, x, resource).failure == Some(e)
    ensures Outcome(c, x, ctx).strategyInvoked
    ensures Outcome(c, x, ctx).after.exception == Some(ExchangeError(AGGREGATION_FAILED, e))
  {
  }

  /**
   * When the consumer bridges the route's error handler and the resource carries a failure,
   * that failure ends up on the exchange, the redelivery-exhausted marker is cleared and the
   * redelivery headers read as before the poll. A consumer that does not bridge leaves the
   * aggregated exchange's failure alone.
   */
  lemma BridgedFailureRestored(c: Config, x: ExchangeState, ctx: Context, consumer: Consumer, r: ExchangeState)
    requires Received(c, x, ctx, consumer, Polled(Some(r))) && HeadersCopied(c, ctx, x)
    requires MergeOf(c, ctx, x, Some(r)).failure.None?
    ensures var after := Outcome(c, x, ctx).after;
            var merged := MergeOf(c, ctx, x, Some(r)).state;
            && (consumer.bridgesErrorHandler && r.IsFailed() ==>
                  && after.exception == r.exception && !after.redeliveryExhausted
                  && HeaderRestored(after, merged, REDELIVERED, x.inMessage.headers)
                  && HeaderRestored(after, merged, REDELIVERY_COUNTER, x.inMessage.headers)
                  && HeaderRestored(after, merged, REDELIVERY_MAX_COUNTER, x.inMessage.headers))
            && (!consumer.bridgesErrorHandler ==>
                  after == merged.(properties := merged.properties[TO_ENDPOINT := Text(consumer.endpoint.uri)]))
  {
    PolledRun(c, x, ctx, consumer, Some(r));
    AfterPollRestoresBridgedFailure(c, ctx, x, consumer, r);
  }

  /** The step of process after a successful aggregation: restore a bridged failure, record the endpoint. */
  lemma AfterPollRestoresBridgedFailure(c: Config, ctx: Context, x: ExchangeState, consumer: Consumer, r: ExchangeState)
    requires HeadersCopied(c, ctx, x)
    requires MergeOf(c, ctx, x, Some(r)).failure.None?
    ensures var merged := MergeOf(c, ctx, x, Some(r)).state;
            var restored := if consumer.bridgesErrorHandler && r.exception.Some? then RestoreFailure(merged, r.exception.value, x.inMessage.headers)
                            else merged;
            AfterPoll(c, ctx, x, consumer, Some(r)).state
              == restored.(properties := restored.properties[TO_ENDPOINT := Text(consumer.endpoint.uri)])
  {
  }

  /** A successful enrichment records the URI of the endpoint polled. */
  lemma PolledEndpointRecorded(c: Config, x: ExchangeState, ctx: Context, consumer: Consumer, resource: Option<ExchangeState>)
    requires Received(c, x, ctx, consumer, Polled(resource)) && HeadersCopied(c, ctx, x)
    requires MergeOf(c, ctx, x, resource).failure.None?
    ensures TO_ENDPOINT in Outcome(c, x, ctx).after.properties
    ensures Outcome(c, x, ctx).after.properties[TO_ENDPOINT] == Text(consumer.endpoint.uri)
    ensures Outcome(c, x, ctx).strategyInvoked <==> c.aggregateOnException || resource.None? || !resource.value.IsFailed()
  {
  }

  /**
   * What becomes of each answer of the strategy: a throw or null leaves the prepared
   * exchange; another exchange has its message and failure copied over after the variable
   * is stored, with the pattern kept; the original stays as the strategy left it. Either way
   * the resource's completions are handed over after the exchange's own.
   */
  lemma AggregationAppliesStrategyResult(c: Config, ctx: Context, x: ExchangeState, resource: Option<ExchangeState>, saved: Message)
    ensures var m := Aggregation(c, ctx, x, resource, saved);
            m.strategyInvoked ==>
              var prepared := PrepareResult(x).PrepareAggregation();
              var newExchange := if resource.Some? then Some(resource.value.PrepareAggregation()) else None;
              var result := Aggregate(c.strategy, prepared, newExchange);
              && (result.AggregationThrew? ==> m.state == prepared && m.failure == Some(result.error))
              && (result.NoExchange? ==> m.state == prepared && m.failure.None?)
              && (result.OtherExchange? ==>
                    var stored := StoreVariable(c, ctx, result.state, saved);
                    && m.failure.None? && m.state.pattern == x.pattern
                    && m.state.CurrentMessage() == stored.CurrentMessage()
                    && m.state.exception == stored.exception
                    && m.state.variables == prepared.variables + stored.variables
                    && m.state.properties == prepared.properties + stored.properties
                    && m.state.completions == x.completions + (if resource.Some? then resource.value.completions else []))
              && (result.SameExchange? ==>
                    var stored := StoreVariable(c, ctx, result.state, saved);
                    && m.failure.None? && m.state.pattern == result.state.pattern
                    && m.state.CurrentMessage() == stored.CurrentMessage()
                    && m.state.exception == stored.exception
                    && m.state.variables == stored.variables
                    && m.state.completions == result.state.completions + (if resource.Some? then resource.value.completions else []))
  {
  }

  /**
   * Whatever happens, the exchange keeps its pattern when the strategy keeps the pattern of
   * any original exchange it returns; in any case only a called configured strategy can
   * change it.
   */
  lemma PatternPreserved(c: Config, x: ExchangeState, ctx: Context)
    ensures KeepsOriginalPattern(c.strategy) ==> Outcome(c, x, ctx).after.pattern == x.pattern
    ensures Outcome(c, x, ctx).after.pattern == x.pattern
            || (c.strategy.CustomStrategy? && Outcome(c, x, ctx).strategyInvoked)
  {
  }

  /** Aggregating the same resource twice with the copy strategy changes nothing more. */
  lemma CopyAggregationIdempotent(oldExchange: ExchangeState, newExchange: Option<ExchangeState>)
    ensures CopyAggregation(CopyAggregation(oldExchange, newExchange), newExchange) == CopyAggregation(oldExchange, newExchange)
  {
  }

  /** With the copy strategy the body of the original exchange never survives a poll that returned something. */
  lemma CopyAggregationIgnoresPriorBody(oldExchange: ExchangeState, other: ExchangeState, newExchange: ExchangeState)
    ensures CopyAggregation(oldExchange, Some(newExchange)).CurrentMessage()
         == CopyAggregation(other, Some(newExchange)).CurrentMessage()
  {
  }

  /**
   * With the copy strategy, when the poll gave nothing the exchange keeps the headers of its
   * message as prepared for aggregation, loses its body and keeps its failure.
   */
  lemma NothingPolledClearsBody(c: Config, x: ExchangeState, ctx: Context, consumer: Consumer)
    requires Received(c, x, ctx, consumer, Polled(None))
    requires c.strategy.CopyStrategy? && c.variableReceive.None?
    ensures var after := Outcome(c, x, ctx).after;
            && after.CurrentMessage()
               == Message(None, if x.pattern.IsOutCapable() then x.inMessage.headers else x.CurrentMessage().headers)
            && after.exception == x.exception
            && Outcome(c, x, ctx).strategyInvoked
  {
  }

  /**
   * With the copy strategy and no variableReceive, the exchange ends with the body and the
   * failure of the message received, whether or not it was aggregated.
   */
  lemma ResourceBodyCopied(c: Config, x: ExchangeState, ctx: Context, consumer: Consumer, r: ExchangeState)
    requires Received(c, x, ctx, consumer, Polled(Some(r)))
    requires c.strategy.CopyStrategy? && c.variableReceive.None?
    ensures var after := Outcome(c, x, ctx).after;
            && after.CurrentMessage().body == r.CurrentMessage().body
            && after.exception == r.exception
  {
  }

  /**
   * With variableReceive set and the copy strategy, the message received goes into the
   * variable and the exchange keeps the body it had before the poll.
   */
  lemma ReceivedMessageStoredInVariable(c: Config, x: ExchangeState, ctx: Context, consumer: Consumer,
                                        r: ExchangeState, name: string)
    requires Received(c, x, ctx, consumer, Polled(Some(r))) && HeadersCopied(c, ctx, x)
    requires c.strategy.CopyStrategy? && c.variableReceive == Some(name)
    requires c.aggregateOnException || !r.IsFailed()
    requires ctx.shouldSetVariableResult(CopyAggregation(PrepareResult(x).PrepareAggregation(), Some(r.PrepareAggregation())), name)
    ensures var after := Outcome(c, x, ctx).after;
            && name in after.variables && after.variables[name] == r.CurrentMessage()
            && after.CurrentMessage().body == x.CurrentMessage().body
  {
  }

  /** Whitespace around a string recipient makes no difference to the URI it resolves to. */
  lemma ResolveUriIgnoresSurroundingWhitespace(text: string, ctx: Context)
    ensures ResolveUri(Some(RString(Trim(text))), ctx) == ResolveUri(Some(RString(text)), ctx)
  {
    var trimmed := Trim(text);
    assert UriText(RString(trimmed), ctx) == UriText(RString(text), ctx) by {
      TrimIdempotent(text);
    }
    ResolveUriFollowsText(RString(trimmed), RString(text), ctx);
  }

  /** Two recipients with the same URI text resolve alike. */
  lemma ResolveUriFollowsText(a: Recipient, b: Recipient, ctx: Context)
    requires UriText(a, ctx) == UriText(b, ctx)
    ensures ResolveUri(Some(a), ctx) == ResolveUri(Some(b), ctx)
  {
  }

  /** An endpoint recipient resolves through its key, without the type converter. */
  lemma ResolveUriOfEndpointIgnoresConverter(endpoint: Endpoint, ctx: Context, convert: Value -> Result<string, Failure>)
    ensures ResolveUri(Some(REndpoint(endpoint)), ctx.(convertToString := convert)) == ResolveUri(Some(REndpoint(endpoint)), ctx)
    ensures ResolveUri(Some(REndpoint(endpoint)), ctx).Success? <==> ctx.resolvePlaceholders(endpoint.key).Success?
  {
  }

  /**
   * When the optimiser's scheme matches and it prepares an entry that resolves to a static
   * URI, that URI is polled instead of the evaluated recipient.
   */
  lemma RewriteToStaticUri(c: Config, x: ExchangeState, ctx: Context, entry: DynamicAwareEntry, u: string)
    requires Evaluate(c, x).Success? && c.dynamicAware.Some?
    requires ResolveUri(Evaluate(c, x).value, ctx).Success?
    requires ResolveScheme(ResolveUri(Evaluate(c, x).value, ctx).value) == Some(c.dynamicAware.value.scheme)
    requires c.dynamicAware.value.prepare(x, ResolveUri(Evaluate(c, x).value, ctx).value.value, c.uri) == Success(Some(entry))
    requires c.dynamicAware.value.resolveStaticUri(x, entry) == Success(Some(u))
    ensures Target(c, x, ctx) == ctx.prepareRecipient(Some(RString(u)))
  {
  }

  /**
   * Without an optimiser, or when the recipient's scheme is not the optimiser's, the target
   * is the evaluated recipient, prepared.
   */
  lemma NoRewriteWithoutMatchingScheme(c: Config, x: ExchangeState, ctx: Context)
    requires Evaluate(c, x).Success?
    requires c.dynamicAware.None?
             || (ResolveUri(Evaluate(c, x).value, ctx).Success?
                 && ResolveScheme(ResolveUri(Evaluate(c, x).value, ctx).value) != Some(c.dynamicAware.value.scheme))
    ensures Target(c, x, ctx) == ctx.prepareRecipient(Evaluate(c, x).value)
  {
  }
}
