/**
 * The poll enricher processor: it computes the endpoint to poll, borrows a polling
 * consumer from its consumer cache, polls it in the mode its timeout selects, always
 * returns the consumer, merges the result into the exchange with its aggregation strategy
 * and signals completion through the callback exactly once.
 */
module Processor {
  import opened Results
  import opened Exchanges
  import opened Consumers
  import opened Uris
  import opened EnrichSpec

  /** The strategy the enricher falls back on when none is configured. */
  class CopyAggregationStrategy {

    /**
     * aggregate(oldExchange, newExchange): copies the polled exchange onto the old one, or
     * when nothing was polled clears the old exchange's body, keeping its headers.
     * Returns the old exchange.
     */
    static method Aggregate(oldExchange: Exchange, newExchange: Option<ExchangeState>) returns (r: Exchange)
      modifies oldExchange
      ensures r == oldExchange
      ensures oldExchange.State() == CopyAggregation(old(oldExchange.State()), newExchange)
    {
      if newExchange.Some? {
        oldExchange.CopyResultsPreservePattern(newExchange.value);
      } else {
        oldExchange.SetInBody(None);
        oldExchange.SetOut(None);
      }
      r := oldExchange;
    }
  }

  class PollEnricher {
    const expression: Option<Expression>
    const uri: Option<string>
    var timeout: int
    var aggregateOnException: bool
    var cacheSize: int
    var ignoreInvalidEndpoint: bool
    var variableReceive: Option<string>
    /** The optimiser found by doInit, which is not part of this model. */
    var dynamicAware: Option<DynamicAware>
    var aggregationStrategy: Option<Strategy>
    var consumerCache: ConsumerCache?

    /** An enricher that computes the endpoint to poll with `expression`. */
    constructor (expression: Expression, uri: Option<string>, timeout: int)
      ensures this.expression == Some(expression) && this.uri == uri && this.timeout == timeout
      ensures !aggregateOnException && cacheSize == 0 && !ignoreInvalidEndpoint
      ensures variableReceive.None? && dynamicAware.None? && aggregationStrategy.None? && consumerCache == null
    {
      this.expression, this.uri, this.timeout := Some(expression), uri, timeout;
      aggregateOnException, cacheSize, ignoreInvalidEndpoint := false, 0, false;
      variableReceive, dynamicAware, aggregationStrategy, consumerCache := None, None, None, null;
    }

    /** An enricher given only a URI: its expression is null. */
    constructor FromUri(uri: Option<string>, timeout: int)
      ensures expression.None? && this.uri == uri && this.timeout == timeout
      ensures !aggregateOnException && cacheSize == 0 && !ignoreInvalidEndpoint
      ensures variableReceive.None? && dynamicAware.None? && aggregationStrategy.None? && consumerCache == null
    {
      this.expression, this.uri, this.timeout := None, uri, timeout;
      aggregateOnException, cacheSize, ignoreInvalidEndpoint := false, 0, false;
      variableReceive, dynamicAware, aggregationStrategy, consumerCache := None, None, None, null;
    }

    /** The configuration process works with, once the enricher is built. */
    function Configuration(): Config
      reads this
      requires aggregationStrategy.Some?
    {
      Config(expression, uri, timeout, aggregateOnException, cacheSize, ignoreInvalidEndpoint,
             variableReceive, dynamicAware, aggregationStrategy.value)
    }

    /** doBuild: creates the consumer cache and installs the copy strategy when none is configured. */
    method DoBuild()
      modifies this
      ensures consumerCache != null
      ensures old(consumerCache) == null ==>
                fresh(consumerCache) && consumerCache.cacheSize == cacheSize
                && consumerCache.lent == multiset{} && consumerCache.log == []
      ensures old(consumerCache) != null ==> consumerCache == old(consumerCache)
      ensures old(aggregationStrategy).None? ==> aggregationStrategy.Some? && aggregationStrategy.value.CopyStrategy?
      ensures old(aggregationStrategy).Some? ==> aggregationStrategy == old(aggregationStrategy)
      ensures timeout == old(timeout) && aggregateOnException == old(aggregateOnException)
      ensures cacheSize == old(cacheSize) && ignoreInvalidEndpoint == old(ignoreInvalidEndpoint)
      ensures variableReceive == old(variableReceive) && dynamicAware == old(dynamicAware)
    {
      if consumerCache == null {
        consumerCache := new ConsumerCache(cacheSize);
      }
      if aggregationStrategy.None? {
        aggregationStrategy := Some(CopyStrategy);
      }
    }

    /** prepareResult: an InOut exchange gets its in message copied to its out message. */
    static method PrepareResult(exchange: Exchange)
      modifies exchange
      ensures exchange.State() == EnrichSpec.PrepareResult(old(exchange.State()))
    {
      if exchange.pattern.IsOutCapable() {
        exchange.SetOut(Some(exchange.inMessage));
      }
    }

    /**
     * The first try block of process: evaluates the expression, lets the optimiser rewrite
     * the target, resolves the endpoint and acquires a consumer for it. A failure is
     * returned rather than thrown.
     */
    method AcquireConsumer(x: ExchangeState, ctx: Context) returns (r: Result<Acquisition, Failure>)
      requires aggregationStrategy.Some? && consumerCache != null
      modifies consumerCache
      ensures r == Acquire(Configuration(), x, ctx)
      ensures r.Success? && r.value.Lent? ==>
                && consumerCache.lent == old(consumerCache.lent) + multiset{r.value.consumer}
                && consumerCache.log == old(consumerCache.log) + [Acquired(r.value.endpoint, r.value.consumer)]
      ensures !(r.Success? && r.value.Lent?) ==>
                consumerCache.lent == old(consumerCache.lent) && consumerCache.log == old(consumerCache.log)
    {
      if expression.None? {
        return Failure(NullReference);
      }
      var recipient :- expression.value.evaluate(x);
      var staticUri: Option<string> := None;
      if dynamicAware.Some? {
        var originalUri := uri;
        var resolvedUri :- ResolveUri(recipient, ctx);
        var scheme := ResolveScheme(resolvedUri);
        if scheme == Some(dynamicAware.value.scheme) {
          var entry :- dynamicAware.value.prepare(x, resolvedUri.value, originalUri);
          if entry.Some? {
            staticUri :- dynamicAware.value.resolveStaticUri(x, entry.value);
          }
        }
      }
      var target :- ctx.prepareRecipient(if staticUri.Some? then Some(RString(staticUri.value)) else recipient);
      if target.None? {
        return Success(NoTarget);
      }
      var prototype := cacheSize < 0;
      var endpoint: Endpoint;
      var existing := ctx.existingEndpoint(target.value);
      if existing.None? {
        endpoint :- ctx.resolveEndpoint(target.value, prototype);
      } else {
        endpoint := existing.value;
        // an existing endpoint is never a prototype
        prototype := false;
      }
      var consumer :- consumerCache.AcquirePollingConsumer(endpoint, ctx.acquire(endpoint));
      return Success(Lent(endpoint, consumer, prototype));
    }

    /**
     * The aggregation part of process's last try block. Returns what the aggregation
     * strategy threw, if anything.
     */
    method Merge(exchange: Exchange, resource: Option<ExchangeState>, saved: Message, ctx: Context)
      returns (failure: Option<Failure>)
      requires aggregationStrategy.Some?
      modifies exchange
      ensures var m := Aggregation(Configuration(), ctx, old(exchange.State()), resource, saved);
              exchange.State() == m.state && failure == m.failure
    {
      if !aggregateOnException && resource.Some? && resource.value.IsFailed() {
        // the poll failed: copy its result over without aggregating
        exchange.CopyResultsPreservePattern(resource.value);
        return None;
      }
      PrepareResult(exchange);
      exchange.PrepareAggregation();
      var newExchange := if resource.Some? then Some(resource.value.PrepareAggregation()) else None;
      ghost var prepared := exchange.State();
      var aggregated: Exchange? := null;
      match aggregationStrategy.value {
        case CopyStrategy =>
          aggregated := CopyAggregationStrategy.Aggregate(exchange, newExchange);
        case CustomStrategy(aggregate) =>
          match aggregate(exchange.State(), newExchange) {
            case Threw(e) =>
              return Some(e);
            case ReturnedNull =>
            case ReturnedOriginal(y) =>
              // the strategy changed the original exchange in place and returned it
              exchange.SetState(y);
              aggregated := exchange;
            case Returned(y) =>
              aggregated := new Exchange(y);
          }
      }
      if aggregated != null {
        StoreReceivedInVariable(aggregated, saved, ctx);
        // copying an exchange onto itself changes nothing
        if aggregated != exchange {
          exchange.CopyResultsPreservePattern(aggregated.State());
        }
        if newExchange.Some? {
          exchange.TakeCompletions(newExchange.value);
        }
      }
      return None;
    }

    /**
     * When the received message is to go into the variable `variableReceive`, the aggregated
     * exchange's message is stored there and its message is put back to `saved`.
     */
    method StoreReceivedInVariable(aggregated: Exchange, saved: Message, ctx: Context)
      requires aggregationStrategy.Some?
      modifies aggregated
      ensures aggregated.State() == StoreVariable(Configuration(), ctx, old(aggregated.State()), saved)
    {
      if variableReceive.Some? && ctx.shouldSetVariableResult(aggregated.State(), variableReceive.value) {
        aggregated.SetVariableFromMessage(variableReceive.value);
        aggregated.SetMessageBody(saved.body);
        aggregated.SetMessageHeaders(saved.headers);
      }
    }

    /**
     * process(exchange, callback): enriches the exchange with what the consumer of the
     * computed endpoint receives. Every failure ends up on the exchange; the callback is
     * called exactly once, with true, and process returns true.
     */
    method Process(exchange: Exchange, callback: AsyncCallback, ctx: Context) returns (sync: bool, stopped: Option<Endpoint>)
      requires aggregationStrategy.Some? && consumerCache != null
      modifies exchange, callback, consumerCache
      ensures sync
      ensures callback.doneCalls == old(callback.doneCalls) + [true]
      ensures var run := Outcome(Configuration(), old(exchange.State()), ctx);
              && exchange.State() == run.after
              && consumerCache.log == old(consumerCache.log) + CacheEvents(run)
              && consumerCache.lent == old(consumerCache.lent)
              && stopped == (if run.polling.Some? && run.polling.value.prototype then Some(run.polling.value.endpoint) else None)
    {
      ghost var c, x := Configuration(), exchange.State();
      var preCheck := ctx.preCheckPoll(exchange.State());
      if preCheck.Some? {
        exchange.SetException(Some(ExchangeError(PRE_CHECK_FAILED, preCheck.value)));
        callback.Done(true);
        return true, None;
      }

      var acquisition := AcquireConsumer(exchange.State(), ctx);
      if acquisition.Failure? {
        assert Outcome(c, x, ctx) == Run(if c.ignoreInvalidEndpoint then x else x.(exception := Some(acquisition.error)), None, false);
        if !ignoreInvalidEndpoint {
          exchange.SetException(Some(acquisition.error));
        }
        callback.Done(true);
        return true, None;
      }
      if acquisition.value.NoTarget? {
        // no endpoint to poll from
        callback.Done(true);
        return true, None;
      }
      var endpoint, consumer, prototype := acquisition.value.endpoint, acquisition.value.consumer, acquisition.value.prototype;
      assert Outcome(c, x, ctx) == EnrichSpec.PollConsumer(c, x, ctx, endpoint, consumer, prototype);
      stopped := PollConsumer(exchange, callback, endpoint, consumer, prototype, ctx);
      return true, stopped;
    }

    /**
     * The rest of process once `consumer` has been borrowed for `endpoint`: the poll, the
     * release of the consumer, the stop of a prototype endpoint and the enrichment.
     */
    method PollConsumer(exchange: Exchange, callback: AsyncCallback, endpoint: Endpoint, consumer: Consumer,
                        prototype: bool, ctx: Context) returns (stopped: Option<Endpoint>)
      requires aggregationStrategy.Some? && consumerCache != null
      modifies exchange, callback, consumerCache
      ensures callback.doneCalls == old(callback.doneCalls) + [true]
      ensures exchange.State() == EnrichSpec.PollConsumer(Configuration(), old(exchange.State()), ctx, endpoint, consumer, prototype).after
      ensures consumerCache.log == old(consumerCache.log) + [Released(endpoint, consumer)]
      ensures consumerCache.lent == old(consumerCache.lent) - multiset{consumer}
      ensures stopped == if prototype then Some(endpoint) else None
    {
      var call: ReceiveCall;
      if timeout < 0 {
        call := ReceiveCall(Blocking, consumer.dynamic);
      } else if timeout == 0 {
        call := ReceiveCall(NoWait, consumer.dynamic);
      } else {
        call := ReceiveCall(Timed(timeout), consumer.dynamic);
      }
      var polled := ctx.receive(consumer, call);
      stopped := None;
      if polled.PollThrew? {
        exchange.SetException(Some(ExchangeError(POLL_FAILED, polled.error)));
        callback.Done(true);
        // finally: the consumer goes back to the cache and a prototype endpoint is stopped
        consumerCache.ReleasePollingConsumer(endpoint, consumer);
        if prototype {
          stopped := Some(endpoint);
        }
        return;
      }
      consumerCache.ReleasePollingConsumer(endpoint, consumer);
      if prototype {
        stopped := Some(endpoint);
      }
      Enrich(exchange, consumer, polled.resource, ctx);
      callback.Done(true);
    }

    /**
     * Everything process does after a poll that did not throw: the resource is merged into
     * the exchange, a failure bridged from the consumer is put back on it together with the
     * redelivery stats from before the poll, and the endpoint polled is recorded.
     */
    method Enrich(exchange: Exchange, consumer: Consumer, resource: Option<ExchangeState>, ctx: Context)
      requires aggregationStrategy.Some?
      modifies exchange
      ensures exchange.State() == AfterPoll(Configuration(), ctx, old(exchange.State()), consumer, resource).state
    {
      // remember the current redelivery stats
      var original := exchange.inMessage.headers;
      var cause: Option<Failure> := None;
      if resource.Some? && consumer.bridgesErrorHandler {
        cause := resource.value.exception;
      }

      var saved := exchange.CurrentMessage();
      if variableReceive.Some? {
        var copyFailure := ctx.copyHeaders(saved.headers);
        if copyFailure.Some? {
          exchange.SetException(copyFailure);
          return;
        }
      }

      var failure := Merge(exchange, resource, saved, ctx);
      if failure.Some? {
        exchange.SetException(Some(ExchangeError(AGGREGATION_FAILED, failure.value)));
        return;
      }
      if cause.Some? {
        RestoreCause(exchange, cause.value, original);
      }
      exchange.SetProperty(TO_ENDPOINT, Text(consumer.endpoint.uri));
    }

    /**
     * Puts a failure bridged from the consumer back on the exchange, clears its
     * redelivery-exhausted marker and sets the redelivery headers that were present in
     * `original` back to their values there.
     */
    static method RestoreCause(exchange: Exchange, cause: Failure, original: Headers)
      modifies exchange
      ensures exchange.State() == RestoreFailure(old(exchange.State()), cause, original)
    {
      exchange.SetException(Some(cause));
      // clear the exhausted marker so that the error handler may still redeliver
      exchange.SetRedeliveryExhausted(false);
      var redelivered := Lookup(original, REDELIVERED);
      if redelivered.Some? {
        exchange.SetMessageHeader(REDELIVERED, redelivered.value);
      }
      var redeliveryCounter := Lookup(original, REDELIVERY_COUNTER);
      if redeliveryCounter.Some? {
        exchange.SetMessageHeader(REDELIVERY_COUNTER, redeliveryCounter.value);
      }
      var redeliveryMaxCounter := Lookup(original, REDELIVERY_MAX_COUNTER);
      if redeliveryMaxCounter.Some? {
        exchange.SetMessageHeader(REDELIVERY_MAX_COUNTER, redeliveryMaxCounter.value);
      }
    }
  }
}
