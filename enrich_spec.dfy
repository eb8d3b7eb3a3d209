/**
 * The poll enricher as a function: what one call of process does to the exchange, which
 * consumer it borrows and how it polls, given the enricher's configuration and the
 * answers of its collaborators. The processor class in module Processor is proved to
 * behave exactly like `Outcome`; the properties of the enricher are lemmas about it.
 */
module EnrichSpec {
  import opened Results
  import opened Exchanges
  import opened Consumers
  import opened Uris

  /** The messages of the CamelExchangeException wrappers. */
  const PRE_CHECK_FAILED := "Error during pre poll check"
  const POLL_FAILED := "Error during poll"
  const AGGREGATION_FAILED := "Error occurred during aggregation"

  /**
   * What the target expression evaluates to: a String, an Endpoint, or any other object,
   * which the type converter must turn into a URI.
   */
  datatype Recipient = RString(text: string) | REndpoint(endpoint: Endpoint) | RObject(value: Value)

  /** The expression that computes the endpoint to poll; evaluating it may throw. */
  datatype Expression = Expression(evaluate: ExchangeState -> Result<Option<Recipient>, Failure>)

  /** A PollDynamicAware entry: the dynamic URI it was prepared from. */
  datatype DynamicAwareEntry = DynamicAwareEntry(uri: string, originalUri: Option<string>)

  /**
   * A PollDynamicAware optimiser for one scheme: `prepare(exchange, uri, originalUri)`
   * and `resolveStaticUri(exchange, entry)`, each of which may return null or throw.
   */
  datatype DynamicAware = DynamicAware(
    scheme: string,
    prepare: (ExchangeState, string, Option<string>) -> Result<Option<DynamicAwareEntry>, Failure>,
    resolveStaticUri: (ExchangeState, DynamicAwareEntry) -> Result<Option<string>, Failure>)

  /**
   * What a configured AggregationStrategy's aggregate call does: it returns the original
   * exchange, which it may have changed (`ReturnedOriginal` holds its new value), another
   * exchange, or null, or it throws.
   */
  datatype AggregateResult =
    | ReturnedOriginal(original: ExchangeState)
    | Returned(exchange: ExchangeState)
    | ReturnedNull
    | Threw(error: Failure)

  /** The private CopyAggregationStrategy, or a strategy configured by the user. */
  datatype Strategy =
    | CopyStrategy
    | CustomStrategy(aggregate: (ExchangeState, Option<ExchangeState>) -> AggregateResult)

  /** What a receive call on the consumer gives: a resource exchange or null, or an exception. */
  datatype PollResult = Polled(resource: Option<ExchangeState>) | PollThrew(error: Failure)

  /**
   * The collaborators of one process call, outside the enricher: its pre-check hook, the
   * type converter, property placeholders, ProcessorHelper.prepareRecipient and
   * getExistingEndpoint, the endpoint registry (the flag asks for a prototype endpoint),
   * the consumer cache's acquisition, the consumer's receive calls, the headers-map
   * factory (None: it copied the headers; Some(e): it threw e) and
   * ExchangeHelper.shouldSetVariableResult.
   */
  datatype Context = Context(
    preCheckPoll: ExchangeState -> Option<Failure>,
    convertToString: Value -> Result<string, Failure>,
    resolvePlaceholders: string -> Result<string, Failure>,
    prepareRecipient: Option<Recipient> -> Result<Option<Recipient>, Failure>,
    existingEndpoint: Recipient -> Option<Endpoint>,
    resolveEndpoint: (Recipient, bool) -> Result<Endpoint, Failure>,
    acquire: Endpoint -> Result<Consumer, Failure>,
    receive: (Consumer, ReceiveCall) -> PollResult,
    copyHeaders: Headers -> Option<Failure>,
    shouldSetVariableResult: (ExchangeState, string) -> bool)

  /** The enricher's configuration once it is built. */
  datatype Config = Config(
    expression: Option<Expression>,
    uri: Option<string>,
    timeout: int,
    aggregateOnException: bool,
    cacheSize: int,
    ignoreInvalidEndpoint: bool,
    variableReceive: Option<string>,
    dynamicAware: Option<DynamicAware>,
    strategy: Strategy)

  /** Where resolution ends: no target to poll, or an endpoint and the consumer borrowed for it. */
  datatype Acquisition = NoTarget | Lent(endpoint: Endpoint, consumer: Consumer, prototype: bool)

  /** The poll made by one process call. */
  datatype Polling = Polling(endpoint: Endpoint, consumer: Consumer, prototype: bool, call: ReceiveCall)

  /**
   * One process call: the exchange afterwards, the poll it made (its consumer is acquired
   * and released once, its endpoint stopped when it is a prototype), and whether the
   * aggregation strategy was called.
   */
  datatype Run = Run(after: ExchangeState, polling: Option<Polling>, strategyInvoked: bool)

  /** Which receive call the timeout selects. */
  function SelectMode(timeout: int): (m: ReceiveMode)
    ensures m.Blocking? <==> timeout < 0
    ensures m.NoWait? <==> timeout == 0
    ensures m.Timed? <==> timeout > 0
    ensures m.Timed? ==> m.millis == timeout
  {
    if timeout < 0 then Blocking else if timeout == 0 then NoWait else Timed(timeout)
  }

  /**
   * The URI a non-null recipient stands for, before placeholders are resolved: a string
   * with the whitespace around it cut off, an endpoint's key, or what the type converter
   * makes of any other object.
   */
  function UriText(recipient: Recipient, ctx: Context): (r: Result<string, Failure>)
    ensures recipient.RString? ==>
              && r.Success? && r.value == Trim(recipient.text)
    ensures recipient.REndpoint? ==> r == Success(recipient.endpoint.key)
    ensures recipient.RObject? ==> r == ctx.convertToString(recipient.value)
  {
    match recipient
    case RString(text) => Success(Trim(text))
    case REndpoint(endpoint) => Success(endpoint.key)
    case RObject(v) => ctx.convertToString(v)
  }

  /** resolveUri: null stays null; otherwise the URI text with its placeholders resolved. */
  function ResolveUri(recipient: Option<Recipient>, ctx: Context): (r: Result<Option<string>, Failure>)
    ensures r == Success(None) <==> recipient.None?
    ensures r.Success? && r.value.Some? ==>
              && recipient.Some? && UriText(recipient.value, ctx).Success?
              && ctx.resolvePlaceholders(UriText(recipient.value, ctx).value) == Success(r.value.value)
    ensures r.Failure? ==>
              && recipient.Some?
              && (UriText(recipient.value, ctx).Failure? ==> r.error == UriText(recipient.value, ctx).error)
              && (UriText(recipient.value, ctx).Success? ==>
                    var text := UriText(recipient.value, ctx).value;
                    ctx.resolvePlaceholders(text).Failure?
                    && r.error == ResolveEndpointFailed(text, ctx.resolvePlaceholders(text).error))
  {
    match recipient
    case None => Success(None)
    case Some(rec) =>
      match UriText(rec, ctx)
      case Failure(e) => Failure(e)
      case Success(text) =>
        match ctx.resolvePlaceholders(text)
        case Success(resolved) => Success(Some(resolved))
        case Failure(e) => Failure(ResolveEndpointFailed(text, e))
  }

  /** expression.evaluate(exchange); an enricher built without an expression dereferences null. */
  function Evaluate(c: Config, x: ExchangeState): (r: Result<Option<Recipient>, Failure>)
    ensures c.expression.None? ==> r == Failure(NullReference)
    ensures c.expression.Some? ==> r == c.expression.value.evaluate(x)
  {
    match c.expression
    case None => Failure(NullReference)
    case Some(e) => e.evaluate(x)
  }

  /**
   * The static URI the PollDynamicAware optimiser rewrites the recipient to, if any. There is
   * one only when an optimiser is installed, the recipient's URI resolves, its scheme is the
   * optimiser's and the optimiser prepared an entry for it; a failure of any of these steps
   * is the result.
   */
  function StaticUri(c: Config, x: ExchangeState, ctx: Context, recipient: Option<Recipient>): (r: Result<Option<string>, Failure>)
    ensures c.dynamicAware.None? ==> r == Success(None)
    ensures c.dynamicAware.Some? && ResolveUri(recipient, ctx).Failure? ==> r == Failure(ResolveUri(recipient, ctx).error)
    ensures (&& c.dynamicAware.Some? && ResolveUri(recipient, ctx).Success?
             && ResolveScheme(ResolveUri(recipient, ctx).value) != Some(c.dynamicAware.value.scheme)) ==> r == Success(None)
    ensures (&& c.dynamicAware.Some? && ResolveUri(recipient, ctx).Success?
             && ResolveScheme(ResolveUri(recipient, ctx).value) == Some(c.dynamicAware.value.scheme)) ==>
              var entry := c.dynamicAware.value.prepare(x, ResolveUri(recipient, ctx).value.value, c.uri);
              && (entry.Failure? ==> r == Failure(entry.error))
              && (entry == Success(None) ==> r == Success(None))
              && (entry.Success? && entry.value.Some? ==> r == c.dynamicAware.value.resolveStaticUri(x, entry.value.value))
    ensures r.Success? && r.value.Some? ==>
              && c.dynamicAware.Some? && ResolveUri(recipient, ctx).Success?
              && ResolveScheme(ResolveUri(recipient, ctx).value) == Some(c.dynamicAware.value.scheme)
              && var entry := c.dynamicAware.value.prepare(x, ResolveUri(recipient, ctx).value.value, c.uri);
                 entry.Success? && entry.value.Some?
                 && c.dynamicAware.value.resolveStaticUri(x, entry.value.value) == r
  {
    match c.dynamicAware
    case None => Success(None)
    case Some(aware) =>
      var uri :- ResolveUri(recipient, ctx);
      if ResolveScheme(uri) != Some(aware.scheme) then Success(None)
      else
        var entry :- aware.prepare(x, uri.value, c.uri);
        if entry.None? then Success(None) else aware.resolveStaticUri(x, entry.value)
  }

  /**
   * The prepared target recipient: the static URI when the optimiser gives one, else what
   * the expression evaluated to. A failure of evaluation or optimisation is the result.
   */
  function Target(c: Config, x: ExchangeState, ctx: Context): (r: Result<Option<Recipient>, Failure>)
    ensures Evaluate(c, x).Failure? ==> r == Failure(Evaluate(c, x).error)
    ensures Evaluate(c, x).Success? ==>
              var staticUri := StaticUri(c, x, ctx, Evaluate(c, x).value);
              && (staticUri.Failure? ==> r == Failure(staticUri.error))
              && (staticUri == Success(None) ==> r == ctx.prepareRecipient(Evaluate(c, x).value))
              && (staticUri.Success? && staticUri.value.Some? ==>
                    r == ctx.prepareRecipient(Some(RString(staticUri.value.value))))
  {
    var recipient :- Evaluate(c, x);
    var staticUri :- StaticUri(c, x, ctx, recipient);
    ctx.prepareRecipient(if staticUri.Some? then Some(RString(staticUri.value)) else recipient)
  }

  /**
   * Everything inside process's first try block: evaluation, optimisation, endpoint
   * resolution and consumer acquisition.
   */
  function Acquire(c: Config, x: ExchangeState, ctx: Context): (r: Result<Acquisition, Failure>)
    ensures r == Success(NoTarget) <==> Target(c, x, ctx) == Success(None)
    ensures r.Success? && r.value.Lent? ==>
              && Target(c, x, ctx).Success? && Target(c, x, ctx).value.Some?
              && var target := Target(c, x, ctx).value.value;
                 && (r.value.prototype <==> c.cacheSize < 0 && ctx.existingEndpoint(target).None?)
                 && (ctx.existingEndpoint(target).Some? ==> r.value.endpoint == ctx.existingEndpoint(target).value)
                 && (ctx.existingEndpoint(target).None? ==>
                       ctx.resolveEndpoint(target, c.cacheSize < 0) == Success(r.value.endpoint))
                 && ctx.acquire(r.value.endpoint) == Success(r.value.consumer)
    ensures Target(c, x, ctx).Failure? ==> r == Failure(Target(c, x, ctx).error)
    ensures Target(c, x, ctx).Success? && Target(c, x, ctx).value.Some? ==>
              var target := Target(c, x, ctx).value.value;
              var resolved := if ctx.existingEndpoint(target).Some? then Success(ctx.existingEndpoint(target).value)
                              else ctx.resolveEndpoint(target, c.cacheSize < 0);
              && (resolved.Failure? ==> r == Failure(resolved.error))
              && (resolved.Success? && ctx.acquire(resolved.value).Failure? ==> r == Failure(ctx.acquire(resolved.value).error))
              && (resolved.Success? && ctx.acquire(resolved.value).Success? ==>
                    r == Success(Lent(resolved.value, ctx.acquire(resolved.value).value,
                                      c.cacheSize < 0 && ctx.existingEndpoint(target).None?)))
  {
    var target :- Target(c, x, ctx);
    if target.None? then Success(NoTarget)
    else
      var existing := ctx.existingEndpoint(target.value);
      var endpoint :- if existing.Some? then Success(existing.value) else ctx.resolveEndpoint(target.value, c.cacheSize < 0);
      var consumer :- ctx.acquire(endpoint);
      Success(Lent(endpoint, consumer, c.cacheSize < 0 && existing.None?))
  }

  /** prepareResult: an InOut exchange starts with its in message copied to the out message. */
  function PrepareResult(x: ExchangeState): (r: ExchangeState)
    ensures x.pattern.IsOutCapable() ==> r.outMessage == Some(x.inMessage)
    ensures !x.pattern.IsOutCapable() ==> r == x
    ensures r.(outMessage := x.outMessage) == x
  {
    if x.pattern.IsOutCapable() then x.(outMessage := Some(x.inMessage)) else x
  }

  /** CopyAggregationStrategy.aggregate, on the value of the old exchange (which it returns). */
  function CopyAggregation(oldExchange: ExchangeState, newExchange: Option<ExchangeState>): (r: ExchangeState)
    ensures r.pattern == oldExchange.pattern
    ensures newExchange.Some? ==>
              && r.CurrentMessage() == newExchange.value.CurrentMessage()
              && r.exception == newExchange.value.exception
    ensures newExchange.None? ==>
              && r.CurrentMessage() == Message(None, oldExchange.inMessage.headers)
              && r.outMessage.None?
              && r.(inMessage := oldExchange.inMessage, outMessage := oldExchange.outMessage) == oldExchange
  {
    if newExchange.Some? then oldExchange.CopyResultsPreservePattern(newExchange.value)
    else oldExchange.(inMessage := oldExchange.inMessage.(body := None), outMessage := None)
  }

  /** What the aggregation strategy gives back. */
  datatype Aggregated =
    | SameExchange(state: ExchangeState)   // the original exchange itself, as the strategy left it
    | OtherExchange(state: ExchangeState)  // another exchange
    | NoExchange                           // null
    | AggregationThrew(error: Failure)

  /**
   * The strategy's aggregate call: the copy strategy returns the original exchange changed
   * as `CopyAggregation` says and never throws; a configured strategy's answer is taken as
   * it is.
   */
  function Aggregate(strategy: Strategy, oldExchange: ExchangeState, newExchange: Option<ExchangeState>): (r: Aggregated)
    ensures strategy.CopyStrategy? ==> r == SameExchange(CopyAggregation(oldExchange, newExchange))
    ensures strategy.CustomStrategy? ==>
              var a := strategy.aggregate(oldExchange, newExchange);
              && (r.SameExchange? <==> a.ReturnedOriginal?)
              && (a.ReturnedOriginal? ==> r.state == a.original)
              && (r.OtherExchange? <==> a.Returned?)
              && (a.Returned? ==> r.state == a.exchange)
              && (r.NoExchange? <==> a.ReturnedNull?)
              && (r.AggregationThrew? <==> a.Threw?)
              && (a.Threw? ==> r.error == a.error)
  {
    match strategy
    case CopyStrategy => SameExchange(CopyAggregation(oldExchange, newExchange))
    case CustomStrategy(aggregate) =>
      match aggregate(oldExchange, newExchange)
      case ReturnedOriginal(y) => SameExchange(y)
      case Returned(y) => OtherExchange(y)
      case ReturnedNull => NoExchange
      case Threw(e) => AggregationThrew(e)
  }

  /**
   * When the received message is to go into the variable `variableReceive`: the aggregated
   * exchange's message becomes that variable and its message is put back to `saved`, the
   * message the original exchange had before aggregation.
   */
  function StoreVariable(c: Config, ctx: Context, y: ExchangeState, saved: Message): (r: ExchangeState)
    ensures r.pattern == y.pattern && r.completions == y.completions
    ensures c.variableReceive.Some? && ctx.shouldSetVariableResult(y, c.variableReceive.value) ==>
              && r.CurrentMessage() == saved
              && c.variableReceive.value in r.variables && r.variables[c.variableReceive.value] == y.CurrentMessage()
              && r.variables == y.variables[c.variableReceive.value := y.CurrentMessage()]
              && r.exception == y.exception && r.properties == y.properties
              && r.redeliveryExhausted == y.redeliveryExhausted
    ensures !(c.variableReceive.Some? && ctx.shouldSetVariableResult(y, c.variableReceive.value)) ==> r == y
  {
    if c.variableReceive.Some? && ctx.shouldSetVariableResult(y, c.variableReceive.value) then
      y.(variables := y.variables[c.variableReceive.value := y.CurrentMessage()]).WithCurrentMessage(saved)
    else y
  }

  /** handoverCompletions from the resource, when there is one, onto `x`. */
  function Handover(x: ExchangeState, newExchange: Option<ExchangeState>): (r: ExchangeState)
    ensures newExchange.Some? ==> r.completions == x.completions + newExchange.value.completions
    ensures newExchange.None? ==> r.completions == x.completions
    ensures r.(completions := x.completions) == x
  {
    if newExchange.Some? then x.TakeCompletions(newExchange.value) else x
  }

  /**
   * A strategy that, whenever it returns the original exchange, leaves that exchange's
   * pattern as it was. The copy strategy is one.
   */
  ghost predicate KeepsOriginalPattern(s: Strategy) {
    s.CustomStrategy? ==>
      forall a, b :: s.aggregate(a, b).ReturnedOriginal? ==> s.aggregate(a, b).original.pattern == a.pattern
  }

  /** The exchange after aggregation, whether the strategy was called, and what it threw. */
  datatype Merged = Merged(state: ExchangeState, strategyInvoked: bool, failure: Option<Failure>)

  /**
   * The aggregation step of process (the first part of its last try block). The strategy is
   * called unless a failed resource is to be copied as it is; only a configured strategy can
   * throw; the exchange keeps its pattern unless a configured strategy changed it in place.
   */
  function Aggregation(c: Config, ctx: Context, x: ExchangeState, resource: Option<ExchangeState>, saved: Message): (r: Merged)
    ensures r.state.pattern == x.pattern || (c.strategy.CustomStrategy? && r.strategyInvoked)
    ensures !r.strategyInvoked <==> !c.aggregateOnException && resource.Some? && resource.value.IsFailed()
    ensures !r.strategyInvoked ==> r.state == x.CopyResultsPreservePattern(resource.value) && r.failure.None?
    ensures r.failure.Some? ==> c.strategy.CustomStrategy?
    ensures KeepsOriginalPattern(c.strategy) ==> r.state.pattern == x.pattern
    ensures r.strategyInvoked ==>
              || r.state.pattern == x.pattern
              || (c.strategy.CustomStrategy?
                  && c.strategy.aggregate(PrepareResult(x).PrepareAggregation(),
                                          if resource.Some? then Some(resource.value.PrepareAggregation()) else None).ReturnedOriginal?)
  {
    if !c.aggregateOnException && resource.Some? && resource.value.IsFailed() then
      Merged(x.CopyResultsPreservePattern(resource.value), false, None)
    else
      var prepared := PrepareResult(x).PrepareAggregation();
      var newExchange := if resource.Some? then Some(resource.value.PrepareAggregation()) else None;
      match Aggregate(c.strategy, prepared, newExchange)
      case AggregationThrew(e) => Merged(prepared, true, Some(e))
      case NoExchange => Merged(prepared, true, None)
      case SameExchange(y) => Merged(Handover(StoreVariable(c, ctx, y, saved), newExchange), true, None)
      case OtherExchange(y) =>
        Merged(Handover(prepared.CopyResultsPreservePattern(StoreVariable(c, ctx, y, saved)), newExchange), true, None)
  }

  /** Sets header `name` of the current message back to its value in `original`, if it had one. */
  function RestoreHeader(s: ExchangeState, name: string, original: Headers): (r: ExchangeState)
    ensures HeaderRestored(r, s, name, original)
    ensures forall h :: h != name ==> Lookup(r.CurrentMessage().headers, h) == Lookup(s.CurrentMessage().headers, h)
    ensures r.CurrentMessage().body == s.CurrentMessage().body
    ensures r.(inMessage := s.inMessage, outMessage := s.outMessage) == s
  {
    if name in original then s.WithMessageHeader(name, original[name]) else s
  }

  /** The redelivery header `name` reads as in `original` when it was set there, as in `s` otherwise. */
  predicate HeaderRestored(r: ExchangeState, s: ExchangeState, name: string, original: Headers) {
    Lookup(r.CurrentMessage().headers, name)
      == if name in original then Some(original[name]) else Lookup(s.CurrentMessage().headers, name)
  }

  /**
   * A failure bridged from the consumer is put back on the exchange, the redelivery-exhausted
   * marker is cleared and the three redelivery headers get their values from before the poll.
   */
  function RestoreFailure(s: ExchangeState, cause: Failure, original: Headers): (r: ExchangeState)
    ensures r.exception == Some(cause) && !r.redeliveryExhausted
    ensures HeaderRestored(r, s, REDELIVERED, original)
    ensures HeaderRestored(r, s, REDELIVERY_COUNTER, original)
    ensures HeaderRestored(r, s, REDELIVERY_MAX_COUNTER, original)
    ensures forall h :: h != REDELIVERED && h != REDELIVERY_COUNTER && h != REDELIVERY_MAX_COUNTER ==>
              Lookup(r.CurrentMessage().headers, h) == Lookup(s.CurrentMessage().headers, h)
    ensures r.CurrentMessage().body == s.CurrentMessage().body
    ensures r.pattern == s.pattern && r.properties == s.properties && r.variables == s.variables
  {
    var failed := s.(exception := Some(cause), redeliveryExhausted := false);
    var a := RestoreHeader(failed, REDELIVERED, original);
    var b := RestoreHeader(a, REDELIVERY_COUNTER, original);
    RestoreHeader(b, REDELIVERY_MAX_COUNTER, original)
  }

  /**
   * Everything process does after a poll that did not throw. The exchange keeps its pattern
   * unless a configured strategy changed it in place;
   * an aggregation failure ends up on it wrapped; otherwise, unless copying the headers for
   * variableReceive failed, the URI of the endpoint polled is recorded.
   */
  function AfterPoll(c: Config, ctx: Context, x: ExchangeState, consumer: Consumer, resource: Option<ExchangeState>): (r: Merged)
    ensures r.state.pattern == x.pattern || (c.strategy.CustomStrategy? && r.strategyInvoked)
    ensures KeepsOriginalPattern(c.strategy) ==> r.state.pattern == x.pattern
    ensures r.failure.Some? ==> r.state.exception == Some(ExchangeError(AGGREGATION_FAILED, r.failure.value))
    ensures r.failure.None? && (c.variableReceive.None? || ctx.copyHeaders(x.CurrentMessage().headers).None?) ==>
              TO_ENDPOINT in r.state.properties && r.state.properties[TO_ENDPOINT] == Text(consumer.endpoint.uri)
  {
    var saved := x.CurrentMessage();
    var copyFailure := if c.variableReceive.Some? then ctx.copyHeaders(saved.headers) else None;
    if copyFailure.Some? then Merged(x.(exception := copyFailure), false, None)
    else
      var cause := if resource.Some? && consumer.bridgesErrorHandler then resource.value.exception else None;
      var m := Aggregation(c, ctx, x, resource, saved);
      if m.failure.Some? then
        m.(state := m.state.(exception := Some(ExchangeError(AGGREGATION_FAILED, m.failure.value))))
      else
        var restored := if cause.Some? then RestoreFailure(m.state, cause.value, x.inMessage.headers) else m.state;
        m.(state := restored.(properties := restored.properties[TO_ENDPOINT := Text(consumer.endpoint.uri)]))
  }

  /**
   * One call of process on an exchange whose value is `x`. It polls only a consumer lent for
   * the resolved endpoint; when it polls nothing, the strategy is not called and the
   * exchange changes at most in its failure.
   */
  function Outcome(c: Config, x: ExchangeState, ctx: Context): (r: Run)
    ensures r.polling.Some? ==>
              && ctx.preCheckPoll(x).None?
              && Acquire(c, x, ctx) == Success(Lent(r.polling.value.endpoint, r.polling.value.consumer, r.polling.value.prototype))
    ensures r.polling.None? ==> !r.strategyInvoked && r.after == x.(exception := r.after.exception)
  {
    match ctx.preCheckPoll(x)
    case Some(e) => Run(x.(exception := Some(ExchangeError(PRE_CHECK_FAILED, e))), None, false)
    case None =>
      match Acquire(c, x, ctx)
      case Failure(e) => Run(if c.ignoreInvalidEndpoint then x else x.(exception := Some(e)), None, false)
      case Success(NoTarget) => Run(x, None, false)
      case Success(Lent(endpoint, consumer, prototype)) => PollConsumer(c, x, ctx, endpoint, consumer, prototype)
  }

  /**
   * The poll and everything after it, once `consumer` has been borrowed for `endpoint`: the
   * poll is made in the mode the timeout selects, with the exchange when the consumer is
   * dynamic; a poll that throws is recorded wrapped and nothing is aggregated.
   */
  function PollConsumer(c: Config, x: ExchangeState, ctx: Context, endpoint: Endpoint, consumer: Consumer, prototype: bool): (r: Run)
    ensures r.polling == Some(Polling(endpoint, consumer, prototype, ReceiveCall(SelectMode(c.timeout), consumer.dynamic)))
    ensures ctx.receive(consumer, ReceiveCall(SelectMode(c.timeout), consumer.dynamic)).PollThrew? ==>
              && !r.strategyInvoked
              && r.after == x.(exception := Some(ExchangeError(POLL_FAILED, ctx.receive(consumer, ReceiveCall(SelectMode(c.timeout), consumer.dynamic)).error)))
  {
    var call := ReceiveCall(SelectMode(c.timeout), consumer.dynamic);
    var polling := Some(Polling(endpoint, consumer, prototype, call));
    match ctx.receive(consumer, call)
    case PollThrew(e) => Run(x.(exception := Some(ExchangeError(POLL_FAILED, e))), polling, false)
    case Polled(resource) =>
      var m := AfterPoll(c, ctx, x, consumer, resource);
      Run(m.state, polling, m.strategyInvoked)
  }

  /** The consumer cache's log entries of one run: the acquisition and the release of its consumer. */
  function CacheEvents(run: Run): seq<CacheEvent> {
    match run.polling
    case None => []
    case Some(p) => [Acquired(p.endpoint, p.consumer), Released(p.endpoint, p.consumer)]
  }
}
