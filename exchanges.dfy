/**
 * The message exchange the poll enricher borrows and mutates: its messages, headers,
 * properties, variables, failure and redelivery marker, plus the completion callback.
 *
 * `ExchangeState` is the value of an exchange; the class `Exchange` is the mutable
 * object the processor works on, and every one of its methods states its new value in
 * terms of an operation on `ExchangeState`.
 */
module Exchanges {
  import opened Results

  /** A body, header, property or variable value (Java's null is `None` where a slot may hold it). */
  datatype Value = Text(text: string) | Number(number: int) | Flag(flag: bool)

  type Headers = map<string, Value>

  /** A message: a body that may be null, and its headers. */
  datatype Message = Message(body: Option<Value>, headers: Headers)

  /** The exchange pattern: InOnly is send-only, InOut is send-and-receive. */
  datatype Pattern = InOnly | InOut {
    predicate IsOutCapable() {
      InOut?
    }
  }

  /** A Throwable. */
  datatype Failure =
    | Thrown(kind: string)                              // an exception raised by a collaborator
    | NullReference                                     // java.lang.NullPointerException
    | ResolveEndpointFailed(uri: string, cause: Failure)
    | ExchangeError(message: string, cause: Failure)    // CamelExchangeException

  /** A synchronization registered on an exchange, run when the exchange completes. */
  type Completion = string

  /** Header names of the original exchange's retry history (Exchange.REDELIVERED etc.). */
  const REDELIVERED := "CamelRedelivered"
  const REDELIVERY_COUNTER := "CamelRedeliveryCounter"
  const REDELIVERY_MAX_COUNTER := "CamelRedeliveryMaxCounter"

  /** The property naming the endpoint an exchange was last sent to or enriched from. */
  const TO_ENDPOINT := "CamelToEndpoint"

  datatype ExchangeState = ExchangeState(
    pattern: Pattern,
    inMessage: Message,
    outMessage: Option<Message>,
    properties: map<string, Value>,
    variables: map<string, Message>,
    exception: Option<Failure>,
    redeliveryExhausted: bool,
    completions: seq<Completion>)
  {
    predicate IsFailed() {
      exception.Some?
    }

    /** getMessage(): the out message when there is one, otherwise the in message. */
    function CurrentMessage(): Message {
      if outMessage.Some? then outMessage.value else inMessage
    }

    /** The exchange after its current message is replaced by `m`; nothing else changes. */
    function WithCurrentMessage(m: Message): (r: ExchangeState)
      ensures r.CurrentMessage() == m
      ensures r.pattern == pattern && r.outMessage.Some? == outMessage.Some?
      ensures r.(inMessage := inMessage, outMessage := outMessage) == this
    {
      if outMessage.Some? then this.(outMessage := Some(m)) else this.(inMessage := m)
    }

    /** getMessage().setHeader(name, v). */
    function WithMessageHeader(name: string, v: Value): (r: ExchangeState)
      ensures r.CurrentMessage().body == CurrentMessage().body
      ensures Lookup(r.CurrentMessage().headers, name) == Some(v)
      ensures forall h :: h != name ==> Lookup(r.CurrentMessage().headers, h) == Lookup(CurrentMessage().headers, h)
      ensures r.(inMessage := inMessage, outMessage := outMessage) == this
    {
      var m := CurrentMessage();
      WithCurrentMessage(m.(headers := m.headers[name := v]))
    }

    /**
     * ExchangeHelper.prepareAggregation, for one exchange: a result left in the out
     * message is moved to the in message.
     */
    function PrepareAggregation(): (r: ExchangeState)
      ensures r.outMessage.None? && r.CurrentMessage() == CurrentMessage()
      ensures r.(inMessage := inMessage, outMessage := outMessage) == this
    {
      if outMessage.Some? then this.(inMessage := outMessage.value, outMessage := None) else this
    }

    /**
     * ExchangeHelper.copyResultsPreservePattern(this, source) for two distinct exchanges:
     * the source's result message, failure, redelivery marker, properties and variables are
     * copied onto this exchange, which keeps its own pattern. The result goes to the out
     * message when this exchange is InOut and the source has an out message, and to the in
     * message (dropping any out message) otherwise.
     */
    function CopyResultsPreservePattern(source: ExchangeState): (r: ExchangeState)
      ensures r.pattern == pattern
      ensures r.CurrentMessage() == source.CurrentMessage()
      ensures r.exception == source.exception
      ensures r.redeliveryExhausted == source.redeliveryExhausted
      ensures r.properties.Keys == properties.Keys + source.properties.Keys
      ensures forall k :: k in source.properties ==> r.properties[k] == source.properties[k]
      ensures forall k :: k in properties && k !in source.properties ==> r.properties[k] == properties[k]
      ensures r.properties == properties + source.properties
      ensures r.variables == variables + source.variables
      ensures r.completions == completions
    {
      var moved :=
        if pattern.IsOutCapable() && source.outMessage.Some? then this.(outMessage := source.outMessage)
        else this.(inMessage := source.CurrentMessage(), outMessage := None);
      moved.(properties := properties + source.properties,
             variables := variables + source.variables,
             exception := source.exception,
             redeliveryExhausted := source.redeliveryExhausted)
    }

    /** handoverCompletions: the synchronizations of `from` are appended to this exchange's. */
    function TakeCompletions(from: ExchangeState): ExchangeState {
      this.(completions := completions + from.completions)
    }
  }

  /** A mutable exchange. */
  class Exchange {
    var pattern: Pattern
    var inMessage: Message
    var outMessage: Option<Message>
    var properties: map<string, Value>
    var variables: map<string, Message>
    var exception: Option<Failure>
    var redeliveryExhausted: bool
    var completions: seq<Completion>

    function State(): ExchangeState
      reads this
    {
      ExchangeState(pattern, inMessage, outMessage, properties, variables, exception,
                    redeliveryExhausted, completions)
    }

    constructor (s: ExchangeState)
      ensures State() == s
    {
      pattern, inMessage, outMessage := s.pattern, s.inMessage, s.outMessage;
      properties, variables := s.properties, s.variables;
      exception, redeliveryExhausted, completions := s.exception, s.redeliveryExhausted, s.completions;
    }

    function CurrentMessage(): Message
      reads this
    {
      State().CurrentMessage()
    }

    /** Every field at once: what an aggregation strategy leaves of an exchange it changed. */
    method SetState(s: ExchangeState)
      modifies this
      ensures State() == s
    {
      pattern, inMessage, outMessage := s.pattern, s.inMessage, s.outMessage;
      properties, variables := s.properties, s.variables;
      exception, redeliveryExhausted, completions := s.exception, s.redeliveryExhausted, s.completions;
    }

    method SetException(e: Option<Failure>)
      modifies this
      ensures State() == old(State()).(exception := e)
    {
      exception := e;
    }

    method SetProperty(name: string, v: Value)
      modifies this
      ensures State() == old(State()).(properties := old(properties)[name := v])
    {
      properties := properties[name := v];
    }

    method SetRedeliveryExhausted(exhausted: bool)
      modifies this
      ensures State() == old(State()).(redeliveryExhausted := exhausted)
    {
      redeliveryExhausted := exhausted;
    }

    /** getIn().setBody(body). */
    method SetInBody(body: Option<Value>)
      modifies this
      ensures State() == old(State()).(inMessage := old(inMessage).(body := body))
    {
      inMessage := inMessage.(body := body);
    }

    /** setOut(m); `None` removes the out message. */
    method SetOut(m: Option<Message>)
      modifies this
      ensures State() == old(State()).(outMessage := m)
    {
      outMessage := m;
    }

    /** getMessage().setBody(body). */
    method SetMessageBody(body: Option<Value>)
      modifies this
      ensures State() == old(State()).WithCurrentMessage(old(CurrentMessage()).(body := body))
    {
      if outMessage.Some? {
        outMessage := Some(outMessage.value.(body := body));
      } else {
        inMessage := inMessage.(body := body);
      }
    }

    /** getMessage().setHeaders(headers). */
    method SetMessageHeaders(headers: Headers)
      modifies this
      ensures State() == old(State()).WithCurrentMessage(old(CurrentMessage()).(headers := headers))
    {
      if outMessage.Some? {
        outMessage := Some(outMessage.value.(headers := headers));
      } else {
        inMessage := inMessage.(headers := headers);
      }
    }

    /** getMessage().setHeader(name, v). */
    method SetMessageHeader(name: string, v: Value)
      modifies this
      ensures State() == old(State()).WithMessageHeader(name, v)
    {
      if outMessage.Some? {
        outMessage := Some(outMessage.value.(headers := outMessage.value.headers[name := v]));
      } else {
        inMessage := inMessage.(headers := inMessage.headers[name := v]);
      }
    }

    /** Stores the current message, body and headers, as the variable `name`. */
    method SetVariableFromMessage(name: string)
      modifies this
      ensures State() == old(State()).(variables := old(variables)[name := old(CurrentMessage())])
    {
      variables := variables[name := CurrentMessage()];
    }

    method PrepareAggregation()
      modifies this
      ensures State() == old(State()).PrepareAggregation()
    {
      if outMessage.Some? {
        inMessage, outMessage := outMessage.value, None;
      }
    }

    method CopyResultsPreservePattern(source: ExchangeState)
      modifies this
      ensures State() == old(State()).CopyResultsPreservePattern(source)
    {
      if pattern.IsOutCapable() && source.outMessage.Some? {
        outMessage := source.outMessage;
      } else {
        inMessage, outMessage := source.CurrentMessage(), None;
      }
      properties := properties + source.properties;
      variables := variables + source.variables;
      exception := source.exception;
      redeliveryExhausted := source.redeliveryExhausted;
    }

    method TakeCompletions(from: ExchangeState)
      modifies this
      ensures State() == old(State()).TakeCompletions(from)
    {
      completions := completions + from.completions;
    }
  }

  /** AsyncCallback: the sole completion signal of an asynchronous processor. */
  class AsyncCallback {
    /** The `doneSync` argument of every done(...) call so far, in order. */
    var doneCalls: seq<bool>

    constructor ()
      ensures doneCalls == []
    {
      doneCalls := [];
    }

    method Done(doneSync: bool)
      modifies this
      ensures doneCalls == old(doneCalls) + [doneSync]
    {
      doneCalls := doneCalls + [doneSync];
    }
  }
}
