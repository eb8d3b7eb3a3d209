/**
 * Endpoints, polling consumers and the consumer cache the poll enricher borrows consumers
 * from. The cache is modelled only as acquire/release bookkeeping: the bag of consumers
 * currently lent out and the ordered log of acquisitions and releases.
 */
module Consumers {
  import opened Results
  import opened Exchanges

  /** An endpoint: its URI and the key it is registered under. */
  datatype Endpoint = Endpoint(uri: string, key: string)

  /**
   * A polling consumer bound to `endpoint`. `dynamic` says whether it is a
   * DynamicPollingConsumer (whose receive calls take the in-flight exchange);
   * `bridgesErrorHandler` says whether its delegate bridges exceptions to the route's
   * error handler.
   */
  datatype Consumer = Consumer(id: nat, endpoint: Endpoint, dynamic: bool, bridgesErrorHandler: bool)

  /** receive(), receiveNoWait() and receive(timeout). */
  datatype ReceiveMode = Blocking | NoWait | Timed(millis: int)

  /** One receive call: its mode, and whether the exchange-aware overload is used. */
  datatype ReceiveCall = ReceiveCall(mode: ReceiveMode, withExchange: bool)

  datatype CacheEvent = Acquired(endpoint: Endpoint, consumer: Consumer) | Released(endpoint: Endpoint, consumer: Consumer)

  class ConsumerCache {
    const cacheSize: int
    /** The consumers currently lent out. */
    var lent: multiset<Consumer>
    /** Every acquisition and release, in order. */
    var log: seq<CacheEvent>

    constructor (cacheSize: int)
      ensures this.cacheSize == cacheSize && lent == multiset{} && log == []
    {
      this.cacheSize := cacheSize;
      lent, log := multiset{}, [];
    }

    /**
     * acquirePollingConsumer(endpoint). How the consumer is found or created is not
     * modelled: `created` is what the cache hands out for `endpoint`, or what it throws.
     */
    method AcquirePollingConsumer(endpoint: Endpoint, created: Result<Consumer, Failure>) returns (r: Result<Consumer, Failure>)
      modifies this
      ensures r == created
      ensures r.Success? ==> lent == old(lent) + multiset{r.value} && log == old(log) + [Acquired(endpoint, r.value)]
      ensures r.Failure? ==> lent == old(lent) && log == old(log)
    {
      r := created;
      if r.Success? {
        lent := lent + multiset{r.value};
        log := log + [Acquired(endpoint, r.value)];
      }
    }

    /** releasePollingConsumer(endpoint, consumer). */
    method ReleasePollingConsumer(endpoint: Endpoint, consumer: Consumer)
      modifies this
      ensures lent == old(lent) - multiset{consumer}
      ensures log == old(log) + [Released(endpoint, consumer)]
    {
      lent := lent - multiset{consumer};
      log := log + [Released(endpoint, consumer)];
    }
  }
}
