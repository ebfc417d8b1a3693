/** The producer's configuration surface: pull-result values, the options
    bundle with its chained setters, and the fail-fast producer constructor. */
module Producer {
  import opened Wrappers
  import opened BigEndian

  /** A Rust `i64`. */
  type i64 = x: int | -0x8000_0000_0000_0000 <= x <= 0x7FFF_FFFF_FFFF_FFFF

  // ---------------------------------------------------------------------------
  // Pull results

  datatype PullStatus = Found | NoNewMsg | NoMsgMatched | OffsetIllegal | BrokerTimeout

  /** The `#[repr(i32)]` discriminant of a status. */
  function Discriminant(s: PullStatus): (d: int)
    ensures 0 <= d < 5
  {
    match s
    case Found => 0
    case NoNewMsg => 1
    case NoMsgMatched => 2
    case OffsetIllegal => 3
    case BrokerTimeout => 4
  }

  /** The status whose discriminant is d, if there is one. */
  function StatusOf(d: int): (s: Option<PullStatus>)
    ensures s.Some? <==> 0 <= d < 5
  {
    if d == 0 then Some(Found)
    else if d == 1 then Some(NoNewMsg)
    else if d == 2 then Some(NoMsgMatched)
    else if d == 3 then Some(OffsetIllegal)
    else if d == 4 then Some(BrokerTimeout)
    else None
  }

  /** The five statuses and the discriminants 0..4 are in one-to-one
      correspondence. */
  lemma DiscriminantsAreExact()
    ensures forall s :: StatusOf(Discriminant(s)) == Some(s)
    ensures forall d :: 0 <= d < 5 ==> StatusOf(d).Some? && Discriminant(StatusOf(d).value) == d
    ensures forall s, t :: Discriminant(s) == Discriminant(t) ==> s == t
  {

  }

  /** `PullResult`, over the message type M decoded from a pull. */
  datatype PullResult<M> = PullResult(
    nextBeginOffset: i64,
    minOffset: i64,
    maxOffset: i64,
    status: PullStatus,
    suggestWhichBrokerId: i64,
    messageExts: seq<M>,
    body: seq<byte>)

  // ---------------------------------------------------------------------------
  // Options

  /** The name every HTTP resolver built here is given. */
  const DEFAULT_RESOLVER_NAME: string := "DEFAULT"
  const DEFAULT_SEND_MSG_TIMEOUT_MS: nat := 3000
  const DEFAULT_TOPIC_QUEUE_NUMS: nat := 4
  const DEFAULT_CREATE_TOPIC_KEY: string := "TBW102"

  /** The name-server resolvers the options can hold. `Http` with no domain is
      `HttpResolver::new(name)`, with a domain `HttpResolver::with_domain`;
      `Passthrough` is `PassthroughResolver::new(addrs, fallback)`; `Custom`
      stands for any other resolver handed to `set_resolver`. */
  datatype Resolver =
    | Http(name: string, domain: Option<string>)
    | Passthrough(addrs: seq<string>, fallback: Resolver)
    | Custom(description: string)

  /** `RoundRobinQueueSelector::new()` */
  datatype QueueSelector = RoundRobin

  /** The values of all fields of a `ProducerOptions` (Duration in milliseconds). */
  datatype Options = Options(
    selector: QueueSelector,
    sendMsgTimeout: nat,
    defaultTopicQueueNums: nat,
    createTopicKey: string,
    resolver: Resolver)

  /** `ProducerOptions`: every setter overwrites one field in place and returns
      the same object, so that calls can be chained. */
  class ProducerOptions {
    var selector: QueueSelector
    var sendMsgTimeout: nat
    var defaultTopicQueueNums: nat
    var createTopicKey: string
    var resolver: Resolver

    function Value(): (v: Options)
      reads this
    {
      Options(selector, sendMsgTimeout, defaultTopicQueueNums, createTopicKey, resolver)
    }

    /** `ProducerOptions::new()`, which is `Default::default()`. */
    constructor ()
      ensures selector == RoundRobin
      ensures sendMsgTimeout == DEFAULT_SEND_MSG_TIMEOUT_MS
      ensures defaultTopicQueueNums == DEFAULT_TOPIC_QUEUE_NUMS
      ensures createTopicKey == DEFAULT_CREATE_TOPIC_KEY
      ensures resolver == Http(DEFAULT_RESOLVER_NAME, None)
    {
      selector := RoundRobin;
      sendMsgTimeout := DEFAULT_SEND_MSG_TIMEOUT_MS;
      defaultTopicQueueNums := DEFAULT_TOPIC_QUEUE_NUMS;
      createTopicKey := DEFAULT_CREATE_TOPIC_KEY;
      resolver := Http(DEFAULT_RESOLVER_NAME, None);
    }

    method SetSendMsgTimeout(timeout: nat) returns (self: ProducerOptions)
      modifies this
      ensures self == this
      ensures Value() == old(Value()).(sendMsgTimeout := timeout)
    {
      sendMsgTimeout := timeout;
      self := this;
    }

    /** No validation: any count, zero included, is stored. */
    method SetDefaultTopicQueueNums(queueNums: nat) returns (self: ProducerOptions)
      modifies this
      ensures self == this
      ensures Value() == old(Value()).(defaultTopicQueueNums := queueNums)
    {
      defaultTopicQueueNums := queueNums;
      self := this;
    }

    method SetCreateTopicKey(key: string) returns (self: ProducerOptions)
      modifies this
      ensures self == this
      ensures Value() == old(Value()).(createTopicKey := key)
    {
      createTopicKey := key;
      self := this;
    }

    method SetResolver(r: Resolver) returns (self: ProducerOptions)
      modifies this
      ensures self == this
      ensures Value() == old(Value()).(resolver := r)
    {
      resolver := r;
      self := this;
    }

    /** A static address list, falling back to the default HTTP resolver. */
    method SetNameServer(addrs: seq<string>) returns (self: ProducerOptions)
      modifies this
      ensures self == this
      ensures Value() == old(Value()).(resolver := Passthrough(addrs, Http(DEFAULT_RESOLVER_NAME, None)))
    {
      resolver := Passthrough(addrs, Http(DEFAULT_RESOLVER_NAME, None));
      self := this;
    }

    /** The default HTTP resolver, pointed at another discovery domain. */
    method SetNameServerDomain(url: string) returns (self: ProducerOptions)
      modifies this
      ensures self == this
      ensures Value() == old(Value()).(resolver := Http(DEFAULT_RESOLVER_NAME, Some(url)))
    {
      resolver := Http(DEFAULT_RESOLVER_NAME, Some(url));
      self := this;
    }
  }

  /** A chain of setters on one options object: each call acts on the object
      the previous one returned, so the writes accumulate in order and the last
      write to a field wins (here the timeout and the resolver are each written
      twice). */
  method ChainSetters(o: ProducerOptions, firstTimeout: nat, queueNums: nat, addrs: seq<string>,
                      key: string, secondTimeout: nat, url: string)
    returns (self: ProducerOptions)
    modifies o
    ensures self == o
    ensures o.Value() == old(o.Value()).(sendMsgTimeout := secondTimeout,
                                         defaultTopicQueueNums := queueNums,
                                         createTopicKey := key,
                                         resolver := Http(DEFAULT_RESOLVER_NAME, Some(url)))
  {
    self := o.SetSendMsgTimeout(firstTimeout);
    self := self.SetDefaultTopicQueueNums(queueNums);
    self := self.SetNameServer(addrs);
    self := self.SetCreateTopicKey(key);
    self := self.SetSendMsgTimeout(secondTimeout);
    self := self.SetNameServerDomain(url);
  }

  // ---------------------------------------------------------------------------
  // Producer

  /** The crate's error type; its variants are not part of this model. */
  datatype Error = Error(description: string)

  /** `ClientOptions::new(group)` */
  datatype ClientOptions = ClientOptions(group: string)

  /** A name server built over a resolver by `NameServer::new`. */
  datatype NameServer = NameServer(resolver: Resolver)

  /** `Client::new(client_options, name_server)` */
  datatype Client = Client(options: ClientOptions, nameServer: NameServer)

  /** How a name server is built from a resolver: supplied from outside the
      model, and allowed to fail (typically on the initial resolve). */
  type NameServerFactory = Resolver -> Result<NameServer, Error>

  /** A producer owns its options: `with_options` moves them in, so the value
      stored is the one the options object held at construction. */
  class Producer {
    const group: string
    const options: Options
    const client: Client

    constructor (group: string, options: Options, client: Client)
      ensures this.group == group && this.options == options && this.client == client
    {
      this.group := group;
      this.options := options;
      this.client := client;
    }

    /** `Producer::with_options`: fails, returning no producer, exactly when the
        name server cannot be built over (a copy of) the options' resolver. */
    static method WithOptions(group: string, options: ProducerOptions, newNameServer: NameServerFactory)
      returns (r: Result<Producer, Error>)
      ensures newNameServer(options.resolver).Failure? ==>
                r == Failure(newNameServer(options.resolver).error)
      ensures newNameServer(options.resolver).Success? ==>
                && r.Success? && fresh(r.value)
                && r.value.group == group
                && r.value.options == options.Value()
                && r.value.client == Client(ClientOptions(group), newNameServer(options.resolver).value)
      ensures options.Value() == old(options.Value())
    {
      var clientOptions := ClientOptions(group);
      var nameServer := newNameServer(options.resolver);
      if nameServer.Failure? {
        return Failure(nameServer.error);
      }
      var p := new Producer(group, options.Value(), Client(clientOptions, nameServer.value));
      r := Success(p);
    }

    /** `Producer::new(group)`: `with_options` over the default options. */
    static method New(group: string, newNameServer: NameServerFactory) returns (r: Result<Producer, Error>)
      ensures newNameServer(Http(DEFAULT_RESOLVER_NAME, None)).Failure? ==> r.Failure?
      ensures newNameServer(Http(DEFAULT_RESOLVER_NAME, None)).Success? ==>
                && r.Success? && fresh(r.value)
                && r.value.group == group
                && r.value.options == Options(RoundRobin, DEFAULT_SEND_MSG_TIMEOUT_MS,
                     DEFAULT_TOPIC_QUEUE_NUMS, DEFAULT_CREATE_TOPIC_KEY, Http(DEFAULT_RESOLVER_NAME, None))
    {
      var options := new ProducerOptions();
      r := WithOptions(group, options, newNameServer);
    }
  }
}
