/**
 * Assembly of one dispatch pipeline for a (resource, egress) pair: which
 * senders, which filter, which reply topic, which subscription and which
 * consumer and producer settings. The Kafka and Vert.x objects built from
 * these decisions are not modelled; `ConsumerVerticlePlan` records the
 * decisions themselves.
 */
module VerticleFactory {
  import opened Wrappers
  import opened JavaNumbers
  import opened Contract
  import opened Backoff

  /** Kafka's `ConsumerConfig.GROUP_ID_CONFIG`. */
  const GroupIdConfig := "group.id"
  /** Kafka's `BOOTSTRAP_SERVERS_CONFIG`, the same key for consumers and producers. */
  const BootstrapServersConfig := "bootstrap.servers"
  /** Vert.x `CircuitBreakerOptions` default for `maxRetries`. */
  const DefaultMaxRetries: Int32 := 0
  /** The failure message of the sender used when no dead letter is configured. */
  const NoDlqMessage := "no DLQ set"

  datatype CircuitBreakerOptions = CircuitBreakerOptions(maxRetries: Int32)

  /** A record sender: the no-dead-letter sentinel, or an HTTP sender behind a circuit breaker. */
  datatype Sender =
    | NoDlqSender
    | HttpSender(target: string, options: CircuitBreakerOptions, retryPolicy: RetryPolicy)

  /** A consumed record, as far as the senders see it. */
  datatype ConsumerRecord = ConsumerRecord(key: string, partition: nat, offset: nat)

  /** What `send` returns: an already failed future, or the record handed to the HTTP sender for `target`. */
  datatype SendResult = FailedFuture(message: string) | Dispatched(target: string, record: ConsumerRecord)

  datatype EventFilter = NoopFilter | AttributesFilter(attributes: map<string, string>)

  /** `resource.getTopics(0)` on an empty topic list throws. */
  datatype AssemblyError = TopicIndexOutOfBounds

  /** The decisions `get` takes for one pipeline. */
  datatype ConsumerVerticlePlan = ConsumerVerticlePlan(
    consumerConfig: map<string, string>,
    producerConfig: map<string, string>,
    destinationSender: Sender,
    deadLetterSender: Sender,
    filter: EventFilter,
    replyTopic: string,
    topics: set<string>)

  /** What a sender's `send` returns for a record; the HTTP sender's own work is not modelled. */
  function Send(sender: Sender, record: ConsumerRecord): (r: SendResult)
    ensures r.FailedFuture? <==> sender.NoDlqSender?
    ensures sender.NoDlqSender? ==> r.message == NoDlqMessage
    ensures sender.HttpSender? ==> r.target == sender.target && r.record == record
  {
    match sender
    case NoDlqSender => FailedFuture(NoDlqMessage)
    case HttpSender(target, _, _) => Dispatched(target, record)
  }

  /** The options shared by both senders: the config's retry count, or the library default without a config. */
  function CreateCircuitBreakerOptions(resource: Resource): (o: CircuitBreakerOptions)
    ensures resource.egressConfig.Some? ==> o.maxRetries == resource.egressConfig.value.retry
    ensures resource.egressConfig.None? ==> o.maxRetries == DefaultMaxRetries
  {
    if resource.egressConfig.Some? then CircuitBreakerOptions(resource.egressConfig.value.retry)
    else CircuitBreakerOptions(DefaultMaxRetries)
  }

  /** An HTTP sender for `target` whose circuit breaker uses `options` and the policy computed from `egress`. */
  function CreateSender(target: string, options: CircuitBreakerOptions, egress: Option<EgressConfig>): (s: Sender)
    ensures s.HttpSender? && s.target == target && s.options == options
    ensures s.retryPolicy == ComputeRetryPolicy(egress)
    ensures forall record :: Send(s, record) == Dispatched(target, record)
  {
    HttpSender(target, options, ComputeRetryPolicy(egress))
  }

  /** A dead letter is configured: a config whose dead-letter URI is neither null nor empty. */
  predicate HasDeadLetter(egressConfig: Option<EgressConfig>) {
    egressConfig.Some? && egressConfig.value.deadLetter.Some? && egressConfig.value.deadLetter.value != ""
  }

  /** The sentinel without a dead letter, else an HTTP sender for the dead-letter URI. */
  function DeadLetterSender(egressConfig: Option<EgressConfig>, options: CircuitBreakerOptions): (s: Sender)
    ensures s.NoDlqSender? <==> !HasDeadLetter(egressConfig)
    ensures HasDeadLetter(egressConfig) ==> s == CreateSender(egressConfig.value.deadLetter.value, options, egressConfig)
  {
    if !HasDeadLetter(egressConfig) then
      NoDlqSender
    else
      CreateSender(egressConfig.value.deadLetter.value, options, egressConfig)
  }

  /** The attribute filter over the egress's map when it has a filter, else the filter that lets everything through. */
  function SelectFilter(egress: Egress): (f: EventFilter)
    ensures f.AttributesFilter? <==> egress.filter.Some?
    ensures egress.filter.Some? ==> f.attributes == egress.filter.value.attributes
  {
    if egress.filter.Some? then AttributesFilter(egress.filter.value.attributes) else NoopFilter
  }

  /** `new HashSet<>(topics)`. */
  function SubscribedTopics(topics: seq<string>): (s: set<string>)
    ensures forall t :: t in s <==> t in topics
  {
    set t | t in topics
  }

  predicate Distinct(s: seq<string>) {
    forall i, j :: 0 <= i < j < |s| ==> s[i] != s[j]
  }

  /** The consumer settings: the prototype with the group id and the bootstrap servers overwritten. */
  function ConsumerConfig(prototype: map<string, string>, consumerGroup: string, bootstrapServers: string)
    : (c: map<string, string>)
    ensures c.Keys == prototype.Keys + {GroupIdConfig, BootstrapServersConfig}
    ensures c[GroupIdConfig] == consumerGroup && c[BootstrapServersConfig] == bootstrapServers
    ensures forall k :: k in prototype && k != GroupIdConfig && k != BootstrapServersConfig ==> c[k] == prototype[k]
  {
    prototype[GroupIdConfig := consumerGroup][BootstrapServersConfig := bootstrapServers]
  }

  /** The producer settings: the prototype with only the bootstrap servers overwritten. */
  function ProducerConfig(prototype: map<string, string>, bootstrapServers: string): (c: map<string, string>)
    ensures c.Keys == prototype.Keys + {BootstrapServersConfig}
    ensures c[BootstrapServersConfig] == bootstrapServers
    ensures forall k :: k in prototype && k != BootstrapServersConfig ==> c[k] == prototype[k]
  {
    prototype[BootstrapServersConfig := bootstrapServers]
  }

  /** The decisions of `get`, in its order; an empty topic list fails at the reply topic. */
  function Plan(consumerPrototype: map<string, string>, producerPrototype: map<string, string>,
                resource: Resource, egress: Egress): (r: Result<ConsumerVerticlePlan, AssemblyError>)
    ensures r.Failure? <==> resource.topics == []
    ensures r.Success? ==> r.value.replyTopic == resource.topics[0] && r.value.replyTopic in r.value.topics
    ensures r.Success? ==> forall t :: t in r.value.topics <==> t in resource.topics
  {
    var options := CreateCircuitBreakerOptions(resource);
    var destinationSender := CreateSender(egress.destination, options, resource.egressConfig);
    var deadLetterSender := DeadLetterSender(resource.egressConfig, options);
    if resource.topics == [] then
      Failure(TopicIndexOutOfBounds)
    else
      Success(ConsumerVerticlePlan(
        ConsumerConfig(consumerPrototype, egress.consumerGroup, resource.bootstrapServers),
        ProducerConfig(producerPrototype, resource.bootstrapServers),
        destinationSender,
        deadLetterSender,
        SelectFilter(egress),
        resource.topics[0],
        SubscribedTopics(resource.topics)))
  }

  /** `java.util.Properties`, as far as the factory uses it. */
  class Properties {
    var entries: map<string, string>

    constructor (entries: map<string, string>)
      ensures this.entries == entries
    {
      this.entries := entries;
    }

    method Clone() returns (copy: Properties)
      ensures fresh(copy) && copy.entries == entries
    {
      copy := new Properties(entries);
    }

    method SetProperty(key: string, value: string)
      modifies this
      ensures entries == old(entries)[key := value]
    {
      entries := entries[key := value];
    }
  }

  class HttpConsumerVerticleFactory {
    /** Shared prototypes; every pipeline works on its own copy. */
    const consumerConfigs: Properties
    const producerConfigs: Properties

    constructor (consumerConfigs: Properties, producerConfigs: Properties)
      ensures this.consumerConfigs == consumerConfigs && this.producerConfigs == producerConfigs
    {
      this.consumerConfigs := consumerConfigs;
      this.producerConfigs := producerConfigs;
    }

    method CreateProducer(resource: Resource, egress: Egress) returns (configs: Properties)
      ensures fresh(configs) && unchanged(producerConfigs)
      ensures configs.entries == ProducerConfig(producerConfigs.entries, resource.bootstrapServers)
    {
      configs := producerConfigs.Clone();
      configs.SetProperty(BootstrapServersConfig, resource.bootstrapServers);
    }

    method CreateConsumer(resource: Resource, egress: Egress) returns (configs: Properties)
      ensures fresh(configs) && unchanged(consumerConfigs)
      ensures configs.entries == ConsumerConfig(consumerConfigs.entries, egress.consumerGroup, resource.bootstrapServers)
    {
      configs := consumerConfigs.Clone();
      configs.SetProperty(GroupIdConfig, egress.consumerGroup);
      configs.SetProperty(BootstrapServersConfig, resource.bootstrapServers);
    }

    /** Builds the pipeline; it changes no existing object, so the shared prototypes stay as they were. */
    method Get(resource: Resource, egress: Egress) returns (verticle: Result<ConsumerVerticlePlan, AssemblyError>)
      ensures verticle == Plan(consumerConfigs.entries, producerConfigs.entries, resource, egress)
    {
      var consumer := CreateConsumer(resource, egress);
      var producer := CreateProducer(resource, egress);
      var options := CreateCircuitBreakerOptions(resource);
      var egressConfig := resource.egressConfig;
      var destinationSender := CreateSender(egress.destination, options, egressConfig);
      var deadLetterSender := DeadLetterSender(egressConfig, options);
      if resource.topics == [] {
        return Failure(TopicIndexOutOfBounds);
      }
      var replyTopic := resource.topics[0];
      var filter := SelectFilter(egress);
      verticle := Success(ConsumerVerticlePlan(
        consumer.entries, producer.entries, destinationSender, deadLetterSender,
        filter, replyTopic, SubscribedTopics(resource.topics)));
    }
  }

  /**
   * The dead-letter sender fails at once with "no DLQ set" exactly when no
   * dead letter is configured; otherwise it is an HTTP sender for the
   * dead-letter URI with the destination sender's options and retry policy.
   */
  lemma DeadLetterChoice(consumerPrototype: map<string, string>, producerPrototype: map<string, string>,
                         resource: Resource, egress: Egress, record: ConsumerRecord)
    requires Plan(consumerPrototype, producerPrototype, resource, egress).Success?
    ensures var plan := Plan(consumerPrototype, producerPrototype, resource, egress).value;
      && (Send(plan.deadLetterSender, record) == FailedFuture(NoDlqMessage) <==> !HasDeadLetter(resource.egressConfig))
      && (HasDeadLetter(resource.egressConfig) ==>
            plan.deadLetterSender == HttpSender(resource.egressConfig.value.deadLetter.value,
                                                plan.destinationSender.options,
                                                plan.destinationSender.retryPolicy))
  {
  }

  /**
   * The destination sender targets the egress destination under the
   * configured retry count (or the library default) and the retry policy
   * computed from the resource's egress config.
   */
  lemma DestinationSender(consumerPrototype: map<string, string>, producerPrototype: map<string, string>,
                          resource: Resource, egress: Egress, record: ConsumerRecord)
    requires Plan(consumerPrototype, producerPrototype, resource, egress).Success?
    ensures var plan := Plan(consumerPrototype, producerPrototype, resource, egress).value;
      && plan.destinationSender.HttpSender?
      && Send(plan.destinationSender, record) == Dispatched(egress.destination, record)
      && plan.destinationSender.options.maxRetries
           == (if resource.egressConfig.Some? then resource.egressConfig.value.retry else DefaultMaxRetries)
      && plan.destinationSender.retryPolicy == ComputeRetryPolicy(resource.egressConfig)
  {
  }

  /** The filter is the egress's attribute filter when it has one, and the no-op filter otherwise. */
  lemma FilterChoice(consumerPrototype: map<string, string>, producerPrototype: map<string, string>,
                     resource: Resource, egress: Egress)
    requires Plan(consumerPrototype, producerPrototype, resource, egress).Success?
    ensures var plan := Plan(consumerPrototype, producerPrototype, resource, egress).value;
      && (plan.filter.AttributesFilter? <==> egress.filter.Some?)
      && (egress.filter.Some? ==> plan.filter.attributes == egress.filter.value.attributes)
  {
  }

  /** Consumer and producer settings are the prototypes with only their overridden keys replaced. */
  lemma ConfigsFromPrototypes(consumerPrototype: map<string, string>, producerPrototype: map<string, string>,
                              resource: Resource, egress: Egress)
    requires Plan(consumerPrototype, producerPrototype, resource, egress).Success?
    ensures var plan := Plan(consumerPrototype, producerPrototype, resource, egress).value;
      && plan.consumerConfig == ConsumerConfig(consumerPrototype, egress.consumerGroup, resource.bootstrapServers)
      && plan.producerConfig == ProducerConfig(producerPrototype, resource.bootstrapServers)
      && plan.consumerConfig[BootstrapServersConfig] == plan.producerConfig[BootstrapServersConfig]
  {
  }

  /** The subscription has at most as many topics as the list, and exactly as many when the list has no repeats. */
  lemma {:induction false} SubscribedTopicsSize(topics: seq<string>)
    ensures |SubscribedTopics(topics)| <= |topics|
    ensures |SubscribedTopics(topics)| == |topics| <==> Distinct(topics)
  {
    if topics != [] {
      var rest := topics[1..];
      SubscribedTopicsSize(rest);
      assert SubscribedTopics(topics) == {topics[0]} + SubscribedTopics(rest);
      if topics[0] in rest {
        var j :| 0 <= j < |rest| && rest[j] == topics[0];
        assert topics[0] == topics[j + 1];
        assert !Distinct(topics);
      } else {
        assert Distinct(topics) <==> Distinct(rest) by {
          if Distinct(rest) {
            forall i, j | 0 <= i < j < |topics| ensures topics[i] != topics[j] {
              if i == 0 { assert topics[j] == rest[j - 1]; }
              else { assert topics[i] == rest[i - 1] && topics[j] == rest[j - 1]; }
            }
          }
          if Distinct(topics) {
            forall i, j | 0 <= i < j < |rest| ensures rest[i] != rest[j] {
              assert rest[i] == topics[i + 1] && rest[j] == topics[j + 1];
            }
          }
        }
      }
    }
  }

  /**
   * Reading an unset egress config as protobuf's default message instead of
   * `null` changes none of the decisions: still no dead letter, no backoff
   * and the default number of retries.
   */
  lemma DefaultConfigMatchesUnset(resource: Resource, options: CircuitBreakerOptions)
    requires resource.egressConfig.None?
    ensures DeadLetterSender(Some(DefaultEgressConfig), options) == DeadLetterSender(None, options) == NoDlqSender
    ensures ComputeRetryPolicy(Some(DefaultEgressConfig)) == ComputeRetryPolicy(None)
    ensures CreateCircuitBreakerOptions(resource.(egressConfig := Some(DefaultEgressConfig)))
         == CreateCircuitBreakerOptions(resource)
  {
  }
}
