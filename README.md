# Pipeline assembly of the Kafka broker's HTTP dispatcher

This project models `HttpConsumerVerticleFactory`, the factory that builds one
dispatch pipeline per (resource, egress) pair of the Knative Kafka broker's data
plane. It covers:

- the **retry policy** handed to every sender's circuit breaker: linear
  (`delay * n`), exponential (`delay * 2^n`, also used for unrecognised
  policy numbers) or constant zero when no usable backoff is configured. Java
  `long` arithmetic is modelled exactly: products wrap around in 64 bits, and
  `Math.round(Math.pow(2, n))` is 2^n up to n = 62, then saturates at
  `Long.MAX_VALUE` (`JavaNumbers`, `Backoff`);
- the **assembly decisions** of `get`, gathered in a `ConsumerVerticlePlan`:
  the destination sender, the dead-letter sender or the "no DLQ set" sentinel,
  the circuit breaker's retry count, the attribute or no-op filter, the reply
  topic (the first topic; an empty topic list throws), and the subscribed topic
  set (`VerticleFactory`);
- the **clone-and-override** of the shared consumer and producer `Properties`
  prototypes, as an imperative class whose methods clone the prototype and set
  keys on the copy. The prototypes themselves are never modified.

Files: `wrappers.dfy` (Option, Result), `java_numbers.dfy` (Java integer
widths, wrap-around, powers of two), `contract.dfy` (the contract messages),
`backoff.dfy` (retry policies), `verticle_factory.dfy` (assembly).

Three facts about the source shape the model:

- the sentinel sender used without a dead letter fails with the message
  "no DLQ set" (line 55);
- the circuit-breaker options and the retry policies of both senders are read
  from `resource.getEgressConfig()`, the resource's egress config (lines
  110-122);
- the exponential policy rounds `2^n` and then multiplies by the delay, so
  only the power of two goes through floating point (line 216).

The Java code compares the egress config, its dead-letter URI and its backoff
policy with `null` (lines 120 and 205), so all three are `Option`s here.
Protobuf getters actually return default values.
`DefaultConfigMatchesUnset` shows that both readings lead to the same
decisions.

## Model

| member | source | states |
|---|---|---|
| `Backoff.ComputeRetryPolicy` | data-plane/dispatcher/src/main/java/dev/knative/eventing/kafka/broker/dispatcher/http/HttpConsumerVerticleFactory.java:204-213 | no retry exactly when the config is null, has no policy or has a delay ≤ 0; linear exactly for the Linear policy; otherwise the policy carries the configured positive delay |
| `Backoff.LinearRetryPolicy` | data-plane/dispatcher/src/main/java/dev/knative/eventing/kafka/broker/dispatcher/http/HttpConsumerVerticleFactory.java:219-221 | the result is `delay * retryCount` whenever that product fits in a `long` |
| `Backoff.ExponentialRetryPolicy` | data-plane/dispatcher/src/main/java/dev/knative/eventing/kafka/broker/dispatcher/http/HttpConsumerVerticleFactory.java:215-217 | the result is `delay * 2^retryCount` for 0 ≤ retryCount ≤ 62 whenever that product fits in a `long` |
| `JavaNumbers.MathRoundPow2` | data-plane/dispatcher/src/main/java/dev/knative/eventing/kafka/broker/dispatcher/http/HttpConsumerVerticleFactory.java:216 | `Math.round(Math.pow(2, n))` is exactly 2^n for 0 ≤ n ≤ 62, `Long.MAX_VALUE` above, never negative |
| `JavaNumbers.LongMul` | data-plane/dispatcher/src/main/java/dev/knative/eventing/kafka/broker/dispatcher/http/HttpConsumerVerticleFactory.java:216 | Java `long` multiplication equals the exact product when it fits in 64 bits |
| `Backoff.LinearDelay` | data-plane/dispatcher/src/main/java/dev/knative/eventing/kafka/broker/dispatcher/http/HttpConsumerVerticleFactory.java:208 | a Linear config with a positive delay waits `backoffDelay * retryCount`: 0 at retry count 0, positive from 1 on |
| `Backoff.ExponentialDelay` | data-plane/dispatcher/src/main/java/dev/knative/eventing/kafka/broker/dispatcher/http/HttpConsumerVerticleFactory.java:209 | an Exponential or unrecognised config with a positive delay waits `backoffDelay * 2^retryCount` (0 ≤ n ≤ 62, no overflow), always positive |
| `Backoff.ExponentialDoubles` | data-plane/dispatcher/src/main/java/dev/knative/eventing/kafka/broker/dispatcher/http/HttpConsumerVerticleFactory.java:215-217 | while no overflow occurs, each further retry waits exactly twice as long |
| `Backoff.DelayMonotone` | data-plane/dispatcher/src/main/java/dev/knative/eventing/kafka/broker/dispatcher/http/HttpConsumerVerticleFactory.java:207-210 | while no overflow occurs, a later retry never waits less than an earlier one, under either policy |
| `Backoff.NeverWaitsIffNoUsableBackoff` | data-plane/dispatcher/src/main/java/dev/knative/eventing/kafka/broker/dispatcher/http/HttpConsumerVerticleFactory.java:205-212 | the policy is zero for every retry count if and only if the config is null, has no policy or has a delay ≤ 0 |
| `Backoff.ExponentialWrapsAt63` | data-plane/dispatcher/src/main/java/dev/knative/eventing/kafka/broker/dispatcher/http/HttpConsumerVerticleFactory.java:216 | beyond the `long` range the delay wraps: delay 2 at retry count 63 yields -2 |
| `VerticleFactory.ConsumerConfig` | data-plane/dispatcher/src/main/java/dev/knative/eventing/kafka/broker/dispatcher/http/HttpConsumerVerticleFactory.java:173-175 | consumer settings are the prototype's keys plus `group.id` and `bootstrap.servers`, with those two set to the consumer group and the bootstrap servers and every other key unchanged |
| `VerticleFactory.ProducerConfig` | data-plane/dispatcher/src/main/java/dev/knative/eventing/kafka/broker/dispatcher/http/HttpConsumerVerticleFactory.java:155-156 | producer settings are the prototype with only `bootstrap.servers` set, every other key unchanged |
| `VerticleFactory.Plan` | data-plane/dispatcher/src/main/java/dev/knative/eventing/kafka/broker/dispatcher/http/HttpConsumerVerticleFactory.java:99-138 | assembly fails exactly when the topic list is empty; otherwise the reply topic is the first topic and is subscribed, and the subscribed set holds exactly the listed topics |
| `VerticleFactory.HttpConsumerVerticleFactory.Get` | data-plane/dispatcher/src/main/java/dev/knative/eventing/kafka/broker/dispatcher/http/HttpConsumerVerticleFactory.java:99-138 | the imperative assembly yields exactly the decisions of `Plan` on the current prototypes and changes no existing object |
| `VerticleFactory.HttpConsumerVerticleFactory.CreateConsumer` | data-plane/dispatcher/src/main/java/dev/knative/eventing/kafka/broker/dispatcher/http/HttpConsumerVerticleFactory.java:167-186 | returns a fresh copy of the consumer prototype with the two keys overridden; the prototype is unchanged |
| `VerticleFactory.HttpConsumerVerticleFactory.CreateProducer` | data-plane/dispatcher/src/main/java/dev/knative/eventing/kafka/broker/dispatcher/http/HttpConsumerVerticleFactory.java:149-165 | returns a fresh copy of the producer prototype with the bootstrap servers overridden; the prototype is unchanged |
| `VerticleFactory.HttpConsumerVerticleFactory.constructor` | data-plane/dispatcher/src/main/java/dev/knative/eventing/kafka/broker/dispatcher/http/HttpConsumerVerticleFactory.java:73-93 | the factory keeps the two given prototypes |
| `VerticleFactory.DeadLetterChoice` | data-plane/dispatcher/src/main/java/dev/knative/eventing/kafka/broker/dispatcher/http/HttpConsumerVerticleFactory.java:119-122 | the dead-letter sender fails at once with "no DLQ set" exactly when the config is null or its dead letter is null or empty; otherwise it is an HTTP sender for the dead-letter URI sharing the destination sender's options and retry policy |
| `VerticleFactory.DestinationSender` | data-plane/dispatcher/src/main/java/dev/knative/eventing/kafka/broker/dispatcher/http/HttpConsumerVerticleFactory.java:110-118 | the destination sender targets the egress destination, its circuit breaker's max retries is the config's `retry` when the resource has a config and the library default otherwise, and its retry policy is computed from the config |
| `VerticleFactory.FilterChoice` | data-plane/dispatcher/src/main/java/dev/knative/eventing/kafka/broker/dispatcher/http/HttpConsumerVerticleFactory.java:131 | the filter is the attribute filter over the egress's attribute map exactly when the egress has a filter, else the no-op filter |
| `VerticleFactory.ConfigsFromPrototypes` | data-plane/dispatcher/src/main/java/dev/knative/eventing/kafka/broker/dispatcher/http/HttpConsumerVerticleFactory.java:104-108 | the plan's consumer and producer settings derive from the prototypes and agree on the bootstrap servers |
| `VerticleFactory.SubscribedTopicsSize` | data-plane/dispatcher/src/main/java/dev/knative/eventing/kafka/broker/dispatcher/http/HttpConsumerVerticleFactory.java:137 | the subscribed set has at most as many topics as the list, and exactly as many if and only if the list has no duplicates |
| `VerticleFactory.DefaultConfigMatchesUnset` | data-plane/dispatcher/src/main/java/dev/knative/eventing/kafka/broker/dispatcher/http/HttpConsumerVerticleFactory.java:110-122 | reading an unset egress config as protobuf's default message instead of null gives the same dead-letter sender, retry policy and circuit-breaker options |
| `Backoff.Delay` | data-plane/dispatcher/src/main/java/dev/knative/eventing/kafka/broker/dispatcher/http/HttpConsumerVerticleFactory.java:207-212 | applying a policy: no retry is 0 for every count; linear is `delay * n` and exponential `delay * 2^n` (0 ≤ n ≤ 62) whenever the product fits in a `long` |
| `Backoff.ExponentialWrapsPast62` | data-plane/dispatcher/src/main/java/dev/knative/eventing/kafka/broker/dispatcher/http/HttpConsumerVerticleFactory.java:215-217 | for every positive delay and every retry count above 62 the wrapped product is the negated delay when the delay is even, and `Long.MAX_VALUE + 1 - delay` when it is odd |
| `VerticleFactory.Send` | data-plane/dispatcher/src/main/java/dev/knative/eventing/kafka/broker/dispatcher/http/HttpConsumerVerticleFactory.java:54-55 | the sent record fails at once exactly for the no-DLQ sentinel, with the message "no DLQ set"; an HTTP sender hands the record on to its own target |
| `VerticleFactory.CreateCircuitBreakerOptions` | data-plane/dispatcher/src/main/java/dev/knative/eventing/kafka/broker/dispatcher/http/HttpConsumerVerticleFactory.java:140-147 | max retries is the egress config's `retry` when the resource has a config, the Vert.x default otherwise |
| `VerticleFactory.CreateSender` | data-plane/dispatcher/src/main/java/dev/knative/eventing/kafka/broker/dispatcher/http/HttpConsumerVerticleFactory.java:188-201 | an HTTP sender for the given target with the given circuit-breaker options and the retry policy computed from the config; every record is dispatched to that target |
| `VerticleFactory.DeadLetterSender` | data-plane/dispatcher/src/main/java/dev/knative/eventing/kafka/broker/dispatcher/http/HttpConsumerVerticleFactory.java:119-122 | the sentinel exactly when the config is null or its dead letter is null or empty; otherwise the HTTP sender built for the dead-letter URI |
| `VerticleFactory.SelectFilter` | data-plane/dispatcher/src/main/java/dev/knative/eventing/kafka/broker/dispatcher/http/HttpConsumerVerticleFactory.java:131 | an attribute filter exactly when the egress has a filter, carrying that filter's attribute map; the no-op filter otherwise |
| `VerticleFactory.SubscribedTopics` | data-plane/dispatcher/src/main/java/dev/knative/eventing/kafka/broker/dispatcher/http/HttpConsumerVerticleFactory.java:137 | a topic is subscribed exactly when it occurs in the resource's topic list |

## Left out

- Construction of the Kafka consumer and producer, their Vert.x wrappers, the `WebClient` and the `ConsumerVerticle`: client-library plumbing. The plan records only their settings and the subscribed topic set.
- The Vert.x `CircuitBreaker` and `HttpConsumerRecordSender` (lines 188-201). `Send` on an HTTP sender only records that the record was handed to the sender for that target. The default `maxRetries` of Vert.x `CircuitBreakerOptions` is taken to be 0; that constant is defined by Vert.x, outside `HttpConsumerVerticleFactory.java`.
- The offset-strategy factory, `HttpSinkResponseHandler` and `ConsumerRecordHandler`. Only the reply topic given to the response handler is modelled; these classes are not part of this model.
- `AttributesFilter` matching: only the choice between the attribute filter and the no-op filter is modelled.
- The `requireNonNull` checks (lines 81-86, 101-102). Values in the model cannot be null.
- Floating point: `Math.pow` and `Math.round` are modelled by their exact results on integer exponents. Negative retry counts follow Java's rounding of 0.5, 0.25 and so on, but the delay-value lemmas `LinearDelay`, `ExponentialDelay`, `ExponentialDoubles` and `DelayMonotone` consider only non-negative counts, as the circuit breaker supplies.
- `Properties` is a table of arbitrary objects in Java; here it maps strings to strings, which is all the factory stores.
