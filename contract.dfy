/**
 * The parts of the data-plane contract (the protobuf messages `Resource`,
 * `Egress`, `EgressConfig` and `Filter`) that pipeline assembly reads.
 * The Java code compares some of these values with `null`; an `Option`
 * field stands for each of them.
 */
module Contract {
  import opened Wrappers
  import opened JavaNumbers

  /** `BackoffPolicy`; `Unrecognized` is the value protobuf yields for an enum number it does not know. */
  datatype BackoffPolicy = Exponential | Linear | Unrecognized

  /** Delivery settings of a resource. */
  datatype EgressConfig = EgressConfig(
    deadLetter: Option<string>,
    retry: Int32,
    backoffPolicy: Option<BackoffPolicy>,
    backoffDelay: Int64)

  /** An attribute filter: attribute name to expected value. */
  datatype Filter = Filter(attributes: map<string, string>)

  /** One subscription of a resource. */
  datatype Egress = Egress(
    consumerGroup: string,
    destination: string,
    filter: Option<Filter>)

  /** A log address (bootstrap servers and topics) with its optional egress configuration. */
  datatype Resource = Resource(
    topics: seq<string>,
    bootstrapServers: string,
    egressConfig: Option<EgressConfig>)

  /**
   * The message protobuf's `getEgressConfig()` hands back when the field is
   * unset: every field at its zero value, the enum at its first constant.
   */
  const DefaultEgressConfig := EgressConfig(Some(""), 0, Some(Exponential), 0)
}
