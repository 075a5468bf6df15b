/** The KafkaBench API types: the desired state (`KafkaBenchSpec`), the
    observed state recorded by the controller (`KafkaBenchObservation`) and
    the three result-statistics records the agents report. The custom
    resource itself is a class, because the controller updates its observed
    state in place. */
module V1alpha1 {
  import opened Prelude
  import opened Json

  /** Go's `float64`, kept as an opaque bit pattern: no arithmetic is done
      on these values anywhere in the core. */
  datatype Float64 = Float64(bits: bv64)

  datatype KafkaTopics = KafkaTopics(numPartitions: Int16, replicationFactor: Int8)

  /** The desired state. `resourceSpec` stands for the inlined
      crossplane-runtime `ResourceSpec`, given as the JSON members it
      contributes (`providerConfigRef`, `deletionPolicy`, ...);
      `workloadClass` is the `class` field. */
  datatype KafkaBenchSpec = KafkaBenchSpec(
    resourceSpec: map<string, Json>,
    workloadClass: string,
    durationMs: Int64,
    producerNode: string,
    consumerNode: string,
    clientNode: string,
    consumerGroup: string,
    threadsPerWorker: Int32,
    bootstrapServers: string,
    targetMessagesPerSec: Int32,
    maxMessages: Int64,
    activeTopics: map<string, KafkaTopics>,
    inactiveTopics: map<string, KafkaTopics>,
    producerConf: map<string, string>,
    consumerConf: map<string, string>,
    commonClientConf: map<string, string>,
    adminClientConf: map<string, string>)

  datatype ProducerBenchResultStats = ProducerBenchResultStats(
    totalSent: Int64,
    averageLatencyMs: Float64,
    p50LatencyMs: Int64,
    p95LatencyMs: Int64,
    p99LatencyMs: Int64,
    transactionsCommitted: Int64)

  datatype RoundTripBenchResultStats = RoundTripBenchResultStats(
    totalUniqueSent: Int64,
    totalReceived: Int64)

  datatype ConsumerBenchResultStats = ConsumerBenchResultStats(
    assignedPartitions: seq<string>,
    totalMessagesReceived: Int64,
    totalBytesReceived: Int64,
    averageMessageSizeBytes: Int64,
    averageLatencyMs: Float64,
    p50LatencyMs: Int64,
    p95LatencyMs: Int64,
    p99LatencyMs: Int64,
    recordProcessorStatus: map<string, string>)

  /** The observed state kept in `status.atProvider`. */
  datatype KafkaBenchObservation = KafkaBenchObservation(
    taskStatus: string,
    taskId: string,
    workerId: Int64,
    producerStats: ProducerBenchResultStats,
    consumerStats: map<string, ConsumerBenchResultStats>,
    roundTripStats: RoundTripBenchResultStats)

  /** The custom resource: object metadata, the desired state, and the
      observed state that the controller's lifecycle methods rewrite. */
  class KafkaBench {
    const name: string
    const namespace: string
    const spec: KafkaBenchSpec
    var atProvider: KafkaBenchObservation

    constructor (name: string, namespace: string, spec: KafkaBenchSpec, atProvider: KafkaBenchObservation)
      ensures this.name == name && this.namespace == namespace
      ensures this.spec == spec && this.atProvider == atProvider
    {
      this.name := name;
      this.namespace := namespace;
      this.spec := spec;
      this.atProvider := atProvider;
    }
  }
}
