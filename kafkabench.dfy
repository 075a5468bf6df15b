/** The KafkaBench lifecycle driver. The reconciler calls Observe, then
    Create, Update or Delete; each of the last three rewrites fields of the
    resource's observed state (`atProvider`) in place. The agent service's
    network is passed in, as the resolver's answer and the reply functions
    of `AgentService`; so is the foreign `mapstructure.Decode`, as one
    decoder per statistics record. */
module Controller {
  import opened Prelude
  import opened Json
  import opened V1alpha1
  import opened AgentService
  import opened Strconv

  datatype ExternalObservation = ExternalObservation(
    resourceExists: bool,
    resourceUpToDate: bool,
    connectionDetails: map<string, string>)

  /** Go's zero value of the observed state. */
  const EmptyObservation: KafkaBenchObservation :=
    KafkaBenchObservation(
      "", "", 0,
      ProducerBenchResultStats(0, Float64(0), 0, 0, 0, 0),
      map[],
      RoundTripBenchResultStats(0, 0))

  /** The resource exists once a task id is recorded, and is up to date
      once the recorded task status is `DONE`. */
  function Observe(cr: KafkaBench): (o: ExternalObservation)
    reads cr
    ensures o.resourceExists <==> cr.atProvider.taskId != ""
    ensures o.resourceUpToDate <==> cr.atProvider.taskStatus == "DONE"
    ensures o.connectionDetails == map[]
  {
    ExternalObservation(cr.atProvider.taskId != "", cr.atProvider.taskStatus == "DONE", map[])
  }

  /** A fresh resource is neither created nor up to date. */
  lemma ObserveEmptyStatus(cr: KafkaBench)
    requires cr.atProvider == EmptyObservation
    ensures Observe(cr) == ExternalObservation(false, false, map[])
  {
  }

  /** Creates the task on the pool and records its ids. On an error the
      observed state is left as it was, even though the agent service built
      a task and may have created it on some agents. */
  method Create(
    cr: KafkaBench, nowMs: Int64, workerId: Int63, taskId: string,
    resolved: Result<seq<string>>, post: string -> Reply)
    returns (r: Result<map<string, string>>)
    modifies cr
    ensures r.Failure? ==> cr.atProvider == old(cr.atProvider)
    ensures r.Failure? && resolved.Failure? ==> r.error == resolved.error
    ensures r.Failure? && resolved.Success? ==>
      exists i :: 0 <= i < |resolved.value| && post(CreateUrl(resolved.value[i])) == TransportError(r.error)
    ensures r.Success? ==>
      cr.atProvider == old(cr.atProvider).(taskStatus := "CREATED", taskId := taskId, workerId := workerId)
    ensures r.Success? ==> r.value == map["taskId" := taskId, "name" := cr.name, "namespace" := cr.namespace]
    ensures r.Success? <==>
      resolved.Success? &&
      forall i :: 0 <= i < |resolved.value| ==> !post(CreateUrl(resolved.value[i])).TransportError?
    ensures r.Success? && taskId != "" ==> Observe(cr).resourceExists && !Observe(cr).resourceUpToDate
  {
    var workerTask, body, err := CreateWorkerTask(cr.spec, nowMs, workerId, taskId, resolved, post);
    if err.Some? {
      return Failure(err.value);
    }
    cr.atProvider := cr.atProvider.(taskStatus := "CREATED");
    cr.atProvider := cr.atProvider.(taskId := workerTask.value.taskId);
    cr.atProvider := cr.atProvider.(workerId := workerTask.value.workerId);
    return Success(map["taskId" := workerTask.value.taskId, "name" := cr.name, "namespace" := cr.namespace]);
  }

  /** What `mapstructure.Decode` leaves in its target, and its error. The
      target's previous value is an input: decoding writes into it, so
      members absent from the input keep their value, and a failure can
      leave a partly written target. */
  datatype Decoded<T> = Decoded(value: T, error: Option<string>)

  datatype Decoders = Decoders(
    producer: (map<string, Json>, ProducerBenchResultStats) -> Decoded<ProducerBenchResultStats>,
    roundTrip: (map<string, Json>, RoundTripBenchResultStats) -> Decoded<RoundTripBenchResultStats>,
    consumer: (map<string, Json>, map<string, ConsumerBenchResultStats>)
                -> Decoded<map<string, ConsumerBenchResultStats>>)

  datatype Applied = Applied(observation: KafkaBenchObservation, error: Option<string>)

  /** The observed state after a successful collect returned `entry`: the
      task status is the entry's state, and when the entry's status is a
      result object, the one statistics record named by the workload class
      is decoded from it. */
  function ApplyStatus(obs: KafkaBenchObservation, workloadClass: string, entry: AgentStatusWorkers, decode: Decoders)
    : (r: Applied)
    ensures r.observation.taskStatus == entry.state
    ensures r.observation.taskId == obs.taskId && r.observation.workerId == obs.workerId
    ensures !entry.status.JObject? ==> r == Applied(obs.(taskStatus := entry.state), None)
    ensures workloadClass != ProducerWorkload ==> r.observation.producerStats == obs.producerStats
    ensures workloadClass != RoundTripWorkload ==> r.observation.roundTripStats == obs.roundTripStats
    ensures workloadClass != ConsumerWorkload ==> r.observation.consumerStats == obs.consumerStats
    ensures workloadClass !in {ProducerWorkload, RoundTripWorkload, ConsumerWorkload} ==> r.error == None
    ensures entry.status.JObject? && workloadClass == ProducerWorkload ==>
      r.observation.producerStats == decode.producer(entry.status.members, obs.producerStats).value &&
      r.error == decode.producer(entry.status.members, obs.producerStats).error
    ensures entry.status.JObject? && workloadClass == RoundTripWorkload ==>
      r.observation.roundTripStats == decode.roundTrip(entry.status.members, obs.roundTripStats).value &&
      r.error == decode.roundTrip(entry.status.members, obs.roundTripStats).error
    ensures entry.status.JObject? && workloadClass == ConsumerWorkload ==>
      r.observation.consumerStats == decode.consumer(entry.status.members, obs.consumerStats).value &&
      r.error == decode.consumer(entry.status.members, obs.consumerStats).error
  {
    var withState := obs.(taskStatus := entry.state);
    if !entry.status.JObject? then Applied(withState, None)
    else if workloadClass == ProducerWorkload then
      var d := decode.producer(entry.status.members, withState.producerStats);
      Applied(withState.(producerStats := d.value), d.error)
    else if workloadClass == RoundTripWorkload then
      var d := decode.roundTrip(entry.status.members, withState.roundTripStats);
      Applied(withState.(roundTripStats := d.value), d.error)
    else if workloadClass == ConsumerWorkload then
      var d := decode.consumer(entry.status.members, withState.consumerStats);
      Applied(withState.(consumerStats := d.value), d.error)
    else Applied(withState, None)
  }

  /** Of the collected entry, only its state and its status are read: two
      entries that agree on those give the same observed state and error,
      whatever task id, timestamps or error text they carry. */
  lemma ApplyStatusReadsOnlyStateAndStatus(
    obs: KafkaBenchObservation, workloadClass: string, a: AgentStatusWorkers, b: AgentStatusWorkers, decode: Decoders)
    requires a.state == b.state && a.status == b.status
    ensures ApplyStatus(obs, workloadClass, a, decode) == ApplyStatus(obs, workloadClass, b, decode)
  {
  }

  /** How Update ends. `NilEntryPanic` is the Go program dereferencing the
      nil entry that the agent service returns, without an error, for a
      non-OK status reply. */
  datatype UpdateOutcome = Updated | UpdateFailed(message: string) | NilEntryPanic

  /** Reads the worker's entry from one agent and records it. */
  method Update(
    cr: KafkaBench, resolved: Result<seq<string>>, pick: nat, query: string -> StatusReply, decode: Decoders)
    returns (r: UpdateOutcome)
    modifies cr
    ensures
      var collected := CollectWorkerTaskResult(FormatInt(old(cr.atProvider.workerId)), resolved, pick, query);
      && (collected.CollectFailed? ==> r == UpdateFailed(collected.message) && cr.atProvider == old(cr.atProvider))
      && (collected.NilWithoutError? ==> r == NilEntryPanic && cr.atProvider == old(cr.atProvider))
      && (collected.Collected? ==>
            var applied := ApplyStatus(old(cr.atProvider), cr.spec.workloadClass, collected.entry, decode);
            && cr.atProvider == applied.observation
            && r == if applied.error.Some? then UpdateFailed(applied.error.value) else Updated)
  {
    var workerId := FormatInt(cr.atProvider.workerId);
    var statusResponse := CollectWorkerTaskResult(workerId, resolved, pick, query);
    match statusResponse
    case CollectFailed(e) =>
      return UpdateFailed(e);
    case NilWithoutError =>
      return NilEntryPanic;
    case Collected(entry) =>
      cr.atProvider := cr.atProvider.(taskStatus := entry.state);
      if !entry.status.JObject? {
        return Updated;
      }
      var members := entry.status.members;
      if cr.spec.workloadClass == ProducerWorkload {
        var d := decode.producer(members, cr.atProvider.producerStats);
        cr.atProvider := cr.atProvider.(producerStats := d.value);
        if d.error.Some? {
          return UpdateFailed(d.error.value);
        }
      } else if cr.spec.workloadClass == RoundTripWorkload {
        var d := decode.roundTrip(members, cr.atProvider.roundTripStats);
        cr.atProvider := cr.atProvider.(roundTripStats := d.value);
        if d.error.Some? {
          return UpdateFailed(d.error.value);
        }
      } else if cr.spec.workloadClass == ConsumerWorkload {
        var d := decode.consumer(members, cr.atProvider.consumerStats);
        cr.atProvider := cr.atProvider.(consumerStats := d.value);
        if d.error.Some? {
          return UpdateFailed(d.error.value);
        }
      }
      return Updated;
  }

  /** Deletes the worker on the pool and forgets the task id; the worker id
      and the task status are kept. */
  method Delete(cr: KafkaBench, resolved: Result<seq<string>>, delete: string -> Reply)
    returns (err: Option<string>)
    modifies cr
    ensures err.Some? ==> cr.atProvider == old(cr.atProvider)
    ensures resolved.Failure? ==> err == Some(NonResolvableAddress)
    ensures err.Some? && resolved.Success? ==>
      var w := FormatInt(old(cr.atProvider.workerId));
      exists k :: 0 <= k < |resolved.value| && delete(DeleteUrl(resolved.value[k], w)) == TransportError(err.value) &&
        forall j :: 0 <= j < k ==> !delete(DeleteUrl(resolved.value[j], w)).TransportError?
    ensures err.None? ==> cr.atProvider == old(cr.atProvider).(taskId := "")
    ensures err.None? ==> !Observe(cr).resourceExists
    ensures err.None? <==>
      resolved.Success? &&
      forall i :: 0 <= i < |resolved.value| ==>
        !delete(DeleteUrl(resolved.value[i], FormatInt(old(cr.atProvider.workerId)))).TransportError?
  {
    var workerId := FormatInt(cr.atProvider.workerId);
    var e, issued := DeleteWorkerTask(workerId, resolved, delete);
    if e.Some? {
      return e;
    }
    cr.atProvider := cr.atProvider.(taskId := "");
    return None;
  }
}
