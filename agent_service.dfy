/** The agent service: how the controller talks to the pool of benchmark
    agents. It resolves the pool to `host:port` endpoints, projects a worker
    task into the payload the agents accept, fans a create request out to
    every agent, reads one agent's status table, and deletes a worker on
    every agent in turn.

    The network is a parameter: the resolver's answer is a value, and every
    HTTP exchange is a function from the request URL to its reply. */
module AgentService {
  import opened Prelude
  import opened Json
  import opened V1alpha1
  import opened HostPort

  const DefaultAgentServiceName: string := "tarasque-agent.tarasque.svc.cluster.local"
  const DefaultAgentServicePort: string := "8888"

  /** Control-plane members of the spec that are never sent to an agent. */
  const SanitizeFields: seq<string> := ["providerConfigRef", "forProvider", "deletionPolicy"]

  const NoWorkersRegistered: string := "not available workers registered in the Agent Service"
  const NonResolvableAddress: string := "non resolvable address returned"
  const StatusOK: int := 200

  /** The workload classes (the `class` member of the spec). */
  const RoundTripWorkload: string := "org.apache.kafka.trogdor.workload.RoundTripWorkloadSpec"
  const ProducerWorkload: string := "org.apache.kafka.trogdor.workload.ProduceBenchSpec"
  const ConsumerWorkload: string := "org.apache.kafka.trogdor.workload.ConsumeBenchSpec"

  datatype WorkerTaskSpec = WorkerTaskSpec(bench: KafkaBenchSpec, startMs: Int64)

  /** The task the controller builds once per creation. */
  datatype WorkerTask = WorkerTask(taskId: string, workerId: Int64, spec: WorkerTaskSpec)

  /** An SRV answer; only the target and the port are modelled. */
  datatype SrvRecord = SrvRecord(target: string, port: Uint16)

  /** The reply to a POST or a DELETE: a transport error, or a response
      with its status code (the body is never read). */
  datatype Reply = TransportError(message: string) | Response(statusCode: int)

  /** The reply to the status GET: a transport error, or a response whose
      body either decodes into an `AgentStatusResponse` or fails to. */
  datatype StatusReply =
    | StatusTransportError(message: string)
    | StatusResponse(statusCode: int, body: Result<AgentStatusResponse>)

  /** One worker's entry in an agent's status table. `status` is whatever
      JSON the agent put there: absent (`JNull`), a progress message
      (`JString`) or a result object (`JObject`). */
  datatype AgentStatusWorkers = AgentStatusWorkers(
    state: string,
    taskId: string,
    startedMs: Int64,
    doneMs: Int64,
    status: Json,
    error: string)

  datatype AgentStatusResponse = AgentStatusResponse(
    serverStartMs: Int64,
    workers: map<string, AgentStatusWorkers>)

  /** Go's zero value of `AgentStatusWorkers`. */
  const ZeroWorkerStatus: AgentStatusWorkers := AgentStatusWorkers("", "", 0, 0, JNull, "")

  /** What `CollectWorkerTaskResult` hands back: an entry, an error, or, for
      a non-OK status without a transport error, neither (`nil, nil`). */
  datatype CollectResult =
    | Collected(entry: AgentStatusWorkers)
    | CollectFailed(message: string)
    | NilWithoutError

  const CreatePath: string := "/agent/worker/create"
  const StatusPath: string := "/agent/status"
  const DeletePath: string := "/agent/worker?workerId="

  /** `url` is a plain-HTTP request to the agent at `addr` with the path
      (and query) `path`. */
  predicate AddressedTo(url: string, addr: string, path: string) {
    && |url| == 7 + |addr| + |path|
    && url[..7] == "http://"
    && url[7..7 + |addr|] == addr
    && url[7 + |addr|..] == path
  }

  /** The creation request of one agent. */
  function CreateUrl(addr: string): (url: string)
    ensures AddressedTo(url, addr, CreatePath)
  {
    "http://" + addr + CreatePath
  }

  /** The status request of one agent. */
  function StatusUrl(addr: string): (url: string)
    ensures AddressedTo(url, addr, StatusPath)
  {
    "http://" + addr + StatusPath
  }

  /** The deletion request of one worker on one agent; the worker id is the
      query parameter `workerId`. */
  function DeleteUrl(addr: string, workerId: string): (url: string)
    ensures AddressedTo(url, addr, DeletePath + workerId)
  {
    "http://" + addr + DeletePath + workerId
  }

  /** Two requests with the same path go to the same agent only when the
      same address was given. */
  lemma AddressedToDeterminesAgent(url: string, a: string, b: string, path: string)
    requires AddressedTo(url, a, path) && AddressedTo(url, b, path)
    ensures a == b
  {
  }

  /** Each agent gets its own creation, status and deletion request, and a
      deletion request names exactly one worker. */
  lemma RequestUrlsDistinct(a: string, b: string, w: string, v: string)
    ensures CreateUrl(a) == CreateUrl(b) ==> a == b
    ensures StatusUrl(a) == StatusUrl(b) ==> a == b
    ensures DeleteUrl(a, w) == DeleteUrl(b, w) ==> a == b
    ensures DeleteUrl(a, w) == DeleteUrl(a, v) ==> w == v
  {
    if CreateUrl(a) == CreateUrl(b) {
      AddressedToDeterminesAgent(CreateUrl(a), a, b, CreatePath);
    }
    if StatusUrl(a) == StatusUrl(b) {
      AddressedToDeterminesAgent(StatusUrl(a), a, b, StatusPath);
    }
    if DeleteUrl(a, w) == DeleteUrl(b, w) {
      AddressedToDeterminesAgent(DeleteUrl(a, w), a, b, DeletePath + w);
    }
    if DeleteUrl(a, w) == DeleteUrl(a, v) {
      var u := DeleteUrl(a, w);
      assert u[7 + |a|..] == DeletePath + w == DeletePath + v;
      assert w == (DeletePath + w)[|DeletePath|..];
      assert v == (DeletePath + v)[|DeletePath|..];
    }
  }

  // ---------------------------------------------------------------------
  // Endpoint resolution

  /** The endpoint one SRV record stands for: its target without the
      trailing root dot, joined to the agent port. The record's own port is
      not used. */
  function Endpoint(record: SrvRecord, agentPort: string): (r: string)
    ensures HasSuffix(record.target, ".") ==>
      r == JoinHostPort(record.target[..|record.target| - 1], agentPort)
    ensures !HasSuffix(record.target, ".") ==> r == JoinHostPort(record.target, agentPort)
  {
    JoinHostPort(TrimSuffix(record.target, "."), agentPort)
  }

  /** The production resolver, given the outcome of the SRV lookup. */
  method ResolveHeadlessService(lookup: Result<seq<SrvRecord>>, agentPort: string)
    returns (r: Result<seq<string>>)
    ensures lookup.Failure? ==> r == Failure(lookup.error)
    ensures lookup.Success? && |lookup.value| == 0 ==> r == Failure(NoWorkersRegistered)
    ensures lookup.Success? && |lookup.value| > 0 ==>
      r.Success? && |r.value| == |lookup.value| &&
      forall i :: 0 <= i < |r.value| ==> r.value[i] == Endpoint(lookup.value[i], agentPort)
  {
    if lookup.Failure? {
      return Failure(lookup.error);
    }
    var addrs := lookup.value;
    if |addrs| == 0 {
      return Failure(NoWorkersRegistered);
    }
    var result: seq<string> := [];
    for i := 0 to |addrs|
      invariant |result| == i
      invariant forall j :: 0 <= j < i ==> result[j] == Endpoint(addrs[j], agentPort)
    {
      result := result + [JoinHostPort(TrimSuffix(addrs[i].target, "."), agentPort)];
    }
    return Success(result);
  }

  /** Every resolved endpoint names the record's host and the agent port. */
  lemma EndpointSplits(record: SrvRecord, agentPort: string)
    requires ':' !in agentPort && '[' !in record.target
    ensures SplitHostPort(Endpoint(record, agentPort)) == Some((TrimSuffix(record.target, "."), agentPort))
  {
    var host := TrimSuffix(record.target, ".");
    assert forall c :: c in host ==> c in record.target by {
      if HasSuffix(record.target, ".") {
        assert host + "." == record.target;
        forall c | c in host ensures c in record.target {
          var i :| 0 <= i < |host| && host[i] == c;
          assert record.target[i] == c;
        }
      }
    }
    JoinSplitRoundTrip(host, agentPort);
  }

  // ---------------------------------------------------------------------
  // The wire projection

  /** One member of an encoded struct, left out when `omitted` (the
      `omitempty` rule for a zero value). */
  function Member(key: string, value: Json, omitted: bool): map<string, Json> {
    if omitted then map[] else map[key := value]
  }

  function StringMember(key: string, s: string): map<string, Json> {
    Member(key, JString(s), s == "")
  }

  function IntMember(key: string, n: int): map<string, Json> {
    Member(key, JNumber(n as real), n == 0)
  }

  function StringMapMember(key: string, m: map<string, string>): map<string, Json> {
    Member(key, JObject(map k | k in m :: JString(m[k])), |m| == 0)
  }

  function EncodeKafkaTopics(t: KafkaTopics): Json {
    JObject(IntMember("numPartitions", t.numPartitions) + IntMember("replicationFactor", t.replicationFactor))
  }

  function TopicsMember(key: string, m: map<string, KafkaTopics>): map<string, Json> {
    Member(key, JObject(map k | k in m :: EncodeKafkaTopics(m[k])), |m| == 0)
  }

  /** The members `encoding/json` gives a `KafkaBenchSpec`: those of the
      inlined resource spec, then its own, each left out when empty. */
  function EncodeBenchSpec(s: KafkaBenchSpec): map<string, Json> {
    s.resourceSpec
    + StringMember("class", s.workloadClass)
    + IntMember("durationMs", s.durationMs)
    + StringMember("producerNode", s.producerNode)
    + StringMember("consumerNode", s.consumerNode)
    + StringMember("clientNode", s.clientNode)
    + StringMember("consumerGroup", s.consumerGroup)
    + IntMember("threadsPerWorker", s.threadsPerWorker)
    + StringMember("bootstrapServers", s.bootstrapServers)
    + IntMember("targetMessagesPerSec", s.targetMessagesPerSec)
    + IntMember("maxMessages", s.maxMessages)
    + TopicsMember("activeTopics", s.activeTopics)
    + TopicsMember("inactiveTopics", s.inactiveTopics)
    + StringMapMember("producerConf", s.producerConf)
    + StringMapMember("consumerConf", s.consumerConf)
    + StringMapMember("commonClientConf", s.commonClientConf)
    + StringMapMember("adminClientConf", s.adminClientConf)
  }

  function EncodeTaskSpec(s: WorkerTaskSpec): map<string, Json> {
    EncodeBenchSpec(s.bench) + IntMember("startMs", s.startMs)
  }

  /** The generic map that marshalling a `WorkerTask` and unmarshalling it
      into `map[string]interface{}` yields. The spec is a struct, so its
      member is always present. */
  function EncodeWorkerTask(wt: WorkerTask): (m: map<string, Json>)
    ensures "spec" in m && m["spec"] == JObject(EncodeTaskSpec(wt.spec))
  {
    StringMember("taskId", wt.taskId) + IntMember("workerId", wt.workerId)
    + map["spec" := JObject(EncodeTaskSpec(wt.spec))]
  }

  /** `items` names every non-empty key of `topics` once, as a JSON string,
      and nothing else. */
  ghost predicate ListsNonEmptyKeysOnce(items: seq<Json>, topics: map<string, KafkaTopics>) {
    && (forall i :: 0 <= i < |items| ==> items[i].JString? && items[i].str in topics && items[i].str != "")
    && (forall i, j :: 0 <= i < j < |items| ==> items[i] != items[j])
    && (forall k :: k in topics && k != "" ==> JString(k) in items)
  }

  lemma {:induction false} DistinctCounts(items: seq<Json>, x: Json)
    requires forall i, j :: 0 <= i < j < |items| ==> items[i] != items[j]
    ensures multiset(items)[x] == if x in items then 1 else 0
  {
    if |items| > 0 {
      var rest := items[1..];
      assert items == [items[0]] + rest;
      forall i, j | 0 <= i < j < |rest| ensures rest[i] != rest[j] {
        assert rest[i] == items[i + 1] && rest[j] == items[j + 1];
      }
      DistinctCounts(rest, x);
    }
  }

  /** The flattened topic list is determined up to its order: any two
      lists that `ListsNonEmptyKeysOnce` admits are permutations of each
      other. */
  lemma FlattenedTopicsUpToOrder(a: seq<Json>, b: seq<Json>, topics: map<string, KafkaTopics>)
    requires ListsNonEmptyKeysOnce(a, topics) && ListsNonEmptyKeysOnce(b, topics)
    ensures multiset(a) == multiset(b)
  {
    forall x ensures multiset(a)[x] == multiset(b)[x] {
      DistinctCounts(a, x);
      DistinctCounts(b, x);
      if x in a {
        var i :| 0 <= i < |a| && a[i] == x;
        assert x == JString(x.str) && x.str in topics && x.str != "";
      }
      if x in b {
        var i :| 0 <= i < |b| && b[i] == x;
        assert x == JString(x.str) && x.str in topics && x.str != "";
      }
    }
  }

  /** A consumer workload with the single active topic `myTopic` sends
      `activeTopics` as the one-element list `["myTopic"]`. */
  lemma SingleTopicFlattened(items: seq<Json>, t: KafkaTopics)
    requires ListsNonEmptyKeysOnce(items, map["myTopic" := t])
    ensures items == [JString("myTopic")]
  {
    var topics := map["myTopic" := t];
    FlattenedTopicsUpToOrder(items, [JString("myTopic")], topics);
    assert |items| == |multiset(items)| == 1;
    assert items[0] in multiset(items);
  }

  /** `body` is `encoded` with the control-plane members gone from its
      spec, the active topics flattened to their names when `consumer`
      holds, and the worker id set at the top level. */
  ghost predicate SanitizedFrom(
    encoded: map<string, Json>, consumer: bool, topics: map<string, KafkaTopics>, workerId: Int64,
    body: map<string, Json>)
    requires "spec" in encoded && encoded["spec"].JObject?
  {
    var spec := encoded["spec"].members;
    && body.Keys == encoded.Keys + {"workerId"}
    && body["workerId"] == JNumber(workerId as real)
    && (forall k :: k in encoded && k != "spec" && k != "workerId" ==> body[k] == encoded[k])
    && body["spec"].JObject?
    && var view := body["spec"].members;
       && (forall f :: f in SanitizeFields ==> f !in view)
       && (forall k :: k in spec && k !in SanitizeFields && !(consumer && k == "activeTopics") ==>
             k in view && view[k] == spec[k])
       && (forall k :: k in view ==> k in spec || (consumer && k == "activeTopics"))
       && (consumer ==>
             "activeTopics" in view && view["activeTopics"].JArray? &&
             ListsNonEmptyKeysOnce(view["activeTopics"].items, topics))
  }

  /** `body` is the payload agents receive for `wt`. */
  ghost predicate ExternalTaskView(wt: WorkerTask, body: map<string, Json>) {
    SanitizedFrom(EncodeWorkerTask(wt), wt.spec.bench.workloadClass == ConsumerWorkload,
                  wt.spec.bench.activeTopics, wt.workerId, body)
  }

  /** Builds the payload sent to the agents from the encoded task. */
  method SanitizeWorkerTask(wt: WorkerTask) returns (body: map<string, Json>)
    ensures ExternalTaskView(wt, body)
  {
    body := SanitizeEncoded(EncodeWorkerTask(wt), wt.spec.bench.workloadClass,
                            wt.spec.bench.activeTopics, wt.workerId);
  }

  /** The in-place edits of the generic map. The map iteration of the
      source visits the topic keys in no fixed order; so does the loop. */
  method SanitizeEncoded(
    wtMap: map<string, Json>, workloadClass: string, topics: map<string, KafkaTopics>, workerId: Int64)
    returns (body: map<string, Json>)
    requires "spec" in wtMap && wtMap["spec"].JObject?
    ensures SanitizedFrom(wtMap, workloadClass == ConsumerWorkload, topics, workerId, body)
  {
    var spec := wtMap["spec"].members;
    var wtSpec := spec;
    for i := 0 to |SanitizeFields|
      invariant forall k :: k in wtSpec <==> k in spec && k !in SanitizeFields[..i]
      invariant forall k :: k in wtSpec ==> wtSpec[k] == spec[k]
    {
      wtSpec := wtSpec - {SanitizeFields[i]};
    }
    assert SanitizeFields[..|SanitizeFields|] == SanitizeFields;
    if workloadClass == ConsumerWorkload {
      var keys: seq<Json> := [];
      var rest := topics.Keys;
      while rest != {}
        invariant rest <= topics.Keys
        invariant forall i :: 0 <= i < |keys| ==>
          keys[i].JString? && keys[i].str in topics && keys[i].str != "" && keys[i].str !in rest
        invariant forall i, j :: 0 <= i < j < |keys| ==> keys[i] != keys[j]
        invariant forall k :: k in topics && k != "" && k !in rest ==> JString(k) in keys
        decreases rest
      {
        var k :| k in rest;
        if k != "" {
          keys := keys + [JString(k)];
        }
        rest := rest - {k};
      }
      wtSpec := wtSpec["activeTopics" := JArray(keys)];
    }
    body := wtMap["spec" := JObject(wtSpec)];
    body := body["workerId" := JNumber(workerId as real)];
  }

  // ---------------------------------------------------------------------
  // Creation fan-out

  /** The value one fan-out request returns: its transport error, or nil.
      A status other than 200 also yields nil, because the status check
      returns the variable `err`, which is nil at that point. */
  function PostError(reply: Reply): (r: Option<string>)
    ensures r.Some? <==> reply.TransportError?
    ensures reply.TransportError? ==> r == Some(reply.message)
  {
    match reply
    case TransportError(e) => Some(e)
    case Response(_) => None
  }

  /** Builds the task, projects it, resolves the pool and posts the payload
      to every address. The task is returned whenever the pool resolved,
      also beside an error. */
  method CreateWorkerTask(
    spec: KafkaBenchSpec, nowMs: Int64, workerId: Int63, taskId: string,
    resolved: Result<seq<string>>, post: string -> Reply)
    returns (task: Option<WorkerTask>, body: map<string, Json>, err: Option<string>)
    ensures ExternalTaskView(WorkerTask(taskId, workerId, WorkerTaskSpec(spec, nowMs)), body)
    ensures resolved.Failure? ==> task == None && err == Some(resolved.error)
    ensures resolved.Success? ==> task == Some(WorkerTask(taskId, workerId, WorkerTaskSpec(spec, nowMs)))
    ensures resolved.Success? ==>
      (err.None? <==> forall i :: 0 <= i < |resolved.value| ==> !post(CreateUrl(resolved.value[i])).TransportError?)
    ensures resolved.Success? && err.Some? ==>
      exists i :: 0 <= i < |resolved.value| && post(CreateUrl(resolved.value[i])) == TransportError(err.value)
  {
    var payload := WorkerTask(taskId, workerId, WorkerTaskSpec(spec, nowMs));
    body := SanitizeWorkerTask(payload);
    if resolved.Failure? {
      return None, body, Some(resolved.error);
    }
    err := PostToAll(resolved.value, post);
    task := Some(payload);
  }

  /** The `errgroup` fan-out: one request is started per address, all of
      them complete, in an order that is not fixed, and the error reported
      is the first one observed. */
  method PostToAll(addrs: seq<string>, post: string -> Reply) returns (err: Option<string>)
    ensures err.None? <==> forall i :: 0 <= i < |addrs| ==> !post(CreateUrl(addrs[i])).TransportError?
    ensures err.Some? ==> exists i :: 0 <= i < |addrs| && post(CreateUrl(addrs[i])) == TransportError(err.value)
  {
    var pending: set<nat> := {};
    for i := 0 to |addrs|
      invariant forall j :: j in pending <==> 0 <= j < i
    {
      pending := pending + {i};
    }
    err := None;
    while pending != {}
      invariant forall j :: j in pending ==> j < |addrs|
      invariant err.None? <==>
        forall i :: 0 <= i < |addrs| && i !in pending ==> !post(CreateUrl(addrs[i])).TransportError?
      invariant err.Some? ==>
        exists i :: 0 <= i < |addrs| && i !in pending && post(CreateUrl(addrs[i])) == TransportError(err.value)
      decreases pending
    {
      var i :| i in pending;
      var outcome := PostError(post(CreateUrl(addrs[i])));
      if err.None? && outcome.Some? {
        err := outcome;
      }
      pending := pending - {i};
    }
  }

  // ---------------------------------------------------------------------
  // Status lookup

  predicate Resolvable(resolved: Result<seq<string>>) {
    resolved.Success? && |resolved.value| > 0
  }

  /** The index `rand.Int() % len(addrs)` for a non-negative draw `pick`. */
  function PickIndex(pick: nat, count: nat): (i: nat)
    requires count > 0
    ensures i < count
  {
    pick % count
  }

  /** The reply of the one agent the status query goes to. */
  function ChosenReply(resolved: Result<seq<string>>, pick: nat, query: string -> StatusReply): StatusReply
    requires Resolvable(resolved)
  {
    query(StatusUrl(resolved.value[PickIndex(pick, |resolved.value|)]))
  }

  /** Go's map index: the zero value for a missing key. */
  function WorkerEntry(workers: map<string, AgentStatusWorkers>, workerId: string): (e: AgentStatusWorkers)
    ensures workerId in workers ==> e == workers[workerId]
    ensures workerId !in workers ==> e == ZeroWorkerStatus && e.error == "" && e.state == ""
  {
    if workerId in workers then workers[workerId] else ZeroWorkerStatus
  }

  predicate AnsweredOk(reply: StatusReply) {
    reply.StatusResponse? && reply.statusCode == StatusOK && reply.body.Success?
  }

  /** Queries one agent of the pool and looks the worker up in its table. */
  function CollectWorkerTaskResult(
    workerId: string, resolved: Result<seq<string>>, pick: nat, query: string -> StatusReply)
    : (r: CollectResult)
    ensures !Resolvable(resolved) ==> r == CollectFailed(NonResolvableAddress)
    ensures Resolvable(resolved) && ChosenReply(resolved, pick, query).StatusTransportError? ==>
      r == CollectFailed(ChosenReply(resolved, pick, query).message)
    ensures Resolvable(resolved) && ChosenReply(resolved, pick, query).StatusResponse?
            && ChosenReply(resolved, pick, query).statusCode == StatusOK
            && ChosenReply(resolved, pick, query).body.Failure?
            ==> r == CollectFailed(ChosenReply(resolved, pick, query).body.error)
    ensures r.Collected? ==>
      Resolvable(resolved) && AnsweredOk(ChosenReply(resolved, pick, query)) &&
      r.entry == WorkerEntry(ChosenReply(resolved, pick, query).body.value.workers, workerId) &&
      r.entry.error == ""
    ensures r.NilWithoutError? <==>
      Resolvable(resolved) && ChosenReply(resolved, pick, query).StatusResponse? &&
      ChosenReply(resolved, pick, query).statusCode != StatusOK
  {
    if !Resolvable(resolved) then CollectFailed(NonResolvableAddress)
    else
      match ChosenReply(resolved, pick, query)
      case StatusTransportError(e) => CollectFailed(e)
      case StatusResponse(code, decoded) =>
        if code != StatusOK then NilWithoutError
        else if decoded.Failure? then CollectFailed(decoded.error)
        else
          var workerStatus := WorkerEntry(decoded.value.workers, workerId);
          if workerStatus.error != "" then CollectFailed(workerStatus.error)
          else Collected(workerStatus)
  }

  /** An entry's error wins over whatever its status holds. */
  lemma CollectErrorPrecedence(
    workerId: string, resolved: Result<seq<string>>, pick: nat, query: string -> StatusReply)
    requires Resolvable(resolved) && AnsweredOk(ChosenReply(resolved, pick, query))
    requires WorkerEntry(ChosenReply(resolved, pick, query).body.value.workers, workerId).error != ""
    ensures CollectWorkerTaskResult(workerId, resolved, pick, query) ==
      CollectFailed(WorkerEntry(ChosenReply(resolved, pick, query).body.value.workers, workerId).error)
  {
  }

  /** An entry without an error comes back unchanged, whatever its status. */
  lemma CollectPassesEntryThrough(
    workerId: string, resolved: Result<seq<string>>, pick: nat, query: string -> StatusReply)
    requires Resolvable(resolved) && AnsweredOk(ChosenReply(resolved, pick, query))
    requires WorkerEntry(ChosenReply(resolved, pick, query).body.value.workers, workerId).error == ""
    ensures CollectWorkerTaskResult(workerId, resolved, pick, query) ==
      Collected(WorkerEntry(ChosenReply(resolved, pick, query).body.value.workers, workerId))
  {
  }

  /** A worker id missing from the table yields the zero entry, no error. */
  lemma CollectMissingWorker(
    workerId: string, resolved: Result<seq<string>>, pick: nat, query: string -> StatusReply)
    requires Resolvable(resolved) && AnsweredOk(ChosenReply(resolved, pick, query))
    requires workerId !in ChosenReply(resolved, pick, query).body.value.workers
    ensures CollectWorkerTaskResult(workerId, resolved, pick, query) == Collected(ZeroWorkerStatus)
  {
  }

  /** The status table of the agent-service test, served by every agent. */
  function TestStatusTable(): AgentStatusResponse {
    AgentStatusResponse(1000, map[
      "task-with-error-no-status" :=
        AgentStatusWorkers("DONE", "1", 1649460862398, 1649460862431, JNull, "worker expired"),
      "task-with-status-and-error" :=
        AgentStatusWorkers("DONE", "2", 1649460862398, 1649460862431, JString("Creating 5 topic(s)"),
          "Unable to create topic(s): mytopic1, mytopic2, mytopic3, mytopic4, mytopic5after 3 attempt(s)"),
      "task-with-results" :=
        AgentStatusWorkers("DONE", "3", 1649460862398, 1649460862431, TestProducerResult(), "")])
  }

  function TestProducerResult(): Json {
    JObject(map[
      "totalSent" := JNumber(2497001.0),
      "averageLatencyMs" := JNumber(350.56488),
      "p50LatencyMs" := JNumber(16.0),
      "p95LatencyMs" := JNumber(72.0),
      "p99LatencyMs" := JNumber(10000.0),
      "transactionsCommitted" := JNumber(0.0)])
  }

  /** The three cases of the agent-service test. */
  lemma CollectTestCases(pick: nat)
    ensures
      var resolved := Success([DefaultAgentServiceName]);
      var query := (url: string) => StatusResponse(StatusOK, Success(TestStatusTable()));
      && CollectWorkerTaskResult("task-with-error-no-status", resolved, pick, query)
           == CollectFailed("worker expired")
      && CollectWorkerTaskResult("task-with-status-and-error", resolved, pick, query)
           == CollectFailed("Unable to create topic(s): mytopic1, mytopic2, mytopic3, mytopic4, mytopic5after 3 attempt(s)")
      && CollectWorkerTaskResult("task-with-results", resolved, pick, query)
           == Collected(AgentStatusWorkers("DONE", "3", 1649460862398, 1649460862431, TestProducerResult(), ""))
  {
  }

  // ---------------------------------------------------------------------
  // Teardown

  /** Deletes the worker on every address in order and stops at the first
      transport error; the status code of a reply is never examined.
      `issued` lists the DELETE requests made, in order. */
  method DeleteWorkerTask(workerId: string, resolved: Result<seq<string>>, delete: string -> Reply)
    returns (err: Option<string>, issued: seq<string>)
    ensures resolved.Failure? ==> err == Some(NonResolvableAddress) && issued == []
    ensures resolved.Success? ==>
      |issued| <= |resolved.value| &&
      forall i :: 0 <= i < |issued| ==> issued[i] == DeleteUrl(resolved.value[i], workerId)
    ensures forall i :: 0 <= i < |issued| - 1 ==> !delete(issued[i]).TransportError?
    ensures err.None? ==>
      resolved.Success? && |issued| == |resolved.value| &&
      forall i :: 0 <= i < |issued| ==> !delete(issued[i]).TransportError?
    ensures err.Some? && resolved.Success? ==>
      |issued| > 0 && delete(issued[|issued| - 1]) == TransportError(err.value)
  {
    if resolved.Failure? {
      return Some(NonResolvableAddress), [];
    }
    var addrs := resolved.value;
    issued := [];
    for i := 0 to |addrs|
      invariant |issued| == i
      invariant forall j :: 0 <= j < i ==>
        issued[j] == DeleteUrl(addrs[j], workerId) && !delete(issued[j]).TransportError?
    {
      var url := DeleteUrl(addrs[i], workerId);
      issued := issued + [url];
      var reply := delete(url);
      if reply.TransportError? {
        return Some(reply.message), issued;
      }
    }
    return None, issued;
  }
}
