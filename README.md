# Tarasque KafkaBench task coordination, in Dafny

Tarasque is a Crossplane provider that runs Kafka benchmarks on a pool of
Trogdor agents. A `KafkaBench` managed resource describes one benchmark, and
its controller drives the resource through four steps:

- *Observe* reports whether a task id is recorded and whether the task status is `DONE`.
- *Create* builds a worker task and posts it to every agent. It then records the task's ids in the observed state (`atProvider`).
- *Update* asks one agent for the worker's status. It records the state and decodes the result statistics named by the workload class.
- *Delete* deletes the worker on every agent and forgets the task id.

The agent service does the actual work. It finds the agents through a DNS SRV
lookup of a headless service. It projects the task into the JSON payload the
agents accept. It fans the creation out, looks a worker up in one agent's
status table, and deletes the worker from each agent in turn.

The model has seven modules:

- `Prelude`: Option and Result, and the Go integer widths as subset types.
- `Json`: a decoded JSON value.
- `Strconv`: decimal rendering of an `int64` and its inverse.
- `HostPort`: `strings.TrimSuffix`, `net.JoinHostPort` and a splitting function that undoes the join.
- `V1alpha1`: the API types. The resource itself is the class `KafkaBench`, whose `atProvider` field the lifecycle methods rewrite in place.
- `AgentService`: the agent service.
- `Controller`: the lifecycle driver.

The effects of the outside world are parameters:

- **DNS lookup.** It is a `Result` of SRV records. For the service calls, it is the already-resolved address list.
- **HTTP requests.** Each is a function from the request URL to its reply: a transport error or a status code. A status reply also carries its decoded body.
- **Random numbers.** The draws of `rand.Int63` and `rand.Int` are inputs.
- **Identifiers and time.** The fresh UUID and `time.Now` are inputs too.
- **`mapstructure.Decode`.** It is modelled as one decoder per statistics record. A decoder takes the input object and the target's current value, and returns the new value and an optional error.

The model keeps the program's quirks as written:

- In the creation fan-out, a reply with a status code other than 200 but no transport error counts as success (agent_service.go:160-162).
- Deletion never looks at status codes (agent_service.go:205-211).
- A worker id missing from the status table gives Go's zero-value entry, with no error (agent_service.go:191-195).
- A non-200 status reply makes `CollectWorkerTaskResult` return no entry and no error (agent_service.go:184-185). `Update` then dereferences the nil entry. The model names that outcome `NilEntryPanic` and changes no field.
- `CollectWorkerTaskResult` and `DeleteWorkerTask` report every resolver failure as "non resolvable address returned" (agent_service.go:175-176, 201-202), while `CreateWorkerTask` passes the resolver's own error through (agent_service.go:143-144).

## Model

| member | source | states |
|---|---|---|
| Strconv.FormatInt | internal/controller/kafkabench/kafkabench.go:208-209 | the decimal rendering is non-empty, starts with `-` exactly for negative numbers, is digits otherwise, and has a leading zero only for 0 itself |
| Strconv.FormatIntRoundTrip | internal/controller/kafkabench/kafkabench.go:208-209 | parsing the decimal rendering of any integer gives the integer back |
| Strconv.FormatIntInjective | internal/controller/kafkabench/kafkabench.go:251-252 | distinct worker ids are queried with distinct strings |
| Strconv.FormatIntExample | internal/controller/kafkabench/kafkabench_test.go:320 | worker id 9999 is rendered "9999", and -42 "-42" |
| HostPort.TrimSuffix | internal/controller/kafkabench/agent_service.go:53 | with the suffix present, the result followed by the suffix is the input; otherwise the input is unchanged |
| HostPort.TrimSuffixDropsOneDot | internal/controller/kafkabench/agent_service.go:53 | only one trailing dot of an SRV target is removed |
| HostPort.JoinHostPort | internal/controller/kafkabench/agent_service.go:53 | the result is `host:port`, with the host in brackets when it contains a colon |
| HostPort.JoinSplitRoundTrip | internal/controller/kafkabench/agent_service.go:53 | splitting a joined address at its last colon gives back the host and the port |
| AgentService.CreateUrl | internal/controller/kafkabench/agent_service.go:154 | the creation request goes over HTTP to the agent's address with the path `/agent/worker/create` |
| AgentService.StatusUrl | internal/controller/kafkabench/agent_service.go:182 | the status request goes over HTTP to the agent's address with the path `/agent/status` |
| AgentService.DeleteUrl | internal/controller/kafkabench/agent_service.go:207 | the deletion request goes over HTTP to the agent's address with the path `/agent/worker` and the worker id as the `workerId` query parameter |
| AgentService.RequestUrlsDistinct | internal/controller/kafkabench/agent_service.go:204-207 | each agent of the loop gets its own deletion request, and distinct worker ids give distinct deletion requests; distinct agents likewise get distinct creation and status requests (lines 154 and 182) |
| AgentService.Endpoint | internal/controller/kafkabench/agent_service.go:53 | a record's endpoint is its target, less one trailing dot when there is one, joined to the agent port |
| AgentService.ResolveHeadlessService | internal/controller/kafkabench/agent_service.go:41-57 | a lookup error is returned as is; zero records fail with "not available workers registered in the Agent Service"; otherwise one endpoint per record, in record order, each the target without one trailing dot joined to the agent port |
| AgentService.EndpointSplits | internal/controller/kafkabench/agent_service.go:51-55 | every endpoint splits back into the dot-trimmed target and the agent port |
| AgentService.EncodeWorkerTask | internal/controller/kafkabench/agent_service.go:67-77 | the encoded task always carries `spec` as an object: the encoded bench spec plus `startMs` |
| AgentService.SanitizeEncoded | internal/controller/kafkabench/agent_service.go:77-92 | the spec loses `providerConfigRef`, `forProvider` and `deletionPolicy`; every other spec key keeps its value, except `activeTopics` for the consumer class, which lists each non-empty topic name once; the other top-level members are kept; `workerId` is set |
| AgentService.SanitizeWorkerTask | internal/controller/kafkabench/agent_service.go:66-93 | the payload is the sanitized view of the encoded task, with `workerId` equal to the task's worker id |
| AgentService.FlattenedTopicsUpToOrder | internal/controller/kafkabench/agent_service.go:82-90 | any two topic lists the consumer projection can build hold the same names with the same multiplicity, so only their order can differ |
| AgentService.SingleTopicFlattened | internal/controller/kafkabench/agent_service.go:82-90 | a single topic `myTopic` becomes exactly the list `["myTopic"]` |
| AgentService.PostError | internal/controller/kafkabench/agent_service.go:156-163 | one request yields an error exactly when it failed in transport, and then its message; a non-200 status yields none |
| AgentService.PostToAll | internal/controller/kafkabench/agent_service.go:146-168 | in any completion order, the fan-out reports no error exactly when no address failed in transport, and otherwise the error of one failed address |
| AgentService.CreateWorkerTask | internal/controller/kafkabench/agent_service.go:133-170 | the payload is the sanitized task; a resolver failure returns no task and the resolver's error; otherwise the built task is returned, beside an error exactly when some address fails in transport |
| AgentService.PickIndex | internal/controller/kafkabench/agent_service.go:179 | the chosen agent index is within the address list |
| AgentService.WorkerEntry | internal/controller/kafkabench/agent_service.go:191 | a listed worker's entry is its table entry; a missing one gives Go's zero entry, with an empty state and an empty error |
| AgentService.CollectWorkerTaskResult | internal/controller/kafkabench/agent_service.go:173-196 | an unresolvable or empty pool gives "non resolvable address returned"; an entry is returned only from an OK, decodable reply, is that agent's entry for the worker (the zero entry when missing), and has an empty error; a transport error and an undecodable body are returned as that error; a non-OK status gives no entry and no error |
| AgentService.CollectErrorPrecedence | internal/controller/kafkabench/agent_service.go:191-194 | a worker entry with a non-empty error gives exactly that error, whatever its status |
| AgentService.CollectPassesEntryThrough | internal/controller/kafkabench/agent_service.go:191-195 | a worker entry with an empty error is returned unchanged |
| AgentService.CollectMissingWorker | internal/controller/kafkabench/agent_service.go:191-195 | a worker missing from the table gives the zero entry with no error |
| AgentService.CollectTestCases | internal/controller/kafkabench/agent_service_test.go:70-92 | on the status table of the unit test: "task-with-error-no-status" fails with "worker expired", "task-with-status-and-error" fails with its topic error, and "task-with-results" returns the DONE entry with its producer result |
| AgentService.DeleteWorkerTask | internal/controller/kafkabench/agent_service.go:199-215 | a resolver failure gives "non resolvable address returned" and sends nothing; deletes go out in address order, each one before the last succeeded, and they stop at the first transport error, which is returned; no error means every address got its request and none failed |
| Controller.Observe | internal/controller/kafkabench/kafkabench.go:149-173 | the resource exists iff a task id is recorded, is up to date iff the task status is `DONE`, and has no connection details |
| Controller.ObserveEmptyStatus | internal/controller/kafkabench/kafkabench_test.go:91-98 | a resource with an empty observed state neither exists nor is up to date |
| Controller.Create | internal/controller/kafkabench/kafkabench.go:175-199 | on error the observed state is unchanged and the error is the service's own: the resolver's error, or the transport error of some address; on success the status is `CREATED`, the task and worker ids are the new task's, the connection details are exactly `taskId`, `name` and `namespace`, and a following Observe reports an existing, not up-to-date resource; success iff the pool resolved and no creation request failed in transport |
| Controller.ApplyStatus | internal/controller/kafkabench/kafkabench.go:214-233 | the status becomes the entry's state and the ids are kept; a status that is not an object changes nothing else and is no error; only the statistics named by the class are written, with the decoder's result and error; an unknown class writes none and succeeds |
| Controller.ApplyStatusReadsOnlyStateAndStatus | internal/controller/kafkabench/kafkabench.go:214-233 | of the collected entry only its state and status are read: the new observed state and the error do not depend on its task id, timestamps or error text |
| Controller.Update | internal/controller/kafkabench/kafkabench.go:201-241 | the query uses the decimal worker id; a failed collect returns its error and changes nothing; a non-OK reply is the nil-entry panic and changes nothing; otherwise the new observed state is the applied status, with its decode error as the result |
| Controller.Delete | internal/controller/kafkabench/kafkabench.go:243-258 | on error the observed state is unchanged and the error is the service's own: "non resolvable address returned" when the pool did not resolve, otherwise the transport error of the first address whose delete failed; on success only the task id is cleared and a following Observe reports no resource; success iff the pool resolved and every delete with the decimal worker id got through |

## Left out

- The HTTP client (resty), request headers and response bodies. Each request is a function from its URL to its reply, and a status reply carries its already-decoded body.
- `net.LookupSRV`: its answer is an input. The SRV record's priority and weight are not modelled, since the code ignores them.
- `errgroup` concurrency: the fan-out is a loop that completes the pending requests in an arbitrary order.
- AgentService.PostToAll: which failing address's error is reported is left open, since it depends on completion timing.
- JSON marshalling. The task's encoding is a structural function that honours `omitempty`, and it cannot fail. So the projection-failure returns of the sanitize step (agent_service.go:67-75) and of `CreateWorkerTask` (agent_service.go:137-140) are not reachable in the model.
- `xpv1.ResourceSpec`: it is taken as an already-encoded JSON object that is merged into the spec. Its keys (`providerConfigRef`, `deletionPolicy` and the like) are taken to be disjoint from the spec's own member names. If one were not, and the spec's own member of that name were empty and so omitted, `encoding/json` would still drop the embedded key, while the model keeps it.
- Floating point: `float64` fields are opaque 64-bit patterns, and JSON numbers are exact reals. The `int64` members of the spec (`durationMs`, `maxMessages`, and `startMs`) go through a decode into `interface{}` in the sanitize step (agent_service.go:73), which turns them into `float64` and rounds values beyond 2^53; the model carries them exactly. The top-level `workerId` is written back as an `int64` after that decode (agent_service.go:91), so it is exact in both.
- `mapstructure.Decode`: it is an abstract decoder per statistics record.
- `rand.Int63`, `rand.Int`, `uuid.New` and `time.Now`: their values are parameters.
- Environment defaults (`getEnvOrDefault`, `SERVICE_URL`, `SERVICE_PORT`): the agent port is a parameter. The service URL is never used by the core.
- `Setup`, `Connect`, `SetConditions` and `fmt.Printf`: these are framework wiring, condition bookkeeping and logging.
- The `errNotKafkaBench` type-assertion failures: the model's resource parameter is already a `KafkaBench`.
- The `mytype` template controller and the kubebuilder metadata and registration of the types file.
- The field names: the source spells them both `TaskID`/`WorkerID` and `TaskId`/`WorkerId`. The model uses one name per field, as the types file declares it.
