# EdgeX system-management agent: command pipeline and direct-metrics client cache

This project models two parts of the EdgeX system-management agent (SMA) and proves properties of them.

The first part is the executor's command/result pipeline:

- the result-envelope builders `Failure`, `success`, `MetricsSuccess`, `CreateResult` and `metricsSuccess`;
- the two-phase lifecycle command, which runs start/stop/restart, then inspects the container and checks its running state;
- the metrics path through the container tool's `stats` command;
- the `Execute` dispatcher, which routes on argument count, then service key, then operation.

The second part is the agent's batch operations over lists of services:

- `InvokeOperation`, `InvokeMetrics`, `getHealth` and `getConfig`;
- `IsKnownServiceKey`;
- direct metrics with the agent's lazy client cache (`MetricsViaDirect`). A service not yet in the cache is resolved through the registry and recorded in two maps, `Configuration.Clients` and `generalClients`.

Modules, in dependency order:

- `Wrappers`: `Option` and `Result`. A Go `error` becomes the `Err`/`Some` side, carrying the error's text.
- `Sequences`: small generic facts about sequences that the loop and induction proofs use.
- `Envelope`: the envelope builders of `result.go`. Also the inverse readers `ParseFailure` and `ParseEnvelope`, the partners of `Failure` and `CreateResult` in round-trip lemmas.
- `Commands`: `commands.go`. The container tool is an oracle `Executor = nat -> Reply` that answers the k-th call, as the scripted stub of the package's tests does. Every function returns the argument vectors it passed, in call order, so call counts and arguments are part of each contract. Decoding the inspect output is an oracle `Decoder` that yields an error text or each container's running flag.
- `Metrics`: `metrics.go`.
- `ServiceKeys`: `IsKnownServiceKey` from `services.go`. It is a module of its own because the executor package uses it and the agent package uses the executor's builders, and Dafny modules cannot import each other cyclically.
- `Docker`: `docker.go`.
- `ClientCache`: `direct.go` as functions. They say what each step returns, what the two client maps become and which registry calls it makes. The registry, the remote clients, `normalizeAndWrap` and the agent's configuration are collected in the datatype `Env`.
- `Direct`: class `Agent` holds the two maps as fields. Its methods perform the steps of `direct.go` in place and are proved equal to the `ClientCache` functions.
- `Services`: `services.go`. The loops are methods. Each is proved against a specification function (`DirectBatch`, `GetConfigSpec`) or a direct postcondition, and lemmas state the batch properties.

Where the package's tests differ from the code, and where the code has edges worth stating, the model follows the code:

- The lifecycle command passes `(operation, service)` and `(inspect, service)` to the container tool (executor/commands.go:52, 84). The tests' stub expects the service name first (executor/docker_test.go:65, 71-72). `Docker.OperationPrecedesServiceInFirstCall` states the order the code uses.
- `gatherMetrics` passes the stats output through unchanged, apart from removing its trailing newlines. No unit conversion takes place.
- Both maps of the client cache are keyed by the service id the registry returns, not by the requested name. So a second request for the same name hits the cache exactly when the two coincide (`ClientCache.SecondRequestHitsCacheIffSameId`).
- `getConfig` returns as soon as the first unknown service has been resolved through the registry. Later services get no entry (`Services.GetConfigStopsAtFirstResolution`).
- A Go error whose text is empty makes `isContainerRunning` report "not running, no error". A stop whose inspect call fails that way counts as a success (`Commands.EmptyInspectErrorReadsAsStopped`). The if-and-only-if properties of the lifecycle command therefore assume non-empty error texts.

## Model

| member | source | states |
|---|---|---|
| Envelope.Success | internal/system/executor/result.go:28-30 | the success fragment is not read as a failure and contains no `"errorMessage"` key |
| Envelope.Failure | internal/system/executor/result.go:24-26 | the fragment starts with `"success":false,"errorMessage":"`, ends with a quote, is exactly one character longer than that head plus the message, gives the message back verbatim through `ParseFailure`, and is never the success fragment |
| Envelope.ParseFailureOnlyAcceptsFailures | internal/system/executor/result.go:24-26 | every text that `ParseFailure` reads as carrying message m is exactly `Failure(m)`, so `Failure` and `ParseFailure` are inverse on failure fragments |
| Envelope.SuccessPrefixIsNotFailure | internal/system/executor/result.go:24-30 | no text that begins with the success fragment is read as a failure |
| Envelope.MetricsSuccess | internal/system/executor/result.go:32-39 | the fragment begins with `success()` followed by `,"result":{`, ends with `}` and is not a failure |
| Envelope.MetricsSuccessLayout | internal/system/executor/result.go:35-38 | the keys `cpuUsedPercent`, `memoryUsed` and `raw` appear in that order at fixed offsets; each value follows its key unquoted and unmodified, and the fragment ends right after `raw`'s value and the closing brace |
| Envelope.CreateResult | internal/system/executor/result.go:41-43 | the envelope starts with `{"operation":"` and the operation, ends with the result followed by `}`, and is as long as its four arguments plus a fixed overhead |
| Envelope.ParseEnvelope | internal/system/executor/result.go:41-43 | every text it accepts is `CreateResult` of the four fields it returns |
| Envelope.EnvelopeRoundTrip | internal/system/executor/result.go:41-43 | when operation, service and executor type contain no quote, reading an envelope back gives exactly the four values it was built from |
| Envelope.CreateResultIsAmbiguousWithQuotes | internal/system/executor/result.go:41-43 | because nothing is escaped, two requests with different operations can produce the same envelope |
| Commands.ReplaceNewlines | internal/system/executor/commands.go:26 | each newline becomes a space and every other character is kept in place, so the length is the same and no newline remains |
| Commands.MessageExecutorCommandFailed | internal/system/executor/commands.go:25-27 | the message is prefix, `": "`, error, `" ("`, then the output on one line and `")"`; its length is the sum of the parts plus five, and it holds a newline only if the prefix or the error does |
| Commands.MessageExecutorInspectFailed | internal/system/executor/commands.go:29-31 | the message starts with the prefix and `": "`, followed by the error verbatim |
| Commands.MessageServiceIsNotRunningButShouldBe | internal/system/executor/commands.go:33-35 | the message is the prefix, `": "`, then `service is not running but should be` |
| Commands.MessageServiceIsRunningButShouldNotBe | internal/system/executor/commands.go:37-39 | the message is the prefix, `": "`, then `service is running but shouldn't be` |
| Commands.MessageContainerNotFound | internal/system/executor/commands.go:41-43 | `container ` then the service name verbatim then ` not found`, and nothing else |
| Commands.MessageMoreThanOneContainerFound | internal/system/executor/commands.go:45-47 | `multiple containers found with name ` followed by the service name verbatim, and nothing else |
| Commands.RunningStateMessagesDiffer | internal/system/executor/commands.go:33-39 | the two running-state mismatch messages differ under every operation prefix |
| Commands.ContainerCountMessagesDiffer | internal/system/executor/commands.go:41-47 | the not-found and the multiple-containers messages never coincide, whatever the service names |
| Commands.IsContainerRunning | internal/system/executor/commands.go:49-75 | one call, `(inspect, service)`; "running" is reported only when the call succeeded and decoded to exactly one container, which is running; a non-empty error means "not running" |
| Commands.IsContainerRunningCases | internal/system/executor/commands.go:52-74 | the inspect outcome for each kind of reply: the call's error, the decode error, "container S not found" for none, "multiple containers found with name S" for several, and the running flag with no error for exactly one |
| Commands.InspectionErrorEmptyIffOneContainer | internal/system/executor/commands.go:67-74 | with non-empty error texts, the inspect error is empty exactly when the call succeeded and decoded to one container |
| Commands.ExecuteACommand | internal/system/executor/commands.go:77-100 | call 0 is `(operation, service)`; call 1, `(inspect, service)`, is made exactly when call 0 succeeded; the result is the success fragment exactly when call 0 succeeded and the inspection shows the expected state with no error; otherwise it is a failure whose message starts with the prefix and `": "` |
| Commands.FirstCallFailureSkipsInspect | internal/system/executor/commands.go:84-86 | a failed operation gives the command-failed message with the output folded in, after exactly one call |
| Commands.InspectFailureMessage | internal/system/executor/commands.go:88-91 | an inspection error gives the inspect-failed message under the operation's prefix |
| Commands.RunningStateMismatchMessage | internal/system/executor/commands.go:92-96 | one container in the state opposite to the expected one gives "is not running but should be" when running was expected, "is running but shouldn't be" otherwise |
| Commands.ExecuteACommandSucceedsIff | internal/system/executor/commands.go:84-99 | with non-empty error texts, success exactly when both calls succeed and the inspect output decodes to one container in the expected state |
| Commands.EmptyInspectErrorReadsAsStopped | internal/system/executor/commands.go:53-98 | a failed inspect whose error text is empty makes a stop succeed |
| Metrics.MetricsExecutorCommands | internal/system/executor/metrics.go:19-27 | five arguments: `stats`, the service name, `--no-stream`, `--format` and the fixed template |
| Metrics.RawMetricsSuccess | internal/system/executor/metrics.go:29-31 | begins with `success()` followed by `,"result":`, ends with the result verbatim, and is exactly as long as those three parts, which fixes the whole text; it is not a failure |
| Metrics.TrimTrailingNewlines | internal/system/executor/metrics.go:38 | the result is a prefix of the text, does not end in a newline, and everything removed is a newline |
| Metrics.TrimUndoesNewlines | internal/system/executor/metrics.go:38 | trimming a text that does not end in a newline, with any number of newlines appended, gives back the text |
| Metrics.TrimSplitsText | internal/system/executor/metrics.go:38 | every text is its trimmed form followed by newlines only |
| Metrics.TrimIsIdempotent | internal/system/executor/metrics.go:38 | trimming twice is trimming once |
| Metrics.GatherMetrics | internal/system/executor/metrics.go:33-39 | exactly one call, with the stats arguments; the result is a failure exactly when the call failed, carrying its error text and ignoring the output; otherwise it begins with `success()` followed by `,"result":`, ends with the output minus its trailing newlines, is exactly as long as those three parts (so it is `metricsSuccess` of the trimmed output), and never ends with a newline |
| ServiceKeys.IsKnownServiceKey | internal/system/agent/services.go:193-208 | true for exactly the nine listed service keys |
| ServiceKeys.NineKnownServiceKeys | internal/system/agent/services.go:194-204 | the nine keys are distinct |
| Docker.MessageExecutorOperationNotSupported | internal/system/executor/docker.go:35-37 | a non-empty message holding no quote, so its failure fragment needs no escaping |
| Docker.MessageSpecifiedServiceIsUnknown | internal/system/executor/docker.go:39-41 | a non-empty message holding no quote, so its failure fragment needs no escaping |
| Docker.MessageMissingArguments | internal/system/executor/docker.go:43-45 | `Usage: ./` and the program name verbatim, then the fixed description of the two arguments ending in a newline; the text holds a quote exactly when the program name does |
| Docker.Execute | internal/system/executor/docker.go:47-69 | at most two executor calls, made only with three or more arguments, a known service and a supported operation; for a known service the envelope begins with the requested operation, the service and the executor type, in that order |
| Docker.EnvelopeEchoesRequest | internal/system/executor/docker.go:53-64 | the envelope begins with the operation, service and executor fields, in that order, whatever the outcome |
| Docker.ExecuteMissingArguments | internal/system/executor/docker.go:68 | one or two arguments give the usage message under an empty operation and service, with no executor call |
| Docker.ExecuteUnknownService | internal/system/executor/docker.go:66 | an unknown service gives "Specified service is unknown" under an empty operation, with no executor call |
| Docker.ExecuteUnsupportedOperation | internal/system/executor/docker.go:62-63 | a known service with an operation other than start, restart, stop and metrics gives "operation not supported by executor", echoing the operation, with no executor call |
| Docker.ExecuteLifecycleRouting | internal/system/executor/docker.go:54-59 | start and restart expect the service to be running and stop expects it not to be, each under its own prefix |
| Docker.ExecuteMetricsRouting | internal/system/executor/docker.go:60-61 | metrics makes exactly the one stats call and no inspect |
| Docker.FailurePrefixesAreDistinct | internal/system/executor/docker.go:28-30 | the three lifecycle prefixes are pairwise different |
| Docker.StartSucceedsWhenVerifiedRunning | internal/system/executor/docker.go:54-55 | a start whose calls succeed and whose inspect shows one running container gives a success envelope after exactly two calls |
| Docker.LifecycleSucceedsIffVerified | internal/system/executor/docker.go:54-59 | with non-empty error texts, a lifecycle operation's envelope carries success exactly when both calls succeed and the inspect shows one container in the expected state |
| Docker.CreateResultIsInjectiveInResult | internal/system/executor/result.go:41-43 | envelopes with the same first three fields are equal exactly when their outcome fragments are |
| Docker.OperationPrecedesServiceInFirstCall | internal/system/executor/commands.go:84 | the first executor call is `(operation, service)`, the code's order, not the tests' `(service, operation)` |
| ClientCache.NewMetricsClient | internal/system/agent/direct.go:80-89 | the client is keyed by the endpoint's service id, has path `/`, always uses the registry, and is built from the client information recorded for the endpoint with the metrics route |
| ClientCache.NilRegistryMessage | internal/system/agent/direct.go:57 | a fixed text followed by the service name verbatim, and nothing else |
| ClientCache.EndpointErrorMessage | internal/system/agent/direct.go:70 | begins with the fixed text, the service name and `, got error: `, and ends with the registry's error text verbatim, with nothing else |
| ClientCache.Register | internal/system/agent/direct.go:74-89 | both maps gain exactly the endpoint's service id: the client information holds the configured protocol and the endpoint's host and port, the general client is the new one, and every other entry is unchanged |
| ClientCache.FetchMetrics | internal/system/agent/direct.go:45-51 | a fetch error is passed on verbatim; a reply is normalised and wrapped under the service name |
| ClientCache.HandleKnownService | internal/system/agent/direct.go:94-99 | no registry call and no map change |
| ClientCache.HandleUnknownService | internal/system/agent/direct.go:53-92 | at most two registry calls; the maps only grow, and change only when the registry is set, reports the service available and returns an endpoint, in which case both maps record the endpoint with a metrics client |
| ClientCache.MetricsViaDirect | internal/system/agent/direct.go:101-106 | a cached name makes no registry call and changes no map; otherwise the maps change exactly when the name is resolved, by registering the endpoint; they never lose a key |
| ClientCache.CachedServiceSkipsRegistry | internal/system/agent/direct.go:101-104 | a cached name gives the cached client's metrics, with no registry call and the maps unchanged |
| ClientCache.UnknownServiceNeedsRegistry | internal/system/agent/direct.go:56-58 | an uncached name with no registry gives the "registryClient not initialized" error naming the service, with the maps unchanged |
| ClientCache.UnavailableServiceErrorIsVerbatim | internal/system/agent/direct.go:61-63 | an availability error is returned as it is, after one registry call, with the maps unchanged |
| ClientCache.EndpointErrorIsWrapped | internal/system/agent/direct.go:68-71 | an endpoint error is wrapped with the service name, after two registry calls, with the maps unchanged |
| ClientCache.ResolvedServiceIsCachedUnderServiceId | internal/system/agent/direct.go:74-91 | a resolved name registers the endpoint under its service id, and the metrics come from the client stored under that id |
| ClientCache.SecondRequestHitsCacheIffSameId | internal/system/agent/direct.go:89-104 | asking again for a name just resolved skips the registry exactly when the endpoint's service id is that name |
| Direct.Agent.FetchMetrics | internal/system/agent/direct.go:45-51 | reads the cached client and returns what `ClientCache.FetchMetrics` gives for the agent's maps |
| Direct.Agent.HandleKnownService | internal/system/agent/direct.go:94-99 | the result, the unchanged maps and the absence of registry calls are those of `ClientCache.HandleKnownService` |
| Direct.Agent.HandleUnknownService | internal/system/agent/direct.go:53-92 | the result, the agent's new maps and the registry calls made are those of `ClientCache.HandleUnknownService` on the old maps |
| Direct.Agent.MetricsViaDirect | internal/system/agent/direct.go:101-106 | the result, the agent's new maps and the registry calls made are those of `ClientCache.MetricsViaDirect` on the old maps |
| Services.InvokeOperation | internal/system/agent/services.go:41-53 | the batch succeeds exactly when every call does, with one processed reply per service in input order, after the operation was sent to every service; otherwise it is the error of the first failing call, every earlier call succeeded, and the operation was sent to exactly the services up to and including the failing one |
| Services.HealthOf | internal/system/agent/services.go:175-181 | a service is available exactly when the registry's check returns no error; otherwise it holds the error text |
| Services.GetHealth | internal/system/agent/services.go:166-185 | the keys are exactly the requested services, known or not, and each value is what the registry's check says about that service |
| Services.DirectOut | internal/system/agent/services.go:64-67 | a direct-metrics reply is kept; an error becomes a failure envelope for the metrics operation and the service, carrying the error text |
| Services.ExecutorOut | internal/system/agent/services.go:70-73 | an executor-metrics reply is kept; an error becomes a failure envelope under the unknown executor type |
| Services.DirectBatch | internal/system/agent/services.go:59-68 | one reply per service, and the client maps only grow |
| Services.DirectBatchEntries | internal/system/agent/services.go:59-68 | the i-th reply is the direct metrics of the i-th service, resolved against the maps the services before it left, with errors turned into failure envelopes |
| Services.DirectBatchAllCached | internal/system/agent/services.go:63-68 | when every service is cached, the maps do not change and each reply is the cached client's metrics or its failure envelope |
| Services.InvokeMetrics | internal/system/agent/services.go:55-82 | direct metrics give the processed replies of `DirectBatch` and leave its maps; executor metrics give one processed reply or failure envelope per service; the custom and any other mechanism fail with their own messages unless the list is empty |
| Services.DirectMetrics | internal/system/agent/services.go:59-68 | the loop's replies and the agent's maps are those of `DirectBatch` |
| Services.ExecutorMetrics | internal/system/agent/services.go:69-74 | one processed reply per service, in order, an error becoming its failure envelope |
| Services.ConfigEndpointErrorMessage | internal/system/agent/services.go:109 | begins with the fixed text, the service name and `, got error: `, and ends with the registry's error text verbatim, with nothing else |
| Services.EndpointErrorWordingsDiffer | internal/system/agent/services.go:109 | the wording `getConfig` uses ("for service") never equals the direct-metrics wording ("for serviceName", direct.go:70) for the same service and error |
| Services.NewConfigClient | internal/system/agent/services.go:113-137 | the client is keyed by the endpoint's service id, has path `/`, uses the registry exactly when one is set, and is built from the client information recorded for the endpoint with the configuration route |
| Services.FetchConfig | internal/system/agent/services.go:139-145 | a fetch error is stored as its text, without the source's format pass (see Left out); a reply is stored processed |
| Services.GetConfigFrom | internal/system/agent/services.go:92-163 | the result's entries are the earlier ones plus entries for requested services only; the registry calls extend the earlier ones; the maps only grow |
| Services.GetConfigSpec | internal/system/agent/services.go:84-164 | every entry of the configuration is for a requested service, and the maps only grow |
| Services.GetConfig | internal/system/agent/services.go:84-164 | the configuration, the agent's new maps and the registry calls are those of `GetConfigSpec` on the old maps |
| Services.ConfigEntry | internal/system/agent/services.go:95-161 | a known service's entry comes from its ready-made client; for an unknown one the entry is the availability error when the registry reports the service unavailable, otherwise the wrapped endpoint error or the configuration fetched through the new configuration client |
| Services.StepCalls | internal/system/agent/services.go:95-110 | a known service makes no registry call, and every registry call for a service names it |
| Services.GetConfigStep | internal/system/agent/services.go:95-161 | a service that does not resolve gets its entry and registry calls, and the loop continues with the next service |
| Services.GetConfigAsksOnlyForUnknownServices | internal/system/agent/services.go:95-161 | every registry call names an unknown service of the list; known services are never sent to the registry |
| Services.KnownServicesOnlyAskNothing | internal/system/agent/services.go:149-161 | a list of known services makes no registry call |
| Services.GetConfigWithoutResolution | internal/system/agent/services.go:92-163 | when no service resolves, every service gets its entry (errors included), earlier entries of other keys are kept, and the maps do not change |
| Services.GetConfigStopsAtFirstResolution | internal/system/agent/services.go:128-146 | the first resolving service registers its endpoint in both maps with a configuration client; its entry is fetched through that client, and no later service gets an entry |

## Left out

- JSON decoding is not modelled: the inspect output's decoding is the `Decoder` oracle, `processResponse` is a parameter with an abstract result type, and `normalizeAndWrap` is an oracle in `Env`. Its `%.2f`/`%d` formatting of floating-point and integer telemetry is therefore not modelled either.
- Network and unseen code are oracles: `IsServiceAvailable`, `GetServiceEndpoint`, `FetchMetrics`, `FetchConfiguration` and `MetricsViaExecutor` are fields of `Env`, and `OperationViaExecutor` is a parameter of `Services.InvokeOperation`.
- `general.NewGeneralClient` becomes a value holding its endpoint parameters. The URL is kept as the client information and the route it is built from, because `ClientInfo.Url()` is not part of this model. The client monitor interval and the registry handle given to the client are not modelled.
- `LoggingClient` calls, the request context and `pingHandler` (HTTP plumbing) are not modelled.
- `Execute` and `gatherMetrics` call a three-argument `createResult` and a lowercase `failure`, which are not defined in the code modelled. They are modelled as `CreateResult` with the executor type as a parameter, and as `Failure`.
- The agent's `metrics` operation name and executor-type constants are defined outside the code modelled. They are fields of `Env`.
- The envelope builders escape nothing, so their output is JSON only when the inserted values need no escaping. The model proves the verbatim layout (and the ambiguity this allows), not that the output is valid JSON.
- Services.FetchConfig: stores a fetch error's text as it is. The source passes it through `fmt.Sprintf` as a format string with no operands, which changes texts that contain `%` verbs; Go's formatting is not modelled.
- Services.ConfigEntry: stores the availability error text and the fetch error text as they are. The source passes both through `fmt.Sprintf` as a format string (services.go:101, 141, 156); `getHealth` stores the availability error without that pass (services.go:178). A text that contains `%` verbs is therefore stored differently by the two in the source, but identically in the model.
- Services.GetConfigSpec, Services.GetConfig: inherit the same gap through `ConfigEntry`, storing error texts without the `fmt.Sprintf` pass.
- Services.GetConfigFrom: stores availability and fetch error texts as they are. The source passes them through `fmt.Sprintf` in the same way, with the same effect on texts that contain `%` verbs.
- Services.GetConfig: requires a ready-made client for every known service of the list. This includes services after the first resolution, which the loop never reaches; a missing client makes the source panic. It also requires a registry unless every service of the list is known, because the source panics on a nil registry client at the first unknown service.
- Docker.Execute: requires at least one argument; the source panics on an empty argument list.
- Services.GetHealth: requires a registry unless the list is empty, because the source panics on a nil registry client.
- Services.InvokeOperation: an empty or successful batch is `Ok` of a sequence. The source returns a nil slice for an empty list, and the model does not distinguish nil from empty.
- Services.InvokeMetrics: the mechanism is switched on once, outside the per-service loops. In the source the switch sits inside the loop, but the mechanism does not change during it, so the outcomes are the same, including `Ok([])` for an empty list under every mechanism.
