/**
 * The agent's batch operations over a list of services: lifecycle
 * operations through the executor, metrics through the configured
 * mechanism, health from the registry, and configuration through the
 * ready-made clients or the registry.
 *
 * `processResponse` (the JSON decoding of a reply) is a parameter of each
 * batch; its result type `T` is left abstract.
 */
module Services {
  import opened Wrappers
  import opened Envelope
  import opened ServiceKeys
  import CC = ClientCache
  import Direct
  import opened Sequences

  // ---------------------------------------------------------------------------
  // InvokeOperation

  /**
   * `InvokeOperation`: one executor call per service, in order. The batch
   * succeeds exactly when every call does, with one processed reply per
   * service; otherwise it is the first call's error, and nothing else.
   * `operated` lists the services the operation was sent to: all of them,
   * or those up to and including the first that failed.
   */
  method InvokeOperation<T>(operation: string, serviceNames: seq<string>,
                            operationViaExecutor: (string, string) -> Result<string>,
                            processResponse: string -> T)
    returns (r: Result<seq<T>>, ghost operated: seq<string>)
    ensures r.Ok? <==> forall i :: 0 <= i < |serviceNames| ==> operationViaExecutor(serviceNames[i], operation).Ok?
    ensures r.Ok? ==>
              && operated == serviceNames
              && |r.value| == |serviceNames|
              && forall i :: 0 <= i < |serviceNames| ==>
                   r.value[i] == processResponse(operationViaExecutor(serviceNames[i], operation).value)
    ensures r.Err? ==>
              exists j :: && 0 <= j < |serviceNames|
                          && operated == serviceNames[..j + 1]
                          && operationViaExecutor(serviceNames[j], operation) == Err(r.error)
                          && forall i :: 0 <= i < j ==> operationViaExecutor(serviceNames[i], operation).Ok?
  {
    var result: seq<T> := [];
    operated := [];
    var i := 0;
    while i < |serviceNames|
      invariant 0 <= i <= |serviceNames|
      invariant |result| == i && operated == serviceNames[..i]
      invariant forall k :: 0 <= k < i ==> operationViaExecutor(serviceNames[k], operation).Ok?
      invariant forall k :: 0 <= k < i ==> result[k] == processResponse(operationViaExecutor(serviceNames[k], operation).value)
    {
      var out := operationViaExecutor(serviceNames[i], operation);
      TakeSnoc(serviceNames, i);
      operated := operated + [serviceNames[i]];
      if out.Err? {
        return Err(out.error), operated;
      }
      result := result + [processResponse(out.value)];
      i := i + 1;
    }
    assert serviceNames[..i] == serviceNames;
    r := Ok(result);
  }

  // ---------------------------------------------------------------------------
  // getHealth

  /** A service's health: available, or the registry's error text. */
  datatype Health = Available | Unavailable(error: string)

  /** What the registry's availability check says about one service. */
  function HealthOf(registry: CC.Registry, service: string): (h: Health)
    ensures h.Available? <==> registry.isServiceAvailable(service).None?
    ensures h.Unavailable? ==> h.error == registry.isServiceAvailable(service).value
  {
    match registry.isServiceAvailable(service)
    case None => Available
    case Some(e) => Unavailable(e)
  }

  /**
   * `getHealth`: one entry per requested service, known or not, holding
   * what the registry says about it. The registry must be set unless the
   * list is empty.
   */
  method GetHealth(registry: Option<CC.Registry>, services: seq<string>) returns (health: map<string, Health>)
    requires registry.Some? || services == []
    ensures health.Keys == set s | s in services
    ensures forall s :: s in health ==> health[s] == HealthOf(registry.value, s)
  {
    health := map[];
    for i := 0 to |services|
      invariant health.Keys == set s | s in services[..i]
      invariant forall s :: s in health ==> health[s] == HealthOf(registry.value, s)
    {
      TakeSnoc(services, i);
      var service := services[i];
      var unavailable := registry.value.isServiceAvailable(service);
      if unavailable.Some? {
        health := health[service := Unavailable(unavailable.value)];
      } else {
        health := health[service := Available];
      }
    }
    assert services[..|services|] == services;
  }

  // ---------------------------------------------------------------------------
  // InvokeMetrics

  const CustomNotIntegrated: string := "the requested custom executor (e.g. snap) has not been integrated"
  const MechanismNotSupported: string := "the requested metrics mechanism is not supported"

  /** The reply kept for one service under direct metrics: the metrics, or a failure envelope. */
  function DirectOut(env: CC.Env, service: string, result: Result<string>): (out: string)
    ensures result.Ok? ==> out == result.value
    ensures result.Err? ==> out == CreateResult(env.metricsOperation, service, env.directServiceExecutorType, Failure(result.error))
  {
    match result
    case Ok(out) => out
    case Err(e) => CreateResult(env.metricsOperation, service, env.directServiceExecutorType, Failure(e))
  }

  /** The reply kept for one service under metrics via the executor. */
  function ExecutorOut(env: CC.Env, service: string): (out: string)
    ensures env.metricsViaExecutor(service).Ok? ==> out == env.metricsViaExecutor(service).value
    ensures env.metricsViaExecutor(service).Err? ==>
              out == CreateResult(env.metricsOperation, service, env.unknownExecutorType, Failure(env.metricsViaExecutor(service).error))
  {
    match env.metricsViaExecutor(service)
    case Ok(out) => out
    case Err(e) => CreateResult(env.metricsOperation, service, env.unknownExecutorType, Failure(e))
  }

  /** The replies of a direct-metrics batch and the client maps afterwards. */
  datatype Batch = Batch(outs: seq<string>, maps: CC.ClientMaps)

  /**
   * Direct metrics for each service in turn, each one resolved against the
   * maps the previous ones left: one reply per service, and the maps only grow.
   */
  function DirectBatch(env: CC.Env, maps: CC.ClientMaps, services: seq<string>): (b: Batch)
    ensures |b.outs| == |services|
    ensures CC.Grows(maps, b.maps)
    decreases |services|
  {
    if services == [] then Batch([], maps)
    else
      var before := DirectBatch(env, maps, services[..|services| - 1]);
      var service := services[|services| - 1];
      var resolved := CC.MetricsViaDirect(env, before.maps, service);
      Batch(before.outs + [DirectOut(env, service, resolved.result)], resolved.maps)
  }

  /**
   * The i-th reply of a direct batch is the i-th service's resolution against
   * the maps the first i services left; an error there becomes a failure
   * envelope for that service and the batch goes on.
   */
  lemma {:induction false} DirectBatchEntries(env: CC.Env, maps: CC.ClientMaps, services: seq<string>, i: nat)
    requires i < |services|
    ensures var before := DirectBatch(env, maps, services[..i]).maps;
            DirectBatch(env, maps, services).outs[i]
              == DirectOut(env, services[i], CC.MetricsViaDirect(env, before, services[i]).result)
    decreases |services|
  {
    var n := |services|;
    var prefix := services[..n - 1];
    var before := DirectBatch(env, maps, prefix);
    var last := DirectOut(env, services[n - 1], CC.MetricsViaDirect(env, before.maps, services[n - 1]).result);
    assert DirectBatch(env, maps, services).outs == before.outs + [last];
    TakeOfFront(services, i);
    if i < n - 1 {
      DirectBatchEntries(env, maps, prefix, i);
      assert (before.outs + [last])[i] == before.outs[i];
    }
  }

  /** One more service: the batch over the first i + 1 services extends the batch over the first i. */
  lemma DirectBatchSnoc(env: CC.Env, maps: CC.ClientMaps, services: seq<string>, i: nat)
    requires i < |services|
    ensures var before := DirectBatch(env, maps, services[..i]);
            var resolved := CC.MetricsViaDirect(env, before.maps, services[i]);
            DirectBatch(env, maps, services[..i + 1])
              == Batch(before.outs + [DirectOut(env, services[i], resolved.result)], resolved.maps)
  {
    FrontOfTake(services, i);
  }

  /**
   * When every service already has a cached client, a direct batch asks no
   * registry, leaves the maps as they were and fetches through each cached client.
   */
  lemma {:induction false} DirectBatchAllCached(env: CC.Env, maps: CC.ClientMaps, services: seq<string>)
    requires forall s :: s in services ==> s in maps.generalClients
    ensures DirectBatch(env, maps, services).maps == maps
    ensures forall i :: 0 <= i < |services| ==>
              DirectBatch(env, maps, services).outs[i] == DirectOut(env, services[i], CC.FetchMetrics(env, maps, services[i]))
    decreases |services|
  {
    if services != [] {
      var n := |services|;
      var prefix := services[..n - 1];
      TakeOfFront(services, 0);
      assert forall k :: 0 <= k < n - 1 ==> prefix[k] == services[k];
      DirectBatchAllCached(env, maps, prefix);
      assert services[n - 1] in services;
    }
  }

  /**
   * `InvokeMetrics`: the mechanism decides, for every service alike. Direct
   * metrics and metrics via the executor give one reply per service, a
   * failure envelope standing for an error; the custom mechanism and any
   * other one fail the whole batch, unless the list is empty.
   */
  method InvokeMetrics<T>(agent: Direct.Agent, services: seq<string>, processResponse: string -> T)
    returns (r: Result<seq<T>>)
    modifies agent
    ensures agent.env.metricsMechanism == CC.ViaDirectService ==>
              var batch := DirectBatch(agent.env, old(agent.Maps()), services);
              && agent.Maps() == batch.maps
              && r.Ok? && |r.value| == |services|
              && forall i :: 0 <= i < |services| ==> r.value[i] == processResponse(batch.outs[i])
    ensures agent.env.metricsMechanism == CC.ViaExecutor ==>
              && agent.Maps() == old(agent.Maps())
              && r.Ok? && |r.value| == |services|
              && forall i :: 0 <= i < |services| ==> r.value[i] == processResponse(ExecutorOut(agent.env, services[i]))
    ensures agent.env.metricsMechanism == CC.ViaCustom ==>
              agent.Maps() == old(agent.Maps()) && r == if services == [] then Ok([]) else Err(CustomNotIntegrated)
    ensures agent.env.metricsMechanism == CC.OtherMechanism ==>
              agent.Maps() == old(agent.Maps()) && r == if services == [] then Ok([]) else Err(MechanismNotSupported)
  {
    match agent.env.metricsMechanism {
      case ViaDirectService =>
        var result := DirectMetrics(agent, services, processResponse);
        r := Ok(result);
      case ViaExecutor =>
        var result := ExecutorMetrics(agent.env, services, processResponse);
        r := Ok(result);
      case ViaCustom =>
        r := if services == [] then Ok([]) else Err(CustomNotIntegrated);
      case OtherMechanism =>
        r := if services == [] then Ok([]) else Err(MechanismNotSupported);
    }
  }

  /** The loop of `InvokeMetrics` under direct metrics: an error becomes a failure envelope and the loop goes on. */
  method DirectMetrics<T>(agent: Direct.Agent, services: seq<string>, processResponse: string -> T) returns (result: seq<T>)
    modifies agent
    ensures var batch := DirectBatch(agent.env, old(agent.Maps()), services);
            && agent.Maps() == batch.maps
            && |result| == |services|
            && forall i :: 0 <= i < |services| ==> result[i] == processResponse(batch.outs[i])
  {
    ghost var maps0 := agent.Maps();
    ghost var outs: seq<string> := [];
    result := [];
    for i := 0 to |services|
      invariant DirectBatch(agent.env, maps0, services[..i]) == Batch(outs, agent.Maps())
      invariant |result| == i && |outs| == i
      invariant forall k :: 0 <= k < i ==> result[k] == processResponse(outs[k])
    {
      var service := services[i];
      var out, _ := agent.MetricsViaDirect(service);
      var o := DirectOut(agent.env, service, out);
      DirectBatchSnoc(agent.env, maps0, services, i);
      outs := outs + [o];
      result := result + [processResponse(o)];
    }
    assert services[..|services|] == services;
  }

  /** The loop of `InvokeMetrics` under metrics via the executor: an error becomes a failure envelope and the loop goes on. */
  method ExecutorMetrics<T>(env: CC.Env, services: seq<string>, processResponse: string -> T) returns (result: seq<T>)
    ensures |result| == |services|
    ensures forall i :: 0 <= i < |services| ==> result[i] == processResponse(ExecutorOut(env, services[i]))
  {
    result := [];
    for i := 0 to |services|
      invariant |result| == i
      invariant forall k :: 0 <= k < i ==> result[k] == processResponse(ExecutorOut(env, services[k]))
    {
      var service := services[i];
      var out := env.metricsViaExecutor(service);
      if out.Err? {
        out := Ok(CreateResult(env.metricsOperation, service, env.unknownExecutorType, Failure(out.error)));
      }
      result := result + [processResponse(out.value)];
    }
  }

  // ---------------------------------------------------------------------------
  // getConfig

  /** An entry of the configuration result: an error's text, or a processed reply. */
  datatype ConfigValue<T> = Text(text: string) | Response(response: T)

  /** The result of `getConfig`: the configuration entries, the client maps afterwards, and the registry calls made. */
  datatype ConfigRun<T> = ConfigRun(configuration: map<string, ConfigValue<T>>, maps: CC.ClientMaps, calls: seq<CC.RegistryCall>)

  const ConfigEndpointErrorHead: string := "on attempting to get ServiceEndpoint for service "

  /** The endpoint error `getConfig` records: the service name, then the registry's error text verbatim at the end. */
  function ConfigEndpointErrorMessage(service: string, error: string): (r: string)
    ensures ConfigEndpointErrorHead + service + CC.GotError <= r
    ensures |r| == |ConfigEndpointErrorHead| + |service| + |CC.GotError| + |error| && r[|r| - |error|..] == error
  {
    AppendParts(ConfigEndpointErrorHead + service + CC.GotError, error);
    ConfigEndpointErrorHead + service + CC.GotError + error
  }

  /**
   * `getConfig` words the endpoint error differently from direct metrics
   * ("for service" against "for serviceName"), so the two never coincide.
   */
  lemma EndpointErrorWordingsDiffer(service: string, error: string)
    ensures ConfigEndpointErrorMessage(service, error) != CC.EndpointErrorMessage(service, error)
  {
    var k := |ConfigEndpointErrorHead|;
    var c, d := ConfigEndpointErrorMessage(service, error), CC.EndpointErrorMessage(service, error);
    assert c[..k][k - 1] == ' ';
    assert d[..k][k - 1] == 'N' by {
      assert d[..k] == CC.EndpointErrorHead[..k];
    }
  }

  /**
   * The configuration client `getConfig` makes for a resolved endpoint: keyed
   * by the endpoint's service id, through the registry exactly when one is
   * set, with the URL formed from the client information recorded for it
   * and the configuration route.
   */
  function NewConfigClient(env: CC.Env, endpoint: CC.Endpoint): (c: CC.GeneralClient)
    ensures c.params.serviceKey == endpoint.serviceId && c.params.path == "/"
    ensures c.params.useRegistry <==> env.registry.Some?
    ensures c.params.client == CC.EndpointClientInfo(env, endpoint) && c.params.route == CC.ConfigRoute
  {
    CC.GeneralClient(CC.EndpointParams(endpoint.serviceId, "/", env.registry.Some?, CC.EndpointClientInfo(env, endpoint), CC.ConfigRoute))
  }

  /** One client's configuration: the fetch error's text, or the processed reply. */
  function FetchConfig<T>(env: CC.Env, client: CC.GeneralClient, processResponse: string -> T): (v: ConfigValue<T>)
    ensures v.Text? <==> env.fetchConfiguration(client).Err?
    ensures v.Text? ==> v.text == env.fetchConfiguration(client).error
    ensures v.Response? ==> v.response == processResponse(env.fetchConfiguration(client).value)
  {
    match env.fetchConfiguration(client)
    case Err(e) => Text(e)
    case Ok(json) => Response(processResponse(json))
  }

  /** Every service that `getConfig` would send to the registry can be, because the registry is set. */
  predicate RegistryReachable(env: CC.Env, services: seq<string>) {
    env.registry.Some? || forall s :: s in services ==> IsKnownServiceKey(s)
  }

  /** Every known service in the list has its ready-made client. */
  predicate KnownClientsReady(maps: CC.ClientMaps, services: seq<string>) {
    forall s :: s in services && IsKnownServiceKey(s) ==> s in maps.generalClients
  }

  /** True for an unknown service that the registry reports available and resolves to an endpoint. */
  predicate Resolves(env: CC.Env, service: string) {
    !IsKnownServiceKey(service) && CC.Resolved(env, service)
  }

  /**
   * `getConfig` from the given point of the loop on: the entries and registry
   * calls so far are `configuration` and `calls`. The first unknown service
   * the registry resolves is recorded in both maps, its entry is fetched
   * through the new client, and the rest of the list is skipped.
   */
  function GetConfigFrom<T>(env: CC.Env, maps: CC.ClientMaps, services: seq<string>,
                            configuration: map<string, ConfigValue<T>>, calls: seq<CC.RegistryCall>,
                            processResponse: string -> T): (r: ConfigRun<T>)
    requires RegistryReachable(env, services) && KnownClientsReady(maps, services)
    ensures forall k :: k in r.configuration ==> k in configuration || k in services
    ensures forall k :: k in configuration ==> k in r.configuration
    ensures calls <= r.calls
    ensures CC.Grows(maps, r.maps)
    decreases |services|
  {
    if services == [] then ConfigRun(configuration, maps, calls)
    else
      var service := services[0];
      TailMembers(services);
      if IsKnownServiceKey(service) then
        var entry := FetchConfig(env, maps.generalClients[service], processResponse);
        GetConfigFrom(env, maps, services[1..], configuration[service := entry], calls, processResponse)
      else
        var registry := env.registry.value;
        match registry.isServiceAvailable(service)
        case Some(e) =>
          GetConfigFrom(env, maps, services[1..], configuration[service := Text(e)],
                        calls + [CC.IsServiceAvailable(service)], processResponse)
        case None =>
          var calls' := calls + [CC.IsServiceAvailable(service), CC.GetServiceEndpoint(service)];
          match registry.getServiceEndpoint(service)
          case Err(e) =>
            GetConfigFrom(env, maps, services[1..], configuration[service := Text(ConfigEndpointErrorMessage(service, e))],
                          calls', processResponse)
          case Ok(endpoint) =>
            var client := NewConfigClient(env, endpoint);
            var maps' := CC.Register(env, maps, endpoint, client);
            ConfigRun(configuration[service := FetchConfig(env, client, processResponse)], maps', calls')
  }

  /** `getConfig` over a whole list. */
  function GetConfigSpec<T>(env: CC.Env, maps: CC.ClientMaps, services: seq<string>, processResponse: string -> T): (r: ConfigRun<T>)
    requires RegistryReachable(env, services) && KnownClientsReady(maps, services)
    ensures forall k :: k in r.configuration ==> k in services
    ensures CC.Grows(maps, r.maps)
  {
    GetConfigFrom(env, maps, services, map[], [], processResponse)
  }

  /**
   * `getConfig` on the agent's maps. `asked` lists the registry calls made.
   */
  method GetConfig<T>(agent: Direct.Agent, services: seq<string>, processResponse: string -> T)
    returns (configuration: map<string, ConfigValue<T>>, ghost asked: seq<CC.RegistryCall>)
    requires RegistryReachable(agent.env, services) && KnownClientsReady(agent.Maps(), services)
    modifies agent
    ensures ConfigRun(configuration, agent.Maps(), asked) == GetConfigSpec(agent.env, old(agent.Maps()), services, processResponse)
  {
    var env := agent.env;
    ghost var goal := GetConfigSpec(env, agent.Maps(), services, processResponse);
    configuration := map[];
    asked := [];
    for i := 0 to |services|
      invariant RegistryReachable(env, services[i..]) && KnownClientsReady(agent.Maps(), services[i..])
      invariant goal == GetConfigFrom(env, agent.Maps(), services[i..], configuration, asked, processResponse)
    {
      var service := services[i];
      assert services[i..][0] == service && services[i..][1..] == services[i + 1..];
      if !IsKnownServiceKey(service) {
        var registry := env.registry.value;
        var unavailable := registry.isServiceAvailable(service);
        if unavailable.Some? {
          configuration := configuration[service := Text(unavailable.value)];
          asked := asked + [CC.IsServiceAvailable(service)];
        } else {
          var endpoint := registry.getServiceEndpoint(service);
          asked := asked + [CC.IsServiceAvailable(service), CC.GetServiceEndpoint(service)];
          if endpoint.Err? {
            configuration := configuration[service := Text(ConfigEndpointErrorMessage(service, endpoint.error))];
          } else {
            var e := endpoint.value;
            agent.configClients := agent.configClients[e.serviceId := CC.ClientInfo(env.protocol, e.host, e.port)];
            var usingRegistry := env.registry.Some?;
            var params := CC.EndpointParams(e.serviceId, "/", usingRegistry, agent.configClients[e.serviceId], CC.ConfigRoute);
            agent.generalClients := agent.generalClients[e.serviceId := CC.GeneralClient(params)];
            var responseJSON := env.fetchConfiguration(agent.generalClients[e.serviceId]);
            if responseJSON.Err? {
              configuration := configuration[service := Text(responseJSON.error)];
            } else {
              configuration := configuration[service := Response(processResponse(responseJSON.value))];
            }
            return;
          }
        }
      } else {
        var responseJSON := env.fetchConfiguration(agent.generalClients[service]);
        if responseJSON.Err? {
          configuration := configuration[service := Text(responseJSON.error)];
        } else {
          configuration := configuration[service := Response(processResponse(responseJSON.value))];
        }
      }
    }
  }

  /**
   * The entry `getConfig` records for one service when it reaches it: the
   * ready-made client's configuration for a known service; for an unknown one
   * the availability error, the wrapped endpoint error, or the configuration
   * fetched through the client made for the resolved endpoint.
   */
  function ConfigEntry<T>(env: CC.Env, maps: CC.ClientMaps, service: string, processResponse: string -> T): (v: ConfigValue<T>)
    requires IsKnownServiceKey(service) ==> service in maps.generalClients
    requires !IsKnownServiceKey(service) ==> env.registry.Some?
    ensures IsKnownServiceKey(service) ==> v == FetchConfig(env, maps.generalClients[service], processResponse)
    ensures !IsKnownServiceKey(service) && HealthOf(env.registry.value, service).Unavailable? ==>
              v == Text(HealthOf(env.registry.value, service).error)
    ensures !IsKnownServiceKey(service) && HealthOf(env.registry.value, service).Available? ==>
              match env.registry.value.getServiceEndpoint(service)
              case Err(e) => v == Text(ConfigEndpointErrorMessage(service, e))
              case Ok(endpoint) => v == FetchConfig(env, NewConfigClient(env, endpoint), processResponse)
  {
    if IsKnownServiceKey(service) then FetchConfig(env, maps.generalClients[service], processResponse)
    else
      match env.registry.value.isServiceAvailable(service)
      case Some(e) => Text(e)
      case None =>
        match env.registry.value.getServiceEndpoint(service)
        case Err(e) => Text(ConfigEndpointErrorMessage(service, e))
        case Ok(endpoint) => FetchConfig(env, NewConfigClient(env, endpoint), processResponse)
  }

  /** The registry calls `getConfig` makes for a service it reaches. */
  function StepCalls(env: CC.Env, service: string): (calls: seq<CC.RegistryCall>)
    requires !IsKnownServiceKey(service) ==> env.registry.Some?
    ensures IsKnownServiceKey(service) <==> calls == []
    ensures forall k :: 0 <= k < |calls| ==> calls[k].key == service
  {
    if IsKnownServiceKey(service) then []
    else if env.registry.value.isServiceAvailable(service).Some? then [CC.IsServiceAvailable(service)]
    else [CC.IsServiceAvailable(service), CC.GetServiceEndpoint(service)]
  }

  /** A service that does not resolve: its entry and calls are recorded and the loop goes on with the next one. */
  lemma GetConfigStep<T>(env: CC.Env, maps: CC.ClientMaps, services: seq<string>,
                         configuration: map<string, ConfigValue<T>>, calls: seq<CC.RegistryCall>, processResponse: string -> T)
    requires services != [] && !Resolves(env, services[0])
    requires RegistryReachable(env, services) && KnownClientsReady(maps, services)
    ensures RegistryReachable(env, services[1..]) && KnownClientsReady(maps, services[1..])
    ensures GetConfigFrom(env, maps, services, configuration, calls, processResponse)
         == GetConfigFrom(env, maps, services[1..], configuration[services[0] := ConfigEntry(env, maps, services[0], processResponse)],
                          calls + StepCalls(env, services[0]), processResponse)
  {
    TailMembers(services);
    if IsKnownServiceKey(services[0]) {
      assert calls + StepCalls(env, services[0]) == calls;
    }
  }

  /** Every registry call in `asked` names an unknown service of the list. */
  predicate OnlyUnknownsAsked(asked: seq<CC.RegistryCall>, services: seq<string>) {
    forall c :: c in asked ==> c.key in services && !IsKnownServiceKey(c.key)
  }

  /** Only unknown services of the list are sent to the registry; known ones never are. */
  lemma {:induction false} GetConfigAsksOnlyForUnknownServices<T>(env: CC.Env, maps: CC.ClientMaps, services: seq<string>,
                                                                 configuration: map<string, ConfigValue<T>>,
                                                                 calls: seq<CC.RegistryCall>, processResponse: string -> T)
    requires RegistryReachable(env, services) && KnownClientsReady(maps, services)
    ensures OnlyUnknownsAsked(GetConfigFrom(env, maps, services, configuration, calls, processResponse).calls[|calls|..], services)
    decreases |services|
  {
    var r := GetConfigFrom(env, maps, services, configuration, calls, processResponse);
    if services != [] {
      var service := services[0];
      if Resolves(env, service) {
        assert r.calls[|calls|..] == [CC.IsServiceAvailable(service), CC.GetServiceEndpoint(service)];
      } else {
        var entry := ConfigEntry(env, maps, service, processResponse);
        var step := StepCalls(env, service);
        GetConfigStep(env, maps, services, configuration, calls, processResponse);
        GetConfigAsksOnlyForUnknownServices(env, maps, services[1..], configuration[service := entry], calls + step, processResponse);
        DropAfterPrefix(r.calls, calls, step);
        TailMembers(services);
      }
    }
  }

  /** A list of known services only: no registry call. */
  lemma {:induction false} KnownServicesOnlyAskNothing<T>(env: CC.Env, maps: CC.ClientMaps, services: seq<string>,
                                                         configuration: map<string, ConfigValue<T>>,
                                                         calls: seq<CC.RegistryCall>, processResponse: string -> T)
    requires forall s :: s in services ==> IsKnownServiceKey(s)
    requires KnownClientsReady(maps, services)
    ensures GetConfigFrom(env, maps, services, configuration, calls, processResponse).calls == calls
    decreases |services|
  {
    if services != [] {
      var service := services[0];
      assert IsKnownServiceKey(service);
      GetConfigStep(env, maps, services, configuration, calls, processResponse);
      TailMembers(services);
      KnownServicesOnlyAskNothing(env, maps, services[1..],
                                  configuration[service := ConfigEntry(env, maps, service, processResponse)],
                                  calls + StepCalls(env, service), processResponse);
    }
  }

  /**
   * When no service of the list resolves, `getConfig` visits the whole list:
   * every service gets its entry, errors included, and the maps do not change.
   */
  lemma {:induction false} GetConfigWithoutResolution<T>(env: CC.Env, maps: CC.ClientMaps, services: seq<string>,
                                                         configuration: map<string, ConfigValue<T>>,
                                                         calls: seq<CC.RegistryCall>, processResponse: string -> T)
    requires RegistryReachable(env, services) && KnownClientsReady(maps, services)
    requires forall s :: s in services ==> !Resolves(env, s)
    ensures var r := GetConfigFrom(env, maps, services, configuration, calls, processResponse);
            && r.maps == maps
            && (forall k :: k in r.configuration <==> k in configuration || k in services)
            && (forall s :: s in services ==> r.configuration[s] == ConfigEntry(env, maps, s, processResponse))
            && (forall k :: k in configuration && k !in services ==> r.configuration[k] == configuration[k])
    decreases |services|
  {
    if services != [] {
      var service := services[0];
      var rest := services[1..];
      TailMembers(services);
      var updated := configuration[service := ConfigEntry(env, maps, service, processResponse)];
      GetConfigStep(env, maps, services, configuration, calls, processResponse);
      GetConfigWithoutResolution(env, maps, rest, updated, calls + StepCalls(env, service), processResponse);
    }
  }

  /**
   * The first service of the list that the registry resolves ends the loop:
   * both maps get the endpoint's service id, that service's entry is fetched
   * through the new configuration client, and no later service gets an entry.
   */
  lemma {:induction false} GetConfigStopsAtFirstResolution<T>(env: CC.Env, maps: CC.ClientMaps, services: seq<string>,
                                                              configuration: map<string, ConfigValue<T>>,
                                                              calls: seq<CC.RegistryCall>, processResponse: string -> T, j: nat)
    requires RegistryReachable(env, services) && KnownClientsReady(maps, services)
    requires j < |services| && Resolves(env, services[j])
    requires forall i :: 0 <= i < j ==> !Resolves(env, services[i])
    ensures var r := GetConfigFrom(env, maps, services, configuration, calls, processResponse);
            var endpoint := env.registry.value.getServiceEndpoint(services[j]).value;
            && r.maps == CC.Register(env, maps, endpoint, NewConfigClient(env, endpoint))
            && (forall k :: k in r.configuration <==> k in configuration || k in services[..j + 1])
            && r.configuration[services[j]] == FetchConfig(env, NewConfigClient(env, endpoint), processResponse)
    decreases j
  {
    var service := services[0];
    if j == 0 {
      assert services[..1] == [service];
    } else {
      GetConfigStep(env, maps, services, configuration, calls, processResponse);
      var rest := services[1..];
      GetConfigStopsAtFirstResolution(env, maps, rest, configuration[service := ConfigEntry(env, maps, service, processResponse)],
                                      calls + StepCalls(env, service), processResponse, j - 1);
      TakeOfTail(services, j);
    }
  }
}
