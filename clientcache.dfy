/**
 * Direct metrics: resolving a service name to a general client, through the
 * cache of clients the agent keeps (`Configuration.Clients` and
 * `generalClients`) or, for a name not in the cache, through the registry.
 *
 * The registry, the remote clients and `normalizeAndWrap` are oracles
 * collected in `Env`. The functions here say what each step returns, what
 * the two maps become and which registry calls it makes; the `Agent` class
 * in module Direct performs the same steps on its fields.
 */
module ClientCache {
  import opened Wrappers
  import opened Sequences

  /** `config.ClientInfo`: how to reach a service. */
  datatype ClientInfo = ClientInfo(protocol: string, host: string, port: int)

  /** What the registry's endpoint lookup returns. */
  datatype Endpoint = Endpoint(serviceId: string, host: string, port: int)

  /** The API route appended to a client's URL. */
  datatype Route = MetricsRoute | ConfigRoute

  /**
   * `types.EndpointParams`. The URL is kept as the client information and
   * the route it is formed from; the monitor interval is not modelled.
   */
  datatype EndpointParams = EndpointParams(serviceKey: string, path: string, useRegistry: bool, client: ClientInfo, route: Route)

  /** A client made by `general.NewGeneralClient`. */
  datatype GeneralClient = GeneralClient(params: EndpointParams)

  /**
   * The registry client: the availability check answers with an error text
   * (`Some`) or with nothing; the endpoint lookup with an endpoint or an error.
   */
  datatype Registry = Registry(isServiceAvailable: string -> Option<string>, getServiceEndpoint: string -> Result<Endpoint>)

  /** A call made to the registry. */
  datatype RegistryCall = IsServiceAvailable(key: string) | GetServiceEndpoint(key: string)

  /** `Configuration.MetricsMechanism`. */
  datatype MetricsMechanism = ViaDirectService | ViaExecutor | ViaCustom | OtherMechanism

  /** The agent's settings and collaborators. */
  datatype Env = Env(
    protocol: string,                                      // Configuration.Service.Protocol
    registry: Option<Registry>,                            // registryClient, None when nil
    fetchMetrics: GeneralClient -> Result<string>,         // GeneralClient.FetchMetrics
    fetchConfiguration: GeneralClient -> Result<string>,   // GeneralClient.FetchConfiguration
    normalizeAndWrap: (string, string) -> Result<string>,  // normalizeAndWrap(serviceName, payload)
    metricsMechanism: MetricsMechanism,
    metricsViaExecutor: string -> Result<string>,          // MetricsViaExecutor(service)
    metricsOperation: string,                              // the agent's `metrics` operation name
    directServiceExecutorType: string,                     // executorTypeDirectService
    unknownExecutorType: string)                           // executorTypeUnknown

  /** The two client maps, both keyed by service id. */
  datatype ClientMaps = ClientMaps(configClients: map<string, ClientInfo>, generalClients: map<string, GeneralClient>)

  /** The result of one resolution: the value, the maps afterwards, and the registry calls made. */
  datatype Resolution = Resolution(result: Result<string>, maps: ClientMaps, calls: seq<RegistryCall>)

  /** Both maps keep every key they had. */
  predicate Grows(before: ClientMaps, after: ClientMaps) {
    && before.configClients.Keys <= after.configClients.Keys
    && before.generalClients.Keys <= after.generalClients.Keys
  }

  /** The client information recorded for a resolved endpoint: the configured protocol, the endpoint's host and port. */
  function EndpointClientInfo(env: Env, endpoint: Endpoint): ClientInfo {
    ClientInfo(env.protocol, endpoint.host, endpoint.port)
  }

  /**
   * The client `handleUnknownService` makes for a resolved endpoint: keyed by
   * the endpoint's service id, always through the registry, with the URL
   * formed from the client information recorded for it and the metrics route.
   */
  function NewMetricsClient(env: Env, endpoint: Endpoint): (c: GeneralClient)
    ensures c.params.serviceKey == endpoint.serviceId && c.params.path == "/" && c.params.useRegistry
    ensures c.params.client == EndpointClientInfo(env, endpoint) && c.params.route == MetricsRoute
  {
    GeneralClient(EndpointParams(endpoint.serviceId, "/", true, EndpointClientInfo(env, endpoint), MetricsRoute))
  }

  /**
   * Records a resolved endpoint in both maps, under its service id: the
   * only key that changes, and it is present in both afterwards.
   */
  function Register(env: Env, maps: ClientMaps, endpoint: Endpoint, client: GeneralClient): (r: ClientMaps)
    ensures Grows(maps, r)
    ensures r.configClients.Keys == maps.configClients.Keys + {endpoint.serviceId}
    ensures r.generalClients.Keys == maps.generalClients.Keys + {endpoint.serviceId}
    ensures r.configClients[endpoint.serviceId] == EndpointClientInfo(env, endpoint)
    ensures r.generalClients[endpoint.serviceId] == client
    ensures forall k :: k in maps.generalClients && k != endpoint.serviceId ==> r.generalClients[k] == maps.generalClients[k]
    ensures forall k :: k in maps.configClients && k != endpoint.serviceId ==> r.configClients[k] == maps.configClients[k]
  {
    ClientMaps(maps.configClients[endpoint.serviceId := EndpointClientInfo(env, endpoint)],
               maps.generalClients[endpoint.serviceId := client])
  }

  /** `fetchMetrics`: the cached client's metrics, normalised; a fetch error is passed on as it is. */
  function FetchMetrics(env: Env, maps: ClientMaps, serviceName: string): (r: Result<string>)
    requires serviceName in maps.generalClients
    ensures env.fetchMetrics(maps.generalClients[serviceName]).Err? ==> r == env.fetchMetrics(maps.generalClients[serviceName])
    ensures env.fetchMetrics(maps.generalClients[serviceName]).Ok? ==>
              r == env.normalizeAndWrap(serviceName, env.fetchMetrics(maps.generalClients[serviceName]).value)
  {
    match env.fetchMetrics(maps.generalClients[serviceName])
    case Err(e) => Err(e)
    case Ok(result) => env.normalizeAndWrap(serviceName, result)
  }

  function HandleKnownService(env: Env, maps: ClientMaps, serviceName: string): (r: Resolution)
    requires serviceName in maps.generalClients
    ensures r.maps == maps && r.calls == []
  {
    Resolution(FetchMetrics(env, maps, serviceName), maps, [])
  }

  /** The registry is set, reports the service available and returns an endpoint for it. */
  predicate Resolved(env: Env, serviceName: string) {
    && env.registry.Some?
    && env.registry.value.isServiceAvailable(serviceName).None?
    && env.registry.value.getServiceEndpoint(serviceName).Ok?
  }

  const NilRegistryHead: string := "registryClient not initialized; required to handle unknown service "

  /** The nil-registry error: a fixed text followed by the service name verbatim. */
  function NilRegistryMessage(serviceName: string): (r: string)
    ensures NilRegistryHead <= r && r[|NilRegistryHead|..] == serviceName
  {
    AppendParts(NilRegistryHead, serviceName);
    NilRegistryHead + serviceName
  }

  const EndpointErrorHead: string := "on attempting to get ServiceEndpoint for serviceName "
  const GotError: string := ", got error: "

  /** The wrapped endpoint error: the service name, then the registry's error text verbatim at the end. */
  function EndpointErrorMessage(serviceName: string, error: string): (r: string)
    ensures EndpointErrorHead + serviceName + GotError <= r
    ensures |r| == |EndpointErrorHead| + |serviceName| + |GotError| + |error| && r[|r| - |error|..] == error
  {
    AppendParts(EndpointErrorHead + serviceName + GotError, error);
    EndpointErrorHead + serviceName + GotError + error
  }

  /**
   * `handleUnknownService`: availability check, endpoint lookup, then both
   * maps get the resolved service id and the metrics come from the new client.
   * Every failure leaves the maps as they were.
   */
  function HandleUnknownService(env: Env, maps: ClientMaps, serviceName: string): (r: Resolution)
    ensures Grows(maps, r.maps)
    ensures r.maps == maps || Resolved(env, serviceName)
    ensures Resolved(env, serviceName) ==>
              var e := env.registry.value.getServiceEndpoint(serviceName).value;
              r.maps == Register(env, maps, e, NewMetricsClient(env, e))
    ensures |r.calls| <= 2
  {
    match env.registry
    case None => Resolution(Err(NilRegistryMessage(serviceName)), maps, [])
    case Some(registry) =>
      match registry.isServiceAvailable(serviceName)
      case Some(e) => Resolution(Err(e), maps, [IsServiceAvailable(serviceName)])
      case None =>
        var calls := [IsServiceAvailable(serviceName), GetServiceEndpoint(serviceName)];
        match registry.getServiceEndpoint(serviceName)
        case Err(e) => Resolution(Err(EndpointErrorMessage(serviceName, e)), maps, calls)
        case Ok(endpoint) =>
          var maps' := Register(env, maps, endpoint, NewMetricsClient(env, endpoint));
          Resolution(FetchMetrics(env, maps', endpoint.serviceId), maps', calls)
  }

  /**
   * `MetricsViaDirect`: a cached name is served without the registry and
   * without touching the maps; otherwise the name is resolved. The cache only
   * grows, by at most one key in each map.
   */
  function MetricsViaDirect(env: Env, maps: ClientMaps, serviceName: string): (r: Resolution)
    ensures serviceName in maps.generalClients ==> r.calls == [] && r.maps == maps
    ensures Grows(maps, r.maps)
    ensures serviceName !in maps.generalClients && Resolved(env, serviceName) ==>
              var e := env.registry.value.getServiceEndpoint(serviceName).value;
              r.maps == Register(env, maps, e, NewMetricsClient(env, e))
    ensures serviceName !in maps.generalClients && !Resolved(env, serviceName) ==> r.maps == maps
  {
    if serviceName in maps.generalClients then HandleKnownService(env, maps, serviceName)
    else HandleUnknownService(env, maps, serviceName)
  }

  /** A cached name: the cached client's metrics, no registry call, no map change. */
  lemma CachedServiceSkipsRegistry(env: Env, maps: ClientMaps, serviceName: string)
    requires serviceName in maps.generalClients
    ensures MetricsViaDirect(env, maps, serviceName) == Resolution(FetchMetrics(env, maps, serviceName), maps, [])
  {
  }

  /** A name not in the cache and no registry: an error naming the service, maps unchanged. */
  lemma UnknownServiceNeedsRegistry(env: Env, maps: ClientMaps, serviceName: string)
    requires serviceName !in maps.generalClients && env.registry.None?
    ensures MetricsViaDirect(env, maps, serviceName) == Resolution(Err(NilRegistryMessage(serviceName)), maps, [])
  {
  }

  /** The registry says the service is unavailable: its error as it is, maps unchanged. */
  lemma UnavailableServiceErrorIsVerbatim(env: Env, maps: ClientMaps, serviceName: string, error: string)
    requires serviceName !in maps.generalClients && env.registry.Some?
    requires env.registry.value.isServiceAvailable(serviceName) == Some(error)
    ensures MetricsViaDirect(env, maps, serviceName) == Resolution(Err(error), maps, [IsServiceAvailable(serviceName)])
  {
  }

  /** The endpoint lookup fails: its error wrapped with the service name, maps unchanged. */
  lemma EndpointErrorIsWrapped(env: Env, maps: ClientMaps, serviceName: string, error: string)
    requires serviceName !in maps.generalClients && env.registry.Some?
    requires env.registry.value.isServiceAvailable(serviceName).None?
    requires env.registry.value.getServiceEndpoint(serviceName) == Err(error)
    ensures MetricsViaDirect(env, maps, serviceName)
         == Resolution(Err(EndpointErrorMessage(serviceName, error)), maps,
                       [IsServiceAvailable(serviceName), GetServiceEndpoint(serviceName)])
  {
  }

  /**
   * A resolved name: both maps get the endpoint's service id (not the
   * requested name), and the metrics come from the client just stored there.
   */
  lemma ResolvedServiceIsCachedUnderServiceId(env: Env, maps: ClientMaps, serviceName: string, endpoint: Endpoint)
    requires serviceName !in maps.generalClients && env.registry.Some?
    requires env.registry.value.isServiceAvailable(serviceName).None?
    requires env.registry.value.getServiceEndpoint(serviceName) == Ok(endpoint)
    ensures var r := MetricsViaDirect(env, maps, serviceName);
            && r.maps == Register(env, maps, endpoint, NewMetricsClient(env, endpoint))
            && r.result == FetchMetrics(env, r.maps, endpoint.serviceId)
            && r.calls == [IsServiceAvailable(serviceName), GetServiceEndpoint(serviceName)]
  {
  }

  /**
   * Asking again for a name that was just resolved hits the cache exactly
   * when the registry's service id is that name; otherwise the registry is
   * consulted again.
   */
  lemma SecondRequestHitsCacheIffSameId(env: Env, maps: ClientMaps, serviceName: string, endpoint: Endpoint)
    requires serviceName !in maps.generalClients && env.registry.Some?
    requires env.registry.value.isServiceAvailable(serviceName).None?
    requires env.registry.value.getServiceEndpoint(serviceName) == Ok(endpoint)
    ensures var first := MetricsViaDirect(env, maps, serviceName);
            MetricsViaDirect(env, first.maps, serviceName).calls == [] <==> endpoint.serviceId == serviceName
  {
    var first := MetricsViaDirect(env, maps, serviceName);
    assert first.maps.generalClients.Keys == maps.generalClients.Keys + {endpoint.serviceId};
  }
}
