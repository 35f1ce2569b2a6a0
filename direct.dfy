/**
 * The agent's client cache as mutable state: the two package-level maps
 * become the fields of `Agent`, and each step of direct metrics is a method
 * proved to do what the matching function of module ClientCache says.
 */
module Direct {
  import opened Wrappers
  import CC = ClientCache

  class Agent {
    /** The configuration and collaborators; they do not change. */
    const env: CC.Env
    /** `Configuration.Clients`, keyed by service id. */
    var configClients: map<string, CC.ClientInfo>
    /** `generalClients`, keyed by service id. */
    var generalClients: map<string, CC.GeneralClient>

    /** The two maps as one value. */
    function Maps(): (m: CC.ClientMaps)
      reads this
      ensures m.configClients == configClients && m.generalClients == generalClients
    {
      CC.ClientMaps(configClients, generalClients)
    }

    constructor (env: CC.Env, maps: CC.ClientMaps)
      ensures this.env == env && Maps() == maps
    {
      this.env := env;
      configClients := maps.configClients;
      generalClients := maps.generalClients;
    }

    /** `fetchMetrics`: reads the cached client; changes nothing. */
    method FetchMetrics(serviceName: string) returns (r: Result<string>)
      requires serviceName in generalClients
      ensures r == CC.FetchMetrics(env, Maps(), serviceName)
    {
      var fetched := env.fetchMetrics(generalClients[serviceName]);
      if fetched.Err? {
        return Err(fetched.error);
      }
      r := env.normalizeAndWrap(serviceName, fetched.value);
    }

    /** `handleKnownService`: the cached client's metrics, with no registry call. */
    method HandleKnownService(serviceName: string) returns (r: Result<string>)
      requires serviceName in generalClients
      ensures CC.Resolution(r, Maps(), []) == CC.HandleKnownService(env, Maps(), serviceName)
    {
      r := FetchMetrics(serviceName);
    }

    /**
     * `handleUnknownService`: asks the registry, then writes the resolved
     * service id into both maps before fetching through the new client.
     * `asked` lists the registry calls made.
     */
    method HandleUnknownService(serviceName: string) returns (r: Result<string>, ghost asked: seq<CC.RegistryCall>)
      modifies this
      ensures CC.Resolution(r, Maps(), asked) == CC.HandleUnknownService(env, old(Maps()), serviceName)
    {
      if env.registry.None? {
        return Err(CC.NilRegistryMessage(serviceName)), [];
      }
      var registry := env.registry.value;
      var unavailable := registry.isServiceAvailable(serviceName);
      asked := [CC.IsServiceAvailable(serviceName)];
      if unavailable.Some? {
        return Err(unavailable.value), asked;
      }
      var endpoint := registry.getServiceEndpoint(serviceName);
      asked := asked + [CC.GetServiceEndpoint(serviceName)];
      if endpoint.Err? {
        return Err(CC.EndpointErrorMessage(serviceName, endpoint.error)), asked;
      }
      var id := endpoint.value.serviceId;
      configClients := configClients[id := CC.ClientInfo(env.protocol, endpoint.value.host, endpoint.value.port)];
      var params := CC.EndpointParams(id, "/", true, configClients[id], CC.MetricsRoute);
      generalClients := generalClients[id := CC.GeneralClient(params)];
      r := FetchMetrics(id);
    }

    /**
     * `MetricsViaDirect`: the cached client when there is one, the registry
     * otherwise. `asked` lists the registry calls made.
     */
    method MetricsViaDirect(serviceName: string) returns (r: Result<string>, ghost asked: seq<CC.RegistryCall>)
      modifies this
      ensures CC.Resolution(r, Maps(), asked) == CC.MetricsViaDirect(env, old(Maps()), serviceName)
    {
      if serviceName in generalClients {
        r := HandleKnownService(serviceName);
        asked := [];
      } else {
        r, asked := HandleUnknownService(serviceName);
      }
    }
  }
}
