/**
 * The backend and its client cache (pkg/plugin/backend.go): a nullable cached client, built lazily from
 * the stored configuration and dropped on reset.
 */
module BackendCache {
  import opened Common
  import opened Records
  import opened Storage
  import opened ConfigStore
  import opened ApiClient

  /** A secret type the backend declares: its type name and its fields, each with its description. */
  datatype SecretType = SecretType(typeName: string, fields: map<string, string>)

  const ClusterApiKeyType := "ccloud_cluster_apikey"

  /** The one secret type declared (`ccloudClusterApiKey`, pkg/plugin/ccloud_apikey.go:24-40): fields id and secret. */
  const ClusterApiKeySecret := SecretType(ClusterApiKeyType, map[
    "id" := "Confluent Cloud Cluster API Key ID",
    "secret" := "Confluent Cloud Cluster API Key Secret"])

  /** The client `getClient` yields when the cache holds `cached`. */
  function ClientFor(cached: Option<Client>, faults: Faults, entries: map<string, Entry>,
                     defaults: seq<ServerConfig>): Result<Client>
  {
    if cached.Some? then Ok(cached.value)
    else match ConfigLookup(faults, entries)
      case Err(e) => Err(e)
      case Ok(config) => NewClient(Some(config), defaults)
  }

  /** The cache after a `getClient` that yielded r. */
  function CacheAfter(cached: Option<Client>, r: Result<Client>): Option<Client>
  {
    if r.Ok? then Some(r.value) else cached
  }

  class Backend {
    /** The servers of the API library's default configuration. */
    const defaultServers: seq<ServerConfig>
    /** The secret types the backend declares (`newBackend`). */
    const secrets: seq<SecretType>
    /** The cached client; None is Go's nil. */
    var client: Option<Client>
    /** How many clients have been built and cached so far. */
    ghost var builds: nat

    constructor(defaultServers: seq<ServerConfig>)
      ensures this.defaultServers == defaultServers && secrets == [ClusterApiKeySecret]
      ensures client == None && builds == 0
    {
      this.defaultServers := defaultServers;
      secrets := [ClusterApiKeySecret];
      client := None;
      builds := 0;
    }

    /** `reset`: drops the cached client and changes nothing else. */
    method Reset()
      modifies this`client
      ensures client == None
    {
      client := None;
    }

    /** `invalidate`: drops the cached client when the configuration key changed, else does nothing. */
    method Invalidate(key: string)
      modifies this`client
      ensures client == if key == ConfigKey then None else old(client)
    {
      if key == ConfigKey {
        Reset();
      }
    }

    /** `getClientCached`: the cached client, possibly none. */
    method GetClientCached() returns (c: Option<Client>)
      ensures c == client
    {
      c := client;
    }

    /**
     * `getClient`: a cached client is returned without reading the configuration; otherwise a client is
     * built from the stored configuration, cached and returned. A failed read or build leaves the cache
     * empty and returns the error.
     */
    method GetClient(s: Store) returns (r: Result<Client>)
      modifies this`client, this`builds
      ensures old(client).Some? ==> r == Ok(old(client).value) && client == old(client) && builds == old(builds)
      ensures old(client).None? && r.Ok? ==> client == Some(r.value) && builds == old(builds) + 1
      ensures old(client).None? && r.Err? ==> client == None && builds == old(builds)
      ensures r == ClientFor(old(client), s.faults, s.entries, defaultServers)
      ensures client == CacheAfter(old(client), r)
    {
      var cached := GetClientCached();
      if cached.Some? {
        return Ok(cached.value);
      }
      var config := GetConfig(s);
      if config.Err? {
        return Err(config.error);
      }
      r := NewClient(Some(config.value), defaultServers);
      if r.Err? {
        return;
      }
      client := Some(r.value);
      builds := builds + 1;
    }
  }

  /** Two consecutive `getClient` calls with no reset between them build at most one client. */
  method GetClientTwice(b: Backend, s: Store) returns (first: Result<Client>, second: Result<Client>)
    modifies b`client, b`builds
    ensures b.builds <= old(b.builds) + 1
    ensures first.Ok? ==> second == first
  {
    first := b.GetClient(s);
    second := b.GetClient(s);
  }

  /** The cached client always has credentials: only a valid configuration builds one. */
  lemma CachedClientHasCredentials(cached: Option<Client>, faults: Faults, entries: map<string, Entry>,
                                   defaults: seq<ServerConfig>)
    requires cached.None?
    ensures var r := ClientFor(cached, faults, entries, defaults);
      r.Ok? ==> (
        && ConfigLookup(faults, entries).Ok?
        && r.value.auth == BasicAuth(ConfigLookup(faults, entries).value.apiKeyId,
                                     ConfigLookup(faults, entries).value.apiKeySecret)
        && r.value.auth.userName != "" && r.value.auth.password != "")
  {
  }
}
