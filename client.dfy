/**
 * The Confluent Cloud API key client (pkg/plugin/client.go): construction from a configuration, the
 * request built for a new key, and the remote API itself as an oracle.
 */
module ApiClient {
  import opened Common
  import opened Records

  datatype ServerConfig = ServerConfig(url: string, description: string)
  datatype BasicAuth = BasicAuth(userName: string, password: string)

  /** A constructed client: the servers it addresses, first one first, and its basic-auth credentials. */
  datatype Client = Client(servers: seq<ServerConfig>, auth: BasicAuth)

  const CustomServerDescription := "Custom Confluent Cloud API URL"

  /**
   * `newClient`. The configuration may be nil; defaults are the servers of the API library's default
   * configuration.
   */
  function NewClient(config: Option<Config>, defaults: seq<ServerConfig>): (r: Result<Client>)
    ensures config.None? ==> r == Err("Client configuration nil")
    ensures config.Some? && config.value.apiKeyId == "" ==> r == Err("CCloud API Key ID not defined")
    ensures config.Some? && config.value.apiKeyId != "" && config.value.apiKeySecret == "" ==>
      r == Err("CCloud API Key Secret not defined")
    ensures r.Ok? <==> config.Some? && config.value.apiKeyId != "" && config.value.apiKeySecret != ""
    ensures r.Ok? ==> r.value.auth == BasicAuth(config.value.apiKeyId, config.value.apiKeySecret)
    ensures r.Ok? && config.value.url == "" ==> r.value.servers == defaults
    ensures r.Ok? && config.value.url != "" ==>
      && |r.value.servers| == |defaults| + 1
      && r.value.servers[0] == ServerConfig(config.value.url, CustomServerDescription)
      && r.value.servers[1..] == defaults
  {
    if config.None? then Err("Client configuration nil")
    else if config.value.apiKeyId == "" then Err("CCloud API Key ID not defined")
    else if config.value.apiKeySecret == "" then Err("CCloud API Key Secret not defined")
    else
      var servers := if config.value.url != "" then [ServerConfig(config.value.url, CustomServerDescription)] + defaults
                     else defaults;
      Ok(Client(servers, BasicAuth(config.value.apiKeyId, config.value.apiKeySecret)))
  }

  // ---------------------------------------------------------------------------------------------
  // The request for a new key

  datatype ObjectReference = ObjectReference(id: string, environment: Option<string>)

  /** The spec of a new API key as sent to the API; None stands for a field left unset. */
  datatype ApiKeySpec = ApiKeySpec(
    owner: ObjectReference,
    resource: Option<ObjectReference>,
    displayName: Option<string>,
    description: Option<string>)

  /** Some(s) for a non-empty s, None for "". */
  function NonEmpty(s: string): (o: Option<string>)
    ensures o.Some? <==> s != ""
    ensures o.Some? ==> o.value == s
  {
    if s != "" then Some(s) else None
  }

  /** The spec `CreateApiKey` sends for the given arguments. */
  function ApiKeyRequest(owner: string, ownerEnv: string, resource: string, resourceEnv: string,
                         displayName: string, description: string): ApiKeySpec
  {
    ApiKeySpec(ObjectReference(owner, NonEmpty(ownerEnv)),
               if resource != "" then Some(ObjectReference(resource, NonEmpty(resourceEnv))) else None,
               NonEmpty(displayName), NonEmpty(description))
  }

  /** The arguments read back from a spec, unset fields as "". */
  function SpecArguments(spec: ApiKeySpec): (string, string, string, string, string, string)
  {
    (spec.owner.id, spec.owner.environment.GetOr(""),
     if spec.resource.Some? then spec.resource.value.id else "",
     if spec.resource.Some? then spec.resource.value.environment.GetOr("") else "",
     spec.displayName.GetOr(""), spec.description.GetOr(""))
  }

  /**
   * The spec always names the owner; it sets the owner's environment, the resource, the display name
   * and the description only when they are non-empty, and the resource's environment only when both
   * resource and resource environment are non-empty. Reading it back gives the arguments, except that a
   * resource environment without a resource is dropped.
   */
  lemma ApiKeyRequestFields(owner: string, ownerEnv: string, resource: string, resourceEnv: string,
                            displayName: string, description: string)
    ensures var spec := ApiKeyRequest(owner, ownerEnv, resource, resourceEnv, displayName, description);
      && spec.owner.id == owner
      && (spec.owner.environment.Some? <==> ownerEnv != "")
      && (spec.resource.Some? <==> resource != "")
      && (spec.resource.Some? && spec.resource.value.environment.Some? <==> resource != "" && resourceEnv != "")
      && (spec.displayName.Some? <==> displayName != "")
      && (spec.description.Some? <==> description != "")
      && SpecArguments(spec)
         == (owner, ownerEnv, resource, if resource != "" then resourceEnv else "", displayName, description)
  {
  }

  /** The spec assembly of `CreateApiKey` (lines 78-101), one optional field after another. */
  method BuildApiKeySpec(owner: string, ownerEnv: string, resource: string, resourceEnv: string,
                         displayName: string, description: string) returns (spec: ApiKeySpec)
    ensures spec == ApiKeyRequest(owner, ownerEnv, resource, resourceEnv, displayName, description)
  {
    spec := ApiKeySpec(ObjectReference(owner, None), None, None, None);
    if ownerEnv != "" {
      spec := spec.(owner := spec.owner.(environment := Some(ownerEnv)));
    }
    if resource != "" {
      spec := spec.(resource := Some(ObjectReference(resource, None)));
      if resourceEnv != "" {
        spec := spec.(resource := Some(spec.resource.value.(environment := Some(resourceEnv))));
      }
    }
    if displayName != "" {
      spec := spec.(displayName := Some(displayName));
    }
    if description != "" {
      spec := spec.(description := Some(description));
    }
  }

  // ---------------------------------------------------------------------------------------------
  // The remote API

  /** An error from the API: a generic one, or an OpenAPI error that carries the response body. */
  datatype ApiFailure = Generic(message: string) | OpenApi(message: string, body: string)

  /** What the API answers to a create: the new key's id and secret, or a failure. */
  datatype MintResult = Minted(id: string, secret: string) | MintFailed(failure: ApiFailure)

  /**
   * The remote API key service as an oracle: the n-th create is answered by mint(n) and the n-th
   * delete by remove(n); every request is logged.
   */
  class Issuer {
    const mint: nat -> MintResult
    const remove: nat -> Option<string>
    var requests: seq<ApiKeySpec>
    var deleted: seq<string>

    constructor(mint: nat -> MintResult, remove: nat -> Option<string>)
      ensures this.mint == mint && this.remove == remove && requests == [] && deleted == []
    {
      this.mint := mint;
      this.remove := remove;
      requests := [];
      deleted := [];
    }

    method Create(spec: ApiKeySpec) returns (r: MintResult)
      modifies this
      ensures requests == old(requests) + [spec] && deleted == old(deleted)
      ensures r == mint(|old(requests)|)
    {
      r := mint(|requests|);
      requests := requests + [spec];
    }

    method Delete(keyId: string) returns (err: Option<string>)
      modifies this
      ensures deleted == old(deleted) + [keyId] && requests == old(requests)
      ensures err == remove(|old(deleted)|)
    {
      err := remove(|deleted|);
      deleted := deleted + [keyId];
    }
  }

  /** The error text `CreateApiKey` returns for an API failure. */
  function CreateApiKeyError(f: ApiFailure): string
  {
    match f
    case Generic(m) => "error creating CCloud Cluster API Key: " + m
    case OpenApi(m, body) => "error creating CCloud Cluster API Key: " + m + ". Ccloud response: " + body
  }

  /**
   * `CreateApiKey`: sends the spec for the arguments; on success returns the new id and secret, on
   * failure an empty id, an empty secret and the error.
   */
  method CreateApiKey(c: Client, issuer: Issuer, owner: string, ownerEnv: string, resource: string,
                      resourceEnv: string, displayName: string, description: string)
    returns (keyId: string, keySecret: string, err: Option<string>)
    modifies issuer
    ensures issuer.requests == old(issuer.requests)
                               + [ApiKeyRequest(owner, ownerEnv, resource, resourceEnv, displayName, description)]
    ensures issuer.deleted == old(issuer.deleted)
    ensures match issuer.mint(|old(issuer.requests)|)
            case Minted(id, secret) => keyId == id && keySecret == secret && err.None?
            case MintFailed(f) => keyId == "" && keySecret == "" && err == Some(CreateApiKeyError(f))
  {
    var spec := BuildApiKeySpec(owner, ownerEnv, resource, resourceEnv, displayName, description);
    var answer := issuer.Create(spec);
    if answer.MintFailed? {
      return "", "", Some(CreateApiKeyError(answer.failure));
    }
    keyId, keySecret, err := answer.id, answer.secret, None;
  }

  /** `DeleteApiKey`: asks the API to delete the key and hands back its error, if any. */
  method DeleteApiKey(c: Client, issuer: Issuer, keyId: string) returns (err: Option<string>)
    modifies issuer
    ensures issuer.deleted == old(issuer.deleted) + [keyId] && issuer.requests == old(issuer.requests)
    ensures err == issuer.remove(|old(issuer.deleted)|)
  {
    err := issuer.Delete(keyId);
  }
}
