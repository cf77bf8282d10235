/**
 * Credential issuance (pkg/plugin/path_credentials.go): a read of `creds/<name>` loads the role and mints
 * a new Cluster API key, or, for a multi-use role already in use, looks for the cached key among the
 * backend's secret types. Nothing here writes to storage: the role changes are made on an in-memory copy.
 */
module Credentials {
  import opened Common
  import opened Records
  import opened Storage
  import opened Roles
  import opened ApiClient
  import opened BackendCache
  import opened ApiKeySecret

  /** A credential read: the role name and the request details that go into the key's description. */
  datatype CredentialRequest = CredentialRequest(name: string, mountPoint: string, path: string, displayName: string)

  /** The display name every minted key gets. */
  const KeyDisplayName := "display_name"

  /** The description every minted key gets. */
  function KeyDescription(req: CredentialRequest): string
  {
    "Created by Vault: path=" + req.mountPoint + req.path + " entity=" + req.displayName + ")"
  }

  /** What `createClusterKey` yields for the client obtained and the API's answer. */
  function MintOutcome(client: Result<Client>, answer: MintResult): (r: Result<ApiKey>)
  {
    if client.Err? then Err(client.error)
    else match answer
      case MintFailed(f) => Err("error creating CCloud Cluster API token: " + CreateTokenError(f))
      case Minted(id, secret) =>
        if id == "" || secret == "" then Err("received an invalid CCloud Cluster API token")
        else Ok(ApiKey(id, secret, 0))
  }

  /**
   * A minted key is the API's id and secret, both non-empty; an API error is wrapped, an empty id or
   * secret is refused, and a client error is handed on as it is.
   */
  lemma MintOutcomeCases(client: Result<Client>, answer: MintResult)
    ensures client.Err? ==> MintOutcome(client, answer) == Err(client.error)
    ensures client.Ok? && answer.MintFailed? ==>
      MintOutcome(client, answer) == Err("error creating CCloud Cluster API token: " + CreateTokenError(answer.failure))
    ensures client.Ok? && answer.Minted? && (answer.id == "" || answer.secret == "") ==>
      MintOutcome(client, answer) == Err("received an invalid CCloud Cluster API token")
    ensures MintOutcome(client, answer).Ok? <==> client.Ok? && answer.Minted? && answer.id != "" && answer.secret != ""
    ensures MintOutcome(client, answer).Ok? ==> MintOutcome(client, answer).value == ApiKey(answer.id, answer.secret, 0)
  {
  }

  /** The response to a successful mint. */
  function IssuedResponse(key: ApiKey, roleName: string, role: Role): SecretResponse
  {
    SecretResponse(map["key_id" := Str(key.keyId), "secret" := Str(key.secret)],
                   WithRoleTtls(Lease(0, 0, IssuedInternal(key.keyId, roleName)), role))
  }

  /**
   * The issued data carry the minted id and secret; the internal data carry the id and the role name;
   * the lease's ttl and max ttl are the role's where those are positive and the host default (0)
   * otherwise.
   */
  lemma IssuedResponseFields(key: ApiKey, roleName: string, role: Role)
    ensures var resp := IssuedResponse(key, roleName, role);
      && resp.data == map["key_id" := Str(key.keyId), "secret" := Str(key.secret)]
      && resp.lease.internal["key_id"] == Str(key.keyId) && resp.lease.internal["role"] == Str(roleName)
      && resp.lease.ttl == (if role.ttl > 0 then role.ttl else 0)
      && resp.lease.maxTtl == (if role.maxTtl > 0 then role.maxTtl else 0)
  {
  }

  /**
   * Renewing an issued lease while the role is unchanged changes nothing; after a role change it takes
   * the new role's positive ttls.
   */
  lemma RenewIssuedLease(key: ApiKey, roleName: string, role: Role, current: Role)
    ensures var lease := IssuedResponse(key, roleName, role).lease;
      && WithRoleTtls(lease, role) == lease
      && WithRoleTtls(lease, current).internal == lease.internal
      && (current.ttl > 0 ==> WithRoleTtls(lease, current).ttl == current.ttl)
      && (current.maxTtl > 0 ==> WithRoleTtls(lease, current).maxTtl == current.maxTtl)
  {
    WithRoleTtlsIdempotent(Lease(0, 0, IssuedInternal(key.keyId, roleName)), role);
  }

  /** `createClusterKey`: obtains the client, mints a key for the role's scope and refuses an empty id or secret. */
  method CreateClusterKey(b: Backend, s: Store, issuer: Issuer, req: CredentialRequest, role: Role)
    returns (r: Result<ApiKey>)
    modifies b`client, b`builds, issuer
    ensures var c := ClientFor(old(b.client), s.faults, s.entries, b.defaultServers);
      && b.client == CacheAfter(old(b.client), c)
      && issuer.deleted == old(issuer.deleted)
      && issuer.requests == old(issuer.requests)
           + (if c.Ok? then [ApiKeyRequest(role.owner, role.ownerEnv, role.resource, role.resourceEnv,
                                          KeyDisplayName, KeyDescription(req))] else [])
      && r == MintOutcome(c, issuer.mint(|old(issuer.requests)|))
  {
    var client := b.GetClient(s);
    if client.Err? {
      return Err(client.error);
    }
    var key := CreateToken(client.value, issuer, role.owner, role.ownerEnv, role.resource, role.resourceEnv,
                           KeyDisplayName, KeyDescription(req));
    if key.Err? {
      return Err("error creating CCloud Cluster API token: " + key.error);
    }
    if key.value.keyId == "" || key.value.secret == "" {
      return Err("received an invalid CCloud Cluster API token");
    }
    r := key;
  }

  /**
   * `createCredential`: mints a key and builds the response; the role it returns is the caller's copy
   * with the new key id and a usage count of 1, which no caller stores. On failure the role is untouched.
   */
  method CreateCredential(b: Backend, s: Store, issuer: Issuer, req: CredentialRequest, roleName: string, role: Role)
    returns (r: Outcome<SecretResponse>, roleAfter: Role)
    modifies b`client, b`builds, issuer
    ensures var c := ClientFor(old(b.client), s.faults, s.entries, b.defaultServers);
      var key := MintOutcome(c, issuer.mint(|old(issuer.requests)|));
      && b.client == CacheAfter(old(b.client), c)
      && issuer.deleted == old(issuer.deleted)
      && issuer.requests == old(issuer.requests)
           + (if c.Ok? then [ApiKeyRequest(role.owner, role.ownerEnv, role.resource, role.resourceEnv,
                                          KeyDisplayName, KeyDescription(req))] else [])
      && (key.Err? ==> r == Failure(key.error) && roleAfter == role)
      && (key.Ok? ==> r == Reply(IssuedResponse(key.value, roleName, role))
                      && roleAfter == role.(ccKeyId := key.value.keyId, usageCount := 1))
  {
    var key := CreateClusterKey(b, s, issuer, req, role);
    if key.Err? {
      return Failure(key.error), role;
    }
    var resp := SecretResponse(map["key_id" := Str(key.value.keyId), "secret" := Str(key.value.secret)],
                               Lease(0, 0, IssuedInternal(key.value.keyId, roleName)));
    if role.ttl > 0 {
      resp := resp.(lease := resp.lease.(ttl := role.ttl));
    }
    if role.maxTtl > 0 {
      resp := resp.(lease := resp.lease.(maxTtl := role.maxTtl));
    }
    roleAfter := role.(ccKeyId := key.value.keyId);
    roleAfter := roleAfter.(usageCount := 1);
    r := Reply(resp);
  }

  // ---------------------------------------------------------------------------------------------
  // Looking for a cached key among the secret types

  /** Whether some secret type declares a `key_id` field. */
  predicate HasKeyIdField(secrets: seq<SecretType>)
  {
    exists i :: 0 <= i < |secrets| && "key_id" in secrets[i].fields
  }

  /** The value the source reads as the secret: the `secret` field's schema, or nil when there is none. */
  function SecretFieldValue(t: SecretType): Value
  {
    if "secret" in t.fields then Schema(t.fields["secret"]) else Nil
  }

  /** The secret value of the first secret type that declares `key_id`, if any. */
  function KeyIdSecret(secrets: seq<SecretType>): (r: Option<Value>)
  {
    if secrets == [] then None
    else if "key_id" in secrets[0].fields then Some(SecretFieldValue(secrets[0]))
    else KeyIdSecret(secrets[1..])
  }

  /** A value is found exactly when some secret type declares `key_id`, and it is the first such type's. */
  lemma {:induction false} KeyIdSecretFirst(secrets: seq<SecretType>)
    ensures KeyIdSecret(secrets).None? <==> !HasKeyIdField(secrets)
    ensures KeyIdSecret(secrets).Some? ==>
      exists i :: 0 <= i < |secrets| && "key_id" in secrets[i].fields
               && (forall j :: 0 <= j < i ==> "key_id" !in secrets[j].fields)
               && KeyIdSecret(secrets).value == SecretFieldValue(secrets[i])
  {
    if secrets != [] {
      KeyIdSecretFirst(secrets[1..]);
      if "key_id" !in secrets[0].fields {
        if HasKeyIdField(secrets) {
          var i :| 0 <= i < |secrets| && "key_id" in secrets[i].fields;
          assert "key_id" in secrets[1..][i - 1].fields;
        }
        if KeyIdSecret(secrets).Some? {
          var i :| 0 <= i < |secrets[1..]| && "key_id" in secrets[1..][i].fields
                   && (forall j :: 0 <= j < i ==> "key_id" !in secrets[1..][j].fields)
                   && KeyIdSecret(secrets[1..]).value == SecretFieldValue(secrets[1..][i]);
          assert forall j :: 0 <= j < i + 1 ==> "key_id" !in secrets[j].fields by {
            forall j | 0 <= j < i + 1 ensures "key_id" !in secrets[j].fields {
              if j > 0 { assert secrets[j] == secrets[1..][j - 1]; }
            }
          }
        }
      }
    }
  }

  /** The declared secret type has fields id and secret only, so no cached key is ever found. */
  lemma DeclaredSecretsLackKeyId()
    ensures !HasKeyIdField([ClusterApiKeySecret])
    ensures KeyIdSecret([ClusterApiKeySecret]) == None
  {
    assert "key_id" !in ClusterApiKeySecret.fields;
  }

  /** The loop of `readOrCreateCredential` over the backend's secret types. */
  method FindKeyIdSecret(secrets: seq<SecretType>) returns (found: Option<Value>)
    ensures found == KeyIdSecret(secrets)
  {
    var i := 0;
    while i < |secrets|
      invariant 0 <= i <= |secrets|
      invariant KeyIdSecret(secrets) == KeyIdSecret(secrets[i..])
    {
      assert secrets[i..][1..] == secrets[i + 1..];
      if "key_id" in secrets[i].fields {
        return Some(SecretFieldValue(secrets[i]));
      }
      i := i + 1;
    }
    found := None;
  }

  /** The response served from a cached key (no ttl override). */
  function CachedResponse(roleName: string, role: Role, secret: Value): SecretResponse
  {
    SecretResponse(map["key_id" := Str(role.ccKeyId), "secret" := secret],
                   Lease(0, 0, IssuedInternal(role.ccKeyId, roleName)))
  }

  /**
   * `readOrCreateCredential`: a role not yet used mints as `createCredential` does; otherwise the copy's
   * usage count goes up by one and the cached key is looked up among the backend's secret types.
   */
  method ReadOrCreateCredential(b: Backend, s: Store, issuer: Issuer, req: CredentialRequest, roleName: string, role: Role)
    returns (r: Outcome<SecretResponse>, roleAfter: Role)
    modifies b`client, b`builds, issuer
    ensures role.usageCount != 0 ==>
      && b.client == old(b.client) && issuer.requests == old(issuer.requests) && issuer.deleted == old(issuer.deleted)
      && roleAfter == role.(usageCount := role.usageCount + 1)
      && r == match KeyIdSecret(b.secrets)
              case None => Failure("Unable to find key and secret")
              case Some(v) => Reply(CachedResponse(roleName, role, v))
    ensures role.usageCount == 0 ==>
      var c := ClientFor(old(b.client), s.faults, s.entries, b.defaultServers);
      var key := MintOutcome(c, issuer.mint(|old(issuer.requests)|));
      && b.client == CacheAfter(old(b.client), c)
      && issuer.deleted == old(issuer.deleted)
      && issuer.requests == old(issuer.requests)
           + (if c.Ok? then [ApiKeyRequest(role.owner, role.ownerEnv, role.resource, role.resourceEnv,
                                          KeyDisplayName, KeyDescription(req))] else [])
      && r == (if key.Ok? then Reply(IssuedResponse(key.value, roleName, role)) else Failure(key.error))
      && roleAfter == (if key.Ok? then role.(ccKeyId := key.value.keyId, usageCount := 1) else role)
  {
    if role.usageCount == 0 {
      r, roleAfter := CreateCredential(b, s, issuer, req, roleName, role);
      return;
    }
    roleAfter := role.(usageCount := role.usageCount + 1);
    var found := FindKeyIdSecret(b.secrets);
    if found.Some? {
      return Reply(CachedResponse(roleName, role, found.value)), roleAfter;
    }
    r := Failure("Unable to find key and secret");
  }

  /**
   * `pathCredentialsRead`: loads the role and dispatches on its reuse mode. It never writes to storage.
   */
  method PathCredentialsRead(b: Backend, s: Store, issuer: Issuer, req: CredentialRequest)
    returns (r: Outcome<SecretResponse>)
    modifies b`client, b`builds, issuer
    ensures unchanged(s)
    ensures issuer.deleted == old(issuer.deleted)
    ensures match LookupRole(s.faults, s.entries, req.name)
      case Err(e) =>
        r == Failure("error retrieving role: " + e)
        && b.client == old(b.client) && issuer.requests == old(issuer.requests)
      case Ok(None) =>
        r == Failure("error retrieving role: role is nil")
        && b.client == old(b.client) && issuer.requests == old(issuer.requests)
      case Ok(Some(role)) =>
        if !role.multiUseKey || role.usageCount == 0 then
          var c := ClientFor(old(b.client), s.faults, s.entries, b.defaultServers);
          var key := MintOutcome(c, issuer.mint(|old(issuer.requests)|));
          && b.client == CacheAfter(old(b.client), c)
          && issuer.requests == old(issuer.requests)
               + (if c.Ok? then [ApiKeyRequest(role.owner, role.ownerEnv, role.resource, role.resourceEnv,
                                              KeyDisplayName, KeyDescription(req))] else [])
          && r == (if key.Ok? then Reply(IssuedResponse(key.value, req.name, role)) else Failure(key.error))
        else
          && b.client == old(b.client) && issuer.requests == old(issuer.requests)
          && r == match KeyIdSecret(b.secrets)
                  case None => Failure("Unable to find key and secret")
                  case Some(v) => Reply(CachedResponse(req.name, role, v))
  {
    var found := GetRole(s, req.name);
    if found.Err? {
      return Failure("error retrieving role: " + found.error);
    }
    if found.value.None? {
      return Failure("error retrieving role: role is nil");
    }
    var role := found.value.value;
    var discarded;
    if !role.multiUseKey {
      r, discarded := CreateCredential(b, s, issuer, req, req.name, role);
    } else {
      r, discarded := ReadOrCreateCredential(b, s, issuer, req, req.name, role);
    }
  }

  /**
   * With the secret types the backend declares, a multi-use role already in use always fails with
   * "Unable to find key and secret", without calling the API.
   */
  lemma MultiUseInUseFails(secrets: seq<SecretType>, roleName: string, role: Role)
    requires secrets == [ClusterApiKeySecret]
    ensures (match KeyIdSecret(secrets)
             case None => Failure("Unable to find key and secret")
             case Some(v) => Reply(CachedResponse(roleName, role, v))) == Failure("Unable to find key and secret")
  {
    DeclaredSecretsLackKeyId();
  }

  /**
   * Two reads of a single-use role each send a create to the API once a client can be built: every
   * request mints, whatever the role's usage count.
   */
  method SingleUseMintsEveryTime(b: Backend, s: Store, issuer: Issuer, req: CredentialRequest)
    returns (first: Outcome<SecretResponse>, second: Outcome<SecretResponse>)
    modifies b`client, b`builds, issuer
    requires var found := LookupRole(s.faults, s.entries, req.name);
      found.Ok? && found.value.Some? && !found.value.value.multiUseKey
    requires ClientFor(b.client, s.faults, s.entries, b.defaultServers).Ok?
    ensures |issuer.requests| == |old(issuer.requests)| + 2
  {
    first := PathCredentialsRead(b, s, issuer, req);
    second := PathCredentialsRead(b, s, issuer, req);
  }
}
