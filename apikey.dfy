/**
 * The Cluster API key secret (pkg/plugin/ccloud_apikey.go): minting and deleting keys through the client,
 * and the revoke and renew callbacks of an issued lease.
 */
module ApiKeySecret {
  import opened Common
  import opened Records
  import opened Storage
  import opened Roles
  import opened ApiClient
  import opened BackendCache

  /** A lease as the host keeps it: ttl and max ttl in seconds (0 = host default) and the internal data. */
  datatype Lease = Lease(ttl: int, maxTtl: int, internal: map<string, Value>)

  /** A response carrying a secret: the user-visible data and the lease. */
  datatype SecretResponse = SecretResponse(data: map<string, Value>, lease: Lease)

  /** The lease with its ttl and max ttl replaced by the role's, each only where the role's is positive. */
  function WithRoleTtls(lease: Lease, role: Role): (l: Lease)
    ensures l.internal == lease.internal
    ensures l.ttl == if role.ttl > 0 then role.ttl else lease.ttl
    ensures l.maxTtl == if role.maxTtl > 0 then role.maxTtl else lease.maxTtl
  {
    var l := if role.ttl > 0 then lease.(ttl := role.ttl) else lease;
    if role.maxTtl > 0 then l.(maxTtl := role.maxTtl) else l
  }

  /** Applying a role's ttls twice is applying them once. */
  lemma WithRoleTtlsIdempotent(lease: Lease, role: Role)
    ensures WithRoleTtls(WithRoleTtls(lease, role), role) == WithRoleTtls(lease, role)
  {
  }

  // ---------------------------------------------------------------------------------------------
  // createToken / deleteToken

  /** The error text `createToken` returns for an API failure. */
  function CreateTokenError(f: ApiFailure): string
  {
    "error creating CCloud Cluster API Key: " + CreateApiKeyError(f)
  }

  /** `createToken`: the API's id and secret unchanged with a usage count of 0, or the wrapped error. */
  method CreateToken(c: Client, issuer: Issuer, owner: string, ownerEnv: string, resource: string,
                     resourceEnv: string, displayName: string, description: string) returns (r: Result<ApiKey>)
    modifies issuer
    ensures issuer.requests == old(issuer.requests)
                               + [ApiKeyRequest(owner, ownerEnv, resource, resourceEnv, displayName, description)]
    ensures issuer.deleted == old(issuer.deleted)
    ensures r == match issuer.mint(|old(issuer.requests)|)
                 case Minted(id, secret) => Ok(ApiKey(id, secret, 0))
                 case MintFailed(f) => Err(CreateTokenError(f))
  {
    var keyId, secret, err := CreateApiKey(c, issuer, owner, ownerEnv, resource, resourceEnv, displayName, description);
    if err.Some? {
      return Err("error creating CCloud Cluster API Key: " + err.value);
    }
    r := Ok(ApiKey(keyId, secret, 0));
  }

  /** `deleteToken`: deletes the key, wrapping the API's error. */
  method DeleteToken(c: Client, issuer: Issuer, keyId: string) returns (err: Option<string>)
    modifies issuer
    ensures issuer.deleted == old(issuer.deleted) + [keyId] && issuer.requests == old(issuer.requests)
    ensures err == match issuer.remove(|old(issuer.deleted)|)
                   case None => None
                   case Some(e) => Some("error deleting CCloud Cluster API Key: " + e)
  {
    var e := DeleteApiKey(c, issuer, keyId);
    if e.Some? {
      return Some("error deleting CCloud Cluster API Key: " + e.value);
    }
    err := None;
  }

  // ---------------------------------------------------------------------------------------------
  // Internal data of a lease

  /** The key id of a lease: "" when absent, an error when it is not a string. */
  function KeyIdOf(internal: map<string, Value>): (r: Result<string>)
    ensures "key_id" !in internal ==> r == Ok("")
    ensures "key_id" in internal ==> (r.Ok? <==> internal["key_id"].Str?)
    ensures r.Ok? && "key_id" in internal ==> r.value == internal["key_id"].s
  {
    if "key_id" !in internal then Ok("")
    else if internal["key_id"].Str? then Ok(internal["key_id"].s)
    else Err("invalid value for token in secret internal data")
  }

  /** The internal data an issued lease carries. */
  function IssuedInternal(keyId: string, roleName: string): map<string, Value>
  {
    map["key_id" := Str(keyId), "role" := Str(roleName)]
  }

  /** Revocation reads back the key id and the role name an issued lease carries. */
  lemma IssuedInternalReadBack(keyId: string, roleName: string)
    ensures KeyIdOf(IssuedInternal(keyId, roleName)) == Ok(keyId)
    ensures "role" in IssuedInternal(keyId, roleName) && IssuedInternal(keyId, roleName)["role"] == Str(roleName)
  {
  }

  // ---------------------------------------------------------------------------------------------
  // tokenRevoke

  /** The role after one revocation: one use fewer, and the cached key cleared when exactly 0 remain. */
  function Revoked(role: Role): Role
  {
    var dec := role.(usageCount := role.usageCount - 1);
    if dec.usageCount == 0 then dec.(ccKeyId := "", ccKeySecret := "") else dec
  }

  const PanicRoleNotString := "type assertion: role internal data is not a string"
  const PanicNilRole := "nil pointer dereference: role not found"

  /**
   * `tokenRevoke`. After the client is obtained and the key id read, the role is loaded (errors ignored;
   * a missing role is dereferenced, so the handler panics), its usage count lowered by one and stored;
   * when the count is then exactly 0 the cached key is cleared and stored, and then the remote key is
   * deleted. Store errors of both writes are ignored.
   */
  method TokenRevoke(b: Backend, s: Store, issuer: Issuer, lease: Lease) returns (r: Outcome<()>)
    modifies b`client, b`builds, s, issuer
    ensures var c := ClientFor(old(b.client), s.faults, old(s.entries), b.defaultServers);
      && b.client == CacheAfter(old(b.client), c)
      && issuer.requests == old(issuer.requests)
      && (c.Err? ==> r == Failure("error getting client: " + c.error)
                     && s.entries == old(s.entries) && issuer.deleted == old(issuer.deleted))
      && (c.Ok? && KeyIdOf(lease.internal).Err? ==>
            r == Failure("invalid value for token in secret internal data")
            && s.entries == old(s.entries) && issuer.deleted == old(issuer.deleted))
      && (c.Ok? && KeyIdOf(lease.internal).Ok? && !("role" in lease.internal && lease.internal["role"].Str?) ==>
            r == Panic(PanicRoleNotString) && s.entries == old(s.entries) && issuer.deleted == old(issuer.deleted))
    ensures ClientFor(old(b.client), s.faults, old(s.entries), b.defaultServers).Ok?
            && KeyIdOf(lease.internal).Ok? && "role" in lease.internal && lease.internal["role"].Str? ==>
      var name := lease.internal["role"].s;
      var keyId := KeyIdOf(lease.internal).value;
      match LookupRole(s.faults, old(s.entries), name)
      case Ok(Some(role)) =>
        && s.entries == (if s.faults.put.None? then old(s.entries)[RoleKey(name) := RoleEntry(Revoked(role))]
                         else old(s.entries))
        && (Revoked(role).usageCount == 0 ==>
              && issuer.deleted == old(issuer.deleted) + [keyId]
              && r == match issuer.remove(|old(issuer.deleted)|)
                      case None => Reply(())
                      case Some(e) => Failure("error revoking user token: " + e))
        && (Revoked(role).usageCount != 0 ==> issuer.deleted == old(issuer.deleted) && r == Reply(()))
      case _ => r == Panic(PanicNilRole) && s.entries == old(s.entries) && issuer.deleted == old(issuer.deleted)
  {
    var client := b.GetClient(s);
    if client.Err? {
      return Failure("error getting client: " + client.error);
    }

    var keyId := "";
    if "key_id" in lease.internal {
      if !lease.internal["key_id"].Str? {
        return Failure("invalid value for token in secret internal data");
      }
      keyId := lease.internal["key_id"].s;
    }

    if !("role" in lease.internal && lease.internal["role"].Str?) {
      return Panic(PanicRoleNotString);
    }
    var roleName := lease.internal["role"].s;
    var found := GetRole(s, roleName);
    if !(found.Ok? && found.value.Some?) {
      return Panic(PanicNilRole);
    }
    var role := found.value.value;
    ghost var start := role;

    role := role.(usageCount := role.usageCount - 1);
    var _ := SetRole(s, roleName, role);

    if role.usageCount == 0 {
      role := role.(ccKeyId := "", ccKeySecret := "");
      var _ := SetRole(s, roleName, role);
      var err := DeleteApiKey(client.value, issuer, keyId);
      if err.Some? {
        return Failure("error revoking user token: " + err.value);
      }
    }
    assert role == Revoked(start);
    r := Reply(());
  }

  /**
   * One revocation lowers the usage count by exactly one, with no floor at 0; the cached key is cleared
   * exactly when the count reaches 0; nothing else about the role changes.
   */
  lemma RevokedCount(role: Role)
    ensures Revoked(role).usageCount == role.usageCount - 1
    ensures Revoked(role).ccKeyId == (if role.usageCount == 1 then "" else role.ccKeyId)
    ensures Revoked(role).ccKeySecret == (if role.usageCount == 1 then "" else role.ccKeySecret)
    ensures Revoked(role).(usageCount := role.usageCount, ccKeyId := role.ccKeyId, ccKeySecret := role.ccKeySecret) == role
    ensures role.usageCount == 0 ==> Revoked(role).usageCount == -1
  {
  }

  /**
   * A revocation of a role whose usage count is at most 0 never reaches 0: it stores a lower count and
   * keeps the cached key, so the remote key is not deleted.
   */
  lemma RevokeBelowZero(role: Role)
    requires role.usageCount <= 0
    ensures Revoked(role).usageCount < 0 && Revoked(role).usageCount != 0
    ensures Revoked(role).ccKeyId == role.ccKeyId && Revoked(role).ccKeySecret == role.ccKeySecret
  {
  }

  /**
   * Since no handler stores a positive usage count, a store built by role writes and revocations keeps
   * every count at most 0, and no revocation against it deletes the remote key.
   */
  lemma RevokeNeverDeletes(faults: Faults, entries: map<string, Entry>, name: string)
    requires NoPositiveUsage(entries)
    ensures var found := LookupRole(faults, entries, name);
      found.Ok? && found.value.Some? ==>
        && Revoked(found.value.value).usageCount != 0
        && NoPositiveUsage(entries[RoleKey(name) := RoleEntry(Revoked(found.value.value))])
  {
    LookupUsageNotPositive(faults, entries, name);
  }

  /** The role after k revocations. */
  function RevokedTimes(role: Role, k: nat): Role
  {
    if k == 0 then role else Revoked(RevokedTimes(role, k - 1))
  }

  /**
   * After k revocations the count is k lower, and the cached key has been cleared exactly when one of
   * them brought the count to 0 (it was between 1 and k); the configured fields never change.
   */
  lemma {:induction false} RevokedTimesCount(role: Role, k: nat)
    ensures RevokedTimes(role, k).usageCount == role.usageCount - k
    ensures RevokedTimes(role, k).ccKeyId == (if 1 <= role.usageCount <= k then "" else role.ccKeyId)
    ensures RevokedTimes(role, k).ccKeySecret == (if 1 <= role.usageCount <= k then "" else role.ccKeySecret)
    ensures RevokedTimes(role, k).(usageCount := role.usageCount, ccKeyId := role.ccKeyId,
                                   ccKeySecret := role.ccKeySecret) == role
  {
    if k > 0 {
      RevokedTimesCount(role, k - 1);
      RevokedCount(RevokedTimes(role, k - 1));
    }
  }

  /**
   * Of n revocations starting from a count of n, exactly the last one reaches 0 and so is the one that
   * deletes the remote key.
   */
  lemma OnlyLastRevokeDeletes(role: Role, n: nat)
    requires role.usageCount == n
    ensures forall i :: 0 <= i < n ==> Revoked(RevokedTimes(role, i)).usageCount != 0 || i == n - 1
    ensures n > 0 ==> Revoked(RevokedTimes(role, n - 1)).usageCount == 0
  {
    forall i | 0 <= i < n ensures Revoked(RevokedTimes(role, i)).usageCount == n - i - 1 {
      RevokedTimesCount(role, i + 1);
    }
    if n > 0 {
      RevokedTimesCount(role, n);
    }
  }

  // ---------------------------------------------------------------------------------------------
  // tokenRenew

  /**
   * `tokenRenew`: the same lease, with ttl and max ttl replaced by the role's current values where those
   * are positive.
   */
  method TokenRenew(s: Store, lease: Lease) returns (r: Outcome<Lease>)
    ensures "role" !in lease.internal ==> r == Failure("secret is missing role internal data")
    ensures "role" in lease.internal && !lease.internal["role"].Str? ==> r == Panic(PanicRoleNotString)
    ensures "role" in lease.internal && lease.internal["role"].Str? ==>
      match LookupRole(s.faults, s.entries, lease.internal["role"].s)
      case Err(e) => r == Failure("error retrieving role: " + e)
      case Ok(None) => r == Failure("error retrieving role: role is nil")
      case Ok(Some(role)) => r == Reply(WithRoleTtls(lease, role))
  {
    if "role" !in lease.internal {
      return Failure("secret is missing role internal data");
    }
    if !lease.internal["role"].Str? {
      return Panic(PanicRoleNotString);
    }
    var found := GetRole(s, lease.internal["role"].s);
    if found.Err? {
      return Failure("error retrieving role: " + found.error);
    }
    if found.value.None? {
      return Failure("error retrieving role: role is nil");
    }
    var role := found.value.value;
    var renewed := lease;
    if role.ttl > 0 {
      renewed := renewed.(ttl := role.ttl);
    }
    if role.maxTtl > 0 {
      renewed := renewed.(maxTtl := role.maxTtl);
    }
    r := Reply(renewed);
  }
}
