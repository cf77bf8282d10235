# Confluent Cloud secrets engine: credential lifecycle model

This project models the core of the Confluent Cloud secrets engine for HashiCorp Vault in Dafny. The engine
is a Vault plugin. An operator stores a Confluent Cloud API key pair under `config` and defines roles under
`role/<name>`. A role names the owner and resource a Cluster API key is scoped to. A read of `creds/<name>`
asks Confluent Cloud to mint a new Cluster API key for that scope and returns it as a leased secret.
Renewing the lease re-applies the role's TTLs. Revoking it lowers the role's usage count and deletes the
remote key once the count reaches zero.

The modules follow the Go files of `pkg/plugin`:

- `Common`: the Option, Result and handler outcome types, and the dynamic field values.
- `Records`: the role, configuration and API key records, and how a stored entry decodes.
- `Storage`: Vault's storage as a `Store` object. It holds a map of entries and a fixed set of faults, one
  per storage operation.
- `Roles`: `path_roles.go`.
- `ConfigStore`: `getConfig`.
- `ConfigPaths`: the configuration handlers of `path_config.go`.
- `ApiClient`: `client.go`, with the Confluent Cloud API as an `Issuer` oracle object. The issuer logs every
  create and delete it is asked for and answers each one from a fixed function of the call's position.
- `BackendCache`: `backend.go`, the backend object and its cached client.
- `ApiKeySecret`: `ccloud_apikey.go`, the secret type with its revoke and renew callbacks.
- `Credentials`: `path_credentials.go`.

Handlers that change state are methods that modify the `Store`, `Backend` and `Issuer` objects. Each is tied
by its postcondition to a pure function of the old state: `RoleWriteSpec`, `ConfigWriteSpec`, `LookupRole`,
`ConfigLookup`, `ClientFor`/`CacheAfter`, `Revoked`, `MintOutcome` and `KeyIdSecret`. The lemmas are stated
about those functions.

A handler ends in one of four ways:

- `Reply`: a normal response.
- `ErrorResponse`: a `logical.ErrorResponse`.
- `Failure`: a returned Go error, with its exact text.
- `Panic`: the process panics.

The model follows the code as written, including these behaviours:

- `getConfig` never returns nil. With nothing stored it returns an all-empty configuration, so the
  "config not found during update operation" branch of `pathConfigWrite` is never taken. An update on an
  empty store stores a configuration built only from the supplied fields (`UpdateOnEmptyStore`).
- `newClient` accepts an empty URL and keeps the default servers. The test
  `TestClientConfigReturnsResponseWhenUrlIsNotDefined` expects the error "CCloud URL not defined", but
  the code has no such check. The model follows the code.
- The ttl check of `pathRolesWrite` (path_roles.go:204-206) answers with a `logical.ErrorResponse` and a
  nil error, the model's `ErrorResponse`. The test at path_roles_test.go:217-228 expects a returned error
  "ttl cannot be greater than max_ttl". The model follows the code.
- The test at path_roles_test.go:113-127 writes a role with `multi_use_key` set to true and expects the
  role's read data to carry `multi_use_key == true`. Neither `pathRolesWrite` (path_roles.go:151-225) nor
  `toResponseData` (path_roles.go:29-41) reads or returns that field. The model follows the code.
- `createCredential` and `readOrCreateCredential` change the role's key id and usage count on an in-memory
  copy only. Nothing stores it, so a credential read never writes to storage (`PathCredentialsRead`
  ensures `unchanged(s)`).
- `readOrCreateCredential` looks for a secret type that declares a `key_id` field. The only declared type
  has the fields `id` and `secret`. A multi-use role with a non-zero usage count therefore always fails
  with "Unable to find key and secret" (`MultiUseInUseFails`).
- `tokenRevoke` ignores the role lookup's error. When the role is missing, or its lookup fails, the
  handler dereferences nil and panics. The usage count is lowered without a floor, and the remote key is
  deleted only when the count becomes exactly 0.
- No handler ever stores a positive usage count. `pathRolesWrite` carries the count over from the stored
  role, or from the zero role, and credential reads never write. So the count of every role a lookup
  can return is at most 0 (`WriteKeepsNoPositiveUsage`, `LookupUsageNotPositive`). A revoke then never
  brings it to exactly 0: each revoke stores a more negative count, and the remote Cluster API key is
  never deleted (`RevokeBelowZero`, `RevokeNeverDeletes`).
- No handler ever stores a role marked multi-use. `pathRolesWrite` carries the flag over from the stored
  role, or from the zero role (`WriteKeepsSingleUse`). So on a store the handlers built, every credential
  read mints a new key, and the non-zero-count branch of `readOrCreateCredential` is never reached.

## Model

| member | source | states |
|---|---|---|
| Records.DecodeRole | pkg/plugin/path_roles.go:270-275 | A stored role decodes to itself. Decoding fails exactly when the stored document is malformed. |
| Records.DecodeConfig | pkg/plugin/path_config.go:168-174 | A stored configuration decodes to itself. Decoding fails exactly when the stored document is malformed. |
| Roles.RoleKey | pkg/plugin/path_roles.go:261 | A role's key is `role/` followed by its name. |
| Roles.RoleKeyOfSuffix | pkg/plugin/path_roles.go:125-132 | Every key under `role/` is the key of the name that follows the prefix. |
| Roles.RoleKeyInjective | pkg/plugin/path_roles.go:238-253 | Distinct role names are stored under distinct keys. |
| Roles.ToResponseData | pkg/plugin/path_roles.go:29-41 | The response data has exactly the eight user-visible role fields. |
| Roles.ResponseDataRoundTrip | pkg/plugin/path_roles.go:29-41 | Reading the response data back gives every configured field. The multi-use state is not part of it. |
| Roles.GetRole | pkg/plugin/path_roles.go:256-276 | An empty name is an error. Otherwise the result is the store's error, none for an absent key, the decode error, or the decoded role. |
| Roles.SetRole | pkg/plugin/path_roles.go:238-253 | On success the role is stored under its key and nothing else changes. On a store error the store is unchanged and the error is returned. |
| Roles.SetThenGet | pkg/plugin/path_roles.go:238-276 | Getting a role right after setting it gives back the same role. |
| Roles.SetLeavesOthers | pkg/plugin/path_roles.go:238-253 | Setting one role leaves the lookup of every other name unchanged. |
| Roles.PathRolesList | pkg/plugin/path_roles.go:125-132 | A name is listed iff a role is stored under it. On a list error the handler fails with the store's error. |
| Roles.PathRolesRead | pkg/plugin/path_roles.go:135-148 | The role's response data, no response when the role is absent, or the lookup error. |
| Roles.PathRolesDelete | pkg/plugin/path_roles.go:228-235 | Removes exactly `role/<name>`. A store error is wrapped as "error deleting apikey role: ". |
| Roles.DeleteRemovesOnlyName | pkg/plugin/path_roles.go:228-235 | After a delete, the listing is the old listing minus exactly that name. |
| Roles.AssignFields | pkg/plugin/path_roles.go:166-206 | The step-by-step field assignment and ttl check give `MergeRole`: the first required field a create lacks is the error, an out-of-bound ttl is the error response, and otherwise the merged role. |
| Roles.PathRolesWrite | pkg/plugin/path_roles.go:151-225 | The field-by-field write gives the outcome and store of `RoleWriteSpec`. |
| Roles.WriteWithoutName | pkg/plugin/path_roles.go:152-155 | A write without a name is the error response "missing role name" and stores nothing. |
| Roles.CreateMissingField | pkg/plugin/path_roles.go:166-190 | A create that lacks owner, owner_env, resource or resource_env fails with the first missing field's error, in that order, and stores nothing. |
| Roles.UpdateNeedsNoField | pkg/plugin/path_roles.go:166-206 | An update whose lookup succeeds and whose store accepts the write needs no field. It either succeeds or is refused by the ttl check. |
| Roles.WriteMerges | pkg/plugin/path_roles.go:162-222 | A successful write stores the old role, or the zero role, with exactly the supplied fields replaced. On create, an omitted ttl or max_ttl becomes 0. |
| Roles.TtlCheckAfterMerge | pkg/plugin/path_roles.go:204-206 | The ttl check looks at the merged role. A ttl above a non-zero max_ttl is the error response "ttl cannot be greater than max_ttl". |
| Roles.WriteKeepsNoPositiveUsage | pkg/plugin/path_roles.go:157-222 | If no stored role has a positive usage count, a write keeps that true: the count is carried over from the stored or zero role. |
| Roles.WriteKeepsSingleUse | pkg/plugin/path_roles.go:157-222 | If no stored role is multi-use, a write keeps that true, and the role it leaves under the written name is single-use. |
| Roles.LookupUsageNotPositive | pkg/plugin/path_roles.go:256-276 | On a store without positive usage counts, every role a lookup returns has a count of at most 0. |
| Roles.WriteKeepsTtlBound | pkg/plugin/path_roles.go:204-222 | If every stored role has ttl ≤ max_ttl (when max_ttl ≠ 0), a write keeps that true. |
| Roles.StoredIsListed | pkg/plugin/path_roles.go:125-132 | Every stored role's name is listed. |
| Roles.ListAfterStore | pkg/plugin/path_roles.go:125-132 | Storing under a role key adds exactly that name to the listing. |
| Roles.CreatesAreListed | pkg/plugin/path_roles.go:151-225 | After valid creates under distinct fresh names, the listing is the old names plus the created names. |
| Roles.CreatedCountListed | pkg/plugin/path_roles.go:125-132 | On a store without roles, N valid creates under distinct names list exactly N names. |
| ConfigStore.GetConfig | pkg/plugin/path_config.go:162-178 | The stored configuration, the all-empty configuration when none is stored, or the error. A decode error is wrapped as "error reading root configuration: ". |
| ConfigPaths.PathConfigWrite | pkg/plugin/path_config.go:104-149 | The handler gives the outcome and store of `ConfigWriteSpec`. The cached client is reset exactly when the write was stored. |
| ConfigPaths.UpdateOnEmptyStore | pkg/plugin/path_config.go:105-117 | An update with nothing stored succeeds and stores only the supplied fields. |
| ConfigPaths.CreateRequiresKeyIdThenSecret | pkg/plugin/path_config.go:119-128 | A create without the key id, or then without the secret, fails with that field's error. A create missing either field leaves the store unchanged and does not reset the client. |
| ConfigPaths.WriteResetsIffStored | pkg/plugin/path_config.go:136-146 | The client is reset iff the write succeeds. A failed write leaves the store unchanged. A successful one changes only the `config` entry. |
| ConfigPaths.WriteThenRead | pkg/plugin/path_config.go:104-178 | After a successful write, the configuration reads back as the old one with the supplied fields replaced. |
| ConfigPaths.PathConfigRead | pkg/plugin/path_config.go:88-101 | Returns the three stored fields, all empty when nothing is stored, or the lookup error. |
| ConfigPaths.PathConfigDelete | pkg/plugin/path_config.go:152-160 | Removes `config`. The client is reset only when the delete succeeded. The store's error is returned as is. |
| ConfigPaths.DeleteThenRead | pkg/plugin/path_config.go:152-178 | After a delete, the configuration reads as the all-empty one. |
| ConfigPaths.PathConfigExistenceCheck | pkg/plugin/path_config.go:78-85 | True iff an entry is stored at the path. A store error is wrapped as "existence check failed: ". |
| ApiClient.NewClient | pkg/plugin/client.go:19-60 | A nil configuration, a missing key id and then a missing secret are errors. Otherwise the client has basic auth with the configured key and secret. A non-empty URL is prepended to the default servers. |
| ApiClient.ApiKeyRequestFields | pkg/plugin/client.go:78-101 | The owner is always set. An environment, resource, display name or description is set iff it is non-empty. The resource environment is set only with a resource. The arguments read back from the request. |
| ApiClient.BuildApiKeySpec | pkg/plugin/client.go:78-101 | The step-by-step assembly gives the request `ApiKeyRequest` describes. |
| ApiClient.Issuer.Create | pkg/plugin/client.go:103-104 | The API logs the request and answers from its answer function. |
| ApiClient.Issuer.Delete | pkg/plugin/client.go:120-121 | The API logs the deleted key id and answers from its answer function. |
| ApiClient.CreateApiKey | pkg/plugin/client.go:70-114 | Sends the assembled request. On success it returns the API's id and secret. On failure it returns empty strings and "error creating CCloud Cluster API Key: …", with the response body for an OpenAPI error. |
| ApiClient.DeleteApiKey | pkg/plugin/client.go:117-124 | Asks the API to delete the key and returns its error unchanged. |
| BackendCache.Backend.constructor | pkg/plugin/backend.go:32-58 | A new backend has no cached client and declares the one Cluster API key secret type. |
| BackendCache.Backend.Reset | pkg/plugin/backend.go:62-66 | Drops the cached client. |
| BackendCache.Backend.Invalidate | pkg/plugin/backend.go:70-74 | Drops the cached client exactly when the changed key is `config`. |
| BackendCache.Backend.GetClientCached | pkg/plugin/backend.go:78-83 | Returns the cached client, if any. |
| BackendCache.Backend.GetClient | pkg/plugin/backend.go:85-114 | Returns the cached client if there is one. Otherwise it builds one from the stored configuration, caches it only on success, and counts the build. |
| BackendCache.GetClientTwice | pkg/plugin/backend.go:85-114 | Two calls build at most one client. After a success, the second call returns the same client. |
| BackendCache.CachedClientHasCredentials | pkg/plugin/backend.go:100-111 | A client built when the cache is empty authenticates with the stored key id and secret, and both are non-empty. |
| ApiKeySecret.WithRoleTtls | pkg/plugin/ccloud_apikey.go:96-104 | The lease takes the role's ttl and max ttl where they are positive. Everything else stays the same. |
| ApiKeySecret.WithRoleTtlsIdempotent | pkg/plugin/ccloud_apikey.go:96-104 | Applying a role's ttls twice is the same as applying them once. |
| ApiKeySecret.CreateToken | pkg/plugin/ccloud_apikey.go:110-126 | The API's id and secret with a usage count of 0, or "error creating CCloud Cluster API Key: " around the client's error. |
| ApiKeySecret.DeleteToken | pkg/plugin/ccloud_apikey.go:129-137 | Deletes the key. The API's error is wrapped as "error deleting CCloud Cluster API Key: ". |
| ApiKeySecret.KeyIdOf | pkg/plugin/ccloud_apikey.go:49-55 | The lease's key id, "" when absent, or an error when it is not a string. |
| ApiKeySecret.IssuedInternalReadBack | pkg/plugin/ccloud_apikey.go:49-57 | Revocation reads back the key id and role name that issuance put in the internal data. |
| ApiKeySecret.TokenRevoke | pkg/plugin/ccloud_apikey.go:43-76 | Failures come in order: the client error, an invalid key id, a panic on a non-string role, a panic on a missing role. Otherwise `Revoked(role)` is stored unless the store fails. The remote key is deleted iff the count becomes 0, and a delete error is wrapped as "error revoking user token: ". |
| ApiKeySecret.RevokedCount | pkg/plugin/ccloud_apikey.go:59-67 | One revocation lowers the count by one. The key id and secret are cleared iff the count was 1. Nothing else changes, and there is no floor at 0. |
| ApiKeySecret.RevokedTimesCount | pkg/plugin/ccloud_apikey.go:59-67 | After k revocations the count is lower by k. The key is cleared iff 1 ≤ the start count ≤ k. |
| ApiKeySecret.OnlyLastRevokeDeletes | pkg/plugin/ccloud_apikey.go:63-71 | Of n revocations of a role used n times, only the last reaches 0 and deletes the remote key. |
| ApiKeySecret.RevokeBelowZero | pkg/plugin/ccloud_apikey.go:59-67 | Revoking a role whose count is at most 0 gives a negative count and keeps the cached key, so the remote key is not deleted. |
| ApiKeySecret.RevokeNeverDeletes | pkg/plugin/ccloud_apikey.go:57-71 | On a store without positive usage counts, a revoke of any role found never reaches 0, and the store it writes again has no positive count. |
| ApiKeySecret.TokenRenew | pkg/plugin/ccloud_apikey.go:79-107 | The errors are a missing role in the internal data, then a panic on a non-string role, then the role lookup errors. Otherwise it returns the lease with the role's positive ttls. |
| Credentials.MintOutcomeCases | pkg/plugin/path_credentials.go:147-171 | A key is issued iff there is a client and the API returns a non-empty id and secret. A client error is returned unwrapped. An API error is wrapped, and an empty id or secret is refused. |
| Credentials.CreateClusterKey | pkg/plugin/path_credentials.go:147-171 | Asks for exactly one key scoped to the role, with the fixed display name and the request's description, when a client is available. The result is `MintOutcome`. |
| Credentials.IssuedResponseFields | pkg/plugin/path_credentials.go:73-92 | The issued data hold the key id and secret. The internal data hold the key id and role name. The lease has the role's positive ttls. |
| Credentials.RenewIssuedLease | pkg/plugin/path_credentials.go:86-92 | Renewing an issued lease under an unchanged role changes nothing. Under a changed role it takes the new role's positive ttls. |
| Credentials.CreateCredential | pkg/plugin/path_credentials.go:63-101 | Returns the issued response or the mint error. The in-memory role gets the key id and usage count 1 only on success. |
| Credentials.KeyIdSecretFirst | pkg/plugin/path_credentials.go:125-142 | A value is found iff some secret type declares `key_id`. It is the first such type's `secret` field. |
| Credentials.FindKeyIdSecret | pkg/plugin/path_credentials.go:125-143 | The loop over the backend's secret types computes `KeyIdSecret`. |
| Credentials.DeclaredSecretsLackKeyId | pkg/plugin/ccloud_apikey.go:24-40 | The declared secret type has no `key_id` field, so the lookup finds nothing. |
| Credentials.ReadOrCreateCredential | pkg/plugin/path_credentials.go:110-144 | With usage count 0 it mints as `createCredential` does: one request scoped to the role, the issued response or the mint error, and the in-memory role with the key id and count 1 only on success. Otherwise it makes no API call, increments the in-memory count, and returns the cached lookup's response or "Unable to find key and secret". |
| Credentials.PathCredentialsRead | pkg/plugin/path_credentials.go:37-58 | Never writes storage. The role lookup's errors are wrapped as "error retrieving role: ". A single-use role, or a multi-use one not yet used, sends exactly one create request scoped to the role's owner and resource, with the fixed display name and the request's description, when a client exists. Otherwise the cached lookup runs. |
| Credentials.MultiUseInUseFails | pkg/plugin/path_credentials.go:110-144 | With the declared secret types, a multi-use role in use always fails with "Unable to find key and secret". |
| Credentials.SingleUseMintsEveryTime | pkg/plugin/path_credentials.go:53-54 | Two reads of a single-use role send two create requests to the API. |

## Left out

- Network transport: the HTTP client and `Execute` calls of the API library are replaced by the `Issuer`
  oracle, whose answers are fixed functions of the call position. Request authentication by the API is
  not modelled. The client only carries its credentials.
- Locking: the backend's read/write lock, and the re-check of the cache under the write lock in
  `getClient`, are not modelled. The model is sequential, so the re-check always sees an empty cache.
- JSON encoding: `logical.StorageEntryJSON` failures and the nil-entry guard in `setRole` cannot happen
  for these records and are not modelled. Decode failures are an opaque `Malformed` entry.
- Durations: TTLs are whole seconds as unbounded integers. The nanosecond `time.Duration`, its overflow,
  and `Seconds()` as a float are not modelled.
- Storage listing: the listing is the set of suffixes under the prefix. Vault's folding of nested keys
  into `a/` entries is not modelled. Storage faults are fixed per operation rather than per call.
- `ApiKeySecret.TokenRevoke`: because a store's put fault is fixed, both `setRole` calls of `tokenRevoke`
  succeed or both fail. In Go the first write can succeed and the second fail. That leaves a role stored
  with a usage count of 0 and its cached key id and secret not cleared, while the remote key is still
  deleted. The model does not capture that outcome.
- Logging (`log.Println`, `b.Logger()`), help texts, field schemas, the path regular expressions, and
  the host's conversion of a create into an update are left out, as is `Factory`, which only sets up
  the framework.
- Host defaults: `d.Get` defaults for `ttl`, `max_ttl` and `url` are taken as their zero values, which
  is what the field schemas declare.
- Lease bookkeeping: the host's `secret_type` internal field and the lease's default durations are left
  to the host. A new lease's ttl and max ttl start at 0.
- Panics: a Go panic is a `Panic` outcome that ends the handler. What the host does after a panic is not
  modelled.
