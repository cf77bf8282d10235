/** The persisted records of the plugin and their decoding from a stored entry. */
module Records {
  import opened Common

  /**
   * A role (`apikeyRoleEntry`). The snapshot's struct declares the first eight fields only, yet the
   * credential and revocation code reads and writes the last four; they are added here with Go's zero
   * values as defaults. Durations are whole seconds.
   */
  datatype Role = Role(
    owner: string,
    ownerEnv: string,
    resource: string,
    resourceEnv: string,
    ttl: int,
    maxTtl: int,
    displayNameTmpl: string,
    descriptionTmpl: string,
    multiUseKey: bool,
    usageCount: int,
    ccKeyId: string,
    ccKeySecret: string)

  /** `&apikeyRoleEntry{}`: every field at its zero value. */
  const ZeroRole := Role("", "", "", "", 0, 0, "", "", false, 0, "", "")

  /** The singleton configuration (`ccloudConfig`). */
  datatype Config = Config(apiKeyId: string, apiKeySecret: string, url: string)

  /** `new(ccloudConfig)`. */
  const ZeroConfig := Config("", "", "")

  /** A minted Cluster API key (`ccloudClusterApiKey`). */
  datatype ApiKey = ApiKey(keyId: string, secret: string, usageCount: int)

  /**
   * A stored entry: the JSON document of a role or of a configuration, or bytes that do not decode
   * (carrying the decoder's error text).
   */
  datatype Entry = RoleEntry(role: Role) | ConfigEntry(config: Config) | Malformed(decodeError: string)

  /**
   * Decodes an entry into a role. A configuration document shares no JSON key with a role, so it
   * decodes to the zero role, as Go's decoder ignores unknown keys.
   */
  function DecodeRole(e: Entry): (r: Result<Role>)
    ensures e.RoleEntry? ==> r == Ok(e.role)
    ensures r.Err? <==> e.Malformed?
  {
    match e
    case RoleEntry(role) => Ok(role)
    case ConfigEntry(_) => Ok(ZeroRole)
    case Malformed(msg) => Err(msg)
  }

  /** Decodes an entry into a configuration; a role document decodes to the zero configuration. */
  function DecodeConfig(e: Entry): (r: Result<Config>)
    ensures e.ConfigEntry? ==> r == Ok(e.config)
    ensures r.Err? <==> e.Malformed?
  {
    match e
    case ConfigEntry(config) => Ok(config)
    case RoleEntry(_) => Ok(ZeroConfig)
    case Malformed(msg) => Err(msg)
  }
}
