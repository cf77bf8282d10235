/**
 * The configuration path handlers (pkg/plugin/path_config.go): read, create/update, delete and the
 * existence check of the singleton stored under `config`. Every successful write or delete drops the
 * cached client.
 */
module ConfigPaths {
  import opened Common
  import opened Records
  import opened Storage
  import opened ConfigStore
  import opened BackendCache

  /** A configuration write: the operation and the fields the request supplies (None = not supplied). */
  datatype ConfigWriteRequest = ConfigWriteRequest(
    op: Operation,
    apiKeyId: Option<string>,
    apiKeySecret: Option<string>,
    url: Option<string>)

  /** The configuration after merging the request onto base; an omitted url becomes "" on create. */
  function MergedConfig(base: Config, req: ConfigWriteRequest): Config
  {
    Config(req.apiKeyId.GetOr(base.apiKeyId),
           req.apiKeySecret.GetOr(base.apiKeySecret),
           match req.url
           case Some(u) => u
           case None => if req.op == Create then "" else base.url)
  }

  /** The result of a configuration write: its outcome, the store afterwards and whether the cache is reset. */
  datatype ConfigWriteResult = ConfigWriteResult(outcome: Outcome<()>, entries: map<string, Entry>, reset: bool)

  /** The outcome of `pathConfigWrite`. Because `getConfig` never yields nil, its not-found branch is never taken. */
  function ConfigWriteSpec(faults: Faults, entries: map<string, Entry>, req: ConfigWriteRequest): ConfigWriteResult
  {
    match ConfigLookup(faults, entries)
    case Err(e) => ConfigWriteResult(Failure(e), entries, false)
    case Ok(config) =>
      if req.op == Create && req.apiKeyId.None? then
        ConfigWriteResult(Failure("missing ccloud_api_key_id in configuration"), entries, false)
      else if req.op == Create && req.apiKeySecret.None? then
        ConfigWriteResult(Failure("missing ccloud_api_key_secret in configuration"), entries, false)
      else if faults.put.Some? then
        ConfigWriteResult(Failure(faults.put.value), entries, false)
      else
        ConfigWriteResult(Reply(()), entries[ConfigKey := ConfigEntry(MergedConfig(config, req))], true)
  }

  /** `pathConfigWrite`: loads the configuration, assigns the supplied fields one by one, stores it, then resets the client. */
  method PathConfigWrite(b: Backend, s: Store, req: ConfigWriteRequest) returns (r: Outcome<()>)
    modifies b`client, s
    ensures var spec := ConfigWriteSpec(s.faults, old(s.entries), req);
      && r == spec.outcome && s.entries == spec.entries
      && b.client == (if spec.reset then None else old(b.client))
  {
    var loaded := GetConfig(s);
    if loaded.Err? {
      return Failure(loaded.error);
    }
    var config := loaded.value;
    ghost var base := config;
    var create := req.op == Create;

    if req.apiKeyId.Some? {
      config := config.(apiKeyId := req.apiKeyId.value);
    } else if create {
      return Failure("missing ccloud_api_key_id in configuration");
    }
    if req.apiKeySecret.Some? {
      config := config.(apiKeySecret := req.apiKeySecret.value);
    } else if create {
      return Failure("missing ccloud_api_key_secret in configuration");
    }
    if req.url.Some? {
      config := config.(url := req.url.value);
    } else if create {
      config := config.(url := "");
    }
    assert config == MergedConfig(base, req);

    var err := s.Put(ConfigKey, ConfigEntry(config));
    if err.Some? {
      return Failure(err.value);
    }
    b.Reset();
    r := Reply(());
  }

  /** The data of a configuration read. */
  function ConfigData(c: Config): map<string, Value>
  {
    map["ccloud_api_key_id" := Str(c.apiKeyId), "ccloud_api_key_secret" := Str(c.apiKeySecret),
        "url" := Str(c.url)]
  }

  /** `pathConfigRead`: the three stored fields (all empty when nothing is stored), or the read error. */
  method PathConfigRead(s: Store) returns (r: Outcome<map<string, Value>>)
    ensures r.Reply? <==> ConfigLookup(s.faults, s.entries).Ok?
    ensures r.Failure? ==> r.message == ConfigLookup(s.faults, s.entries).error
    ensures r.Reply? ==> r.value.Keys == {"ccloud_api_key_id", "ccloud_api_key_secret", "url"}
    ensures r.Reply? ==> var c := ConfigLookup(s.faults, s.entries).value;
      r.value["ccloud_api_key_id"] == Str(c.apiKeyId) && r.value["ccloud_api_key_secret"] == Str(c.apiKeySecret)
      && r.value["url"] == Str(c.url)
  {
    var config := GetConfig(s);
    if config.Err? {
      return Failure(config.error);
    }
    r := Reply(ConfigData(config.value));
  }

  /** `pathConfigDelete`: removes the configuration; the client is reset only when the delete succeeded. */
  method PathConfigDelete(b: Backend, s: Store) returns (r: Outcome<()>)
    modifies b`client, s
    ensures s.faults.delete.Some? ==>
      r == Failure(s.faults.delete.value) && s.entries == old(s.entries) && b.client == old(b.client)
    ensures s.faults.delete.None? ==>
      r == Reply(()) && s.entries == old(s.entries) - {ConfigKey} && b.client == None
  {
    var err := s.Delete(ConfigKey);
    if err.None? {
      b.Reset();
      return Reply(());
    }
    r := Failure(err.value);
  }

  /** `pathConfigExistenceCheck`: whether an entry is stored at the request path. */
  method PathConfigExistenceCheck(s: Store, path: string) returns (r: Outcome<bool>)
    ensures s.faults.get.Some? ==> r == Failure("existence check failed: " + s.faults.get.value)
    ensures s.faults.get.None? ==> r == Reply(path in s.entries)
  {
    var out := s.Get(path);
    if out.Err? {
      return Failure("existence check failed: " + out.error);
    }
    r := Reply(out.value.Some?);
  }

  // ---------------------------------------------------------------------------------------------
  // Properties of a write

  /**
   * An update on a store without a configuration succeeds like a create that skips the required-field
   * checks: it stores the supplied fields over the all-empty configuration.
   */
  lemma UpdateOnEmptyStore(faults: Faults, entries: map<string, Entry>, req: ConfigWriteRequest)
    requires req.op == Update && faults.get.None? && faults.put.None? && ConfigKey !in entries
    ensures ConfigWriteSpec(faults, entries, req) == ConfigWriteResult(Reply(()),
      entries[ConfigKey := ConfigEntry(Config(req.apiKeyId.GetOr(""), req.apiKeySecret.GetOr(""), req.url.GetOr("")))],
      true)
  {
  }

  /**
   * A create missing the key id fails for it, whether or not the secret is there; one missing only the
   * secret fails for the secret. A failed write leaves the store and the cached client as they were.
   */
  lemma CreateRequiresKeyIdThenSecret(faults: Faults, entries: map<string, Entry>, req: ConfigWriteRequest)
    requires req.op == Create && ConfigLookup(faults, entries).Ok?
    ensures var w := ConfigWriteSpec(faults, entries, req);
      && (req.apiKeyId.None? ==> w.outcome == Failure("missing ccloud_api_key_id in configuration"))
      && (req.apiKeyId.Some? && req.apiKeySecret.None? ==>
            w.outcome == Failure("missing ccloud_api_key_secret in configuration"))
      && (req.apiKeyId.None? || req.apiKeySecret.None? ==> w.entries == entries && !w.reset)
  {
  }

  /** Exactly the successful writes change the store and reset the client. */
  lemma WriteResetsIffStored(faults: Faults, entries: map<string, Entry>, req: ConfigWriteRequest)
    ensures var w := ConfigWriteSpec(faults, entries, req);
      && (w.reset <==> w.outcome.Reply?)
      && (!w.outcome.Reply? ==> w.entries == entries)
      && (w.outcome.Reply? ==> (
            && w.entries.Keys == entries.Keys + {ConfigKey}
            && forall k :: k in entries && k != ConfigKey ==> w.entries[k] == entries[k]))
  {
  }

  /**
   * After a successful write, reading the configuration yields the merged one: supplied fields
   * overwrite, omitted ones keep their stored values on update; a create that supplies all three
   * fields reads back exactly those.
   */
  lemma WriteThenRead(faults: Faults, entries: map<string, Entry>, req: ConfigWriteRequest)
    requires faults.get.None?
    requires ConfigWriteSpec(faults, entries, req).outcome.Reply?
    ensures var base := ConfigLookup(faults, entries).value;
      var after := ConfigLookup(faults, ConfigWriteSpec(faults, entries, req).entries);
      && after.Ok?
      && after.value.apiKeyId == req.apiKeyId.GetOr(base.apiKeyId)
      && after.value.apiKeySecret == req.apiKeySecret.GetOr(base.apiKeySecret)
      && after.value.url == (if req.op == Create then req.url.GetOr("") else req.url.GetOr(base.url))
      && (req.op == Create && req.url.Some? ==>
            after.value == Config(req.apiKeyId.value, req.apiKeySecret.value, req.url.value))
  {
  }

  /** After a delete, the configuration reads as the all-empty one. */
  lemma DeleteThenRead(faults: Faults, entries: map<string, Entry>)
    requires faults.get.None?
    ensures ConfigLookup(faults, entries - {ConfigKey}) == Ok(ZeroConfig)
  {
  }
}
