/** The configuration record and its lookup (`getConfig`, pkg/plugin/path_config.go). */
module ConfigStore {
  import opened Common
  import opened Records
  import opened Storage

  /** The storage key of the singleton configuration. */
  const ConfigKey := "config"

  /**
   * What `getConfig` yields. It never yields "no configuration": an absent entry gives the all-empty
   * configuration.
   */
  function ConfigLookup(faults: Faults, entries: map<string, Entry>): Result<Config>
  {
    match Fetch(faults, entries, ConfigKey)
    case Err(e) => Err(e)
    case Ok(None) => Ok(ZeroConfig)
    case Ok(Some(e)) =>
      match DecodeConfig(e)
      case Err(msg) => Err("error reading root configuration: " + msg)
      case Ok(config) => Ok(config)
  }

  /** `getConfig`: the stored configuration, the all-empty one when none is stored, or an error. */
  method GetConfig(s: Store) returns (r: Result<Config>)
    ensures s.faults.get.Some? ==> r == Err(s.faults.get.value)
    ensures s.faults.get.None? && ConfigKey !in s.entries ==> r == Ok(ZeroConfig)
    ensures s.faults.get.None? && ConfigKey in s.entries && s.entries[ConfigKey].ConfigEntry? ==>
      r == Ok(s.entries[ConfigKey].config)
    ensures r == ConfigLookup(s.faults, s.entries)
  {
    var entry := s.Get(ConfigKey);
    if entry.Err? {
      return Err(entry.error);
    }
    var config := ZeroConfig;
    if entry.value.Some? {
      var decoded := DecodeConfig(entry.value.value);
      if decoded.Err? {
        return Err("error reading root configuration: " + decoded.error);
      }
      config := decoded.value;
    }
    r := Ok(config);
  }
}
