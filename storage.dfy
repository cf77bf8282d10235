/**
 * The host's key-value store (`logical.Storage`) as seen by the plugin: get, put, delete and list by
 * prefix over a map. Each operation either always fails with a fixed error text or never fails.
 */
module Storage {
  import opened Common
  import opened Records

  /** For each storage operation, the error it fails with, if it fails. */
  datatype Faults = Faults(get: Option<string>, put: Option<string>, delete: Option<string>, list: Option<string>)

  const NoFaults := Faults(None, None, None, None)

  /** The result of `Get(key)`: the entry, none when the key is absent, or the store's error. */
  function Fetch(faults: Faults, entries: map<string, Entry>, key: string): (r: Result<Option<Entry>>)
    ensures r.Err? <==> faults.get.Some?
    ensures r.Ok? ==> (r.value.Some? <==> key in entries)
    ensures r.Ok? && key in entries ==> r.value.value == entries[key]
  {
    if faults.get.Some? then Err(faults.get.value)
    else if key in entries then Ok(Some(entries[key]))
    else Ok(None)
  }

  /** The names `List(prefix)` returns: every stored key that starts with prefix, with the prefix cut off. */
  function Children(entries: map<string, Entry>, prefix: string): set<string>
  {
    set k | k in entries && prefix <= k :: k[|prefix|..]
  }

  class Store {
    const faults: Faults
    var entries: map<string, Entry>

    constructor(faults: Faults, entries: map<string, Entry>)
      ensures this.faults == faults && this.entries == entries
    {
      this.faults := faults;
      this.entries := entries;
    }

    method Get(key: string) returns (r: Result<Option<Entry>>)
      ensures r == Fetch(faults, entries, key)
    {
      if faults.get.Some? {
        return Err(faults.get.value);
      }
      r := if key in entries then Ok(Some(entries[key])) else Ok(None);
    }

    method Put(key: string, e: Entry) returns (err: Option<string>)
      modifies this
      ensures err == faults.put
      ensures entries == if err.None? then old(entries)[key := e] else old(entries)
    {
      err := faults.put;
      if err.None? {
        entries := entries[key := e];
      }
    }

    /** Deleting an absent key succeeds and changes nothing. */
    method Delete(key: string) returns (err: Option<string>)
      modifies this
      ensures err == faults.delete
      ensures entries == if err.None? then old(entries) - {key} else old(entries)
    {
      err := faults.delete;
      if err.None? {
        entries := entries - {key};
      }
    }

    method List(prefix: string) returns (r: Result<set<string>>)
      ensures r == if faults.list.Some? then Err(faults.list.value) else Ok(Children(entries, prefix))
    {
      if faults.list.Some? {
        return Err(faults.list.value);
      }
      r := Ok(Children(entries, prefix));
    }
  }
}
