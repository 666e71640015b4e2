/** Browser `localStorage`, reduced to a map from keys to string values. */
module Storage {
  import opened Wrappers

  /** The key under which the session token is persisted. */
  const TokenKey: string := "token"

  class LocalStorage {
    var entries: map<string, string>

    constructor (entries: map<string, string>)
      ensures this.entries == entries
    {
      this.entries := entries;
    }

    /** `getItem`: the stored value, or null when the key is absent. */
    function GetItem(key: string): Option<string>
      reads this
    {
      if key in entries then Some(entries[key]) else None
    }

    /** `setItem`: stores `value` under `key`, leaving every other key as it was. */
    method SetItem(key: string, value: string)
      modifies this
      ensures entries == old(entries)[key := value]
    {
      entries := entries[key := value];
    }

    /** `removeItem`: deletes `key`, leaving every other key as it was. */
    method RemoveItem(key: string)
      modifies this
      ensures entries == old(entries) - {key}
    {
      entries := entries - {key};
    }
  }
}
