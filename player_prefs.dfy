/** The engine's persistent key/value store (PlayerPrefs), restricted to the
    integer entries the game writes. Writing to disk is not modelled: the
    store is the map itself. */
module PlayerPrefsStore {

  /** PlayerPrefs.GetInt(key, defaultValue) over the entries of the store. */
  function GetInt(entries: map<string, int>, key: string, defaultValue: int): (value: int)
    ensures key in entries ==> value == entries[key]
    ensures key !in entries ==> value == defaultValue
  {
    if key in entries then entries[key] else defaultValue
  }

  class PlayerPrefs {
    var entries: map<string, int>

    constructor (initial: map<string, int>)
      ensures entries == initial
    {
      entries := initial;
    }

    /** PlayerPrefs.SetInt: overwrite or add one entry. */
    method SetInt(key: string, value: int)
      modifies this
      ensures entries == old(entries)[key := value]
    {
      entries := entries[key := value];
    }

    /** PlayerPrefs.DeleteKey: remove one entry if present. */
    method DeleteKey(key: string)
      modifies this
      ensures entries == old(entries) - {key}
    {
      entries := entries - {key};
    }
  }
}
