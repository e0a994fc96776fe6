/**
 * The persistent settings store the app classes share (`UserDefaults.standard`),
 * restricted to the string values they keep in it.
 */
module Settings {
  import opened Wrappers

  /** `string(forKey:)` on a store snapshot. */
  function StringFor(store: map<string, string>, key: string): (r: Option<string>)
    ensures r.Some? <==> key in store
    ensures r.Some? ==> r.value == store[key]
  {
    if key in store then Some(store[key]) else None
  }

  /**
   * Writing a key makes it read back as the value written, removing it makes
   * it read back as nothing, and every other key reads as before.
   */
  lemma StringForUpdates(store: map<string, string>, key: string, value: string, k: string)
    ensures StringFor(store[key := value], k) == if k == key then Some(value) else StringFor(store, k)
    ensures StringFor(store - {key}, k) == if k == key then None else StringFor(store, k)
  {
  }

  class UserDefaults {
    var store: map<string, string>

    constructor (initial: map<string, string>)
      ensures store == initial
    {
      store := initial;
    }

    /** `string(forKey:)`. */
    function Get(key: string): Option<string>
      reads this
    {
      StringFor(store, key)
    }

    /** `set(_:forKey:)` with a string. */
    method Set(value: string, key: string)
      modifies this
      ensures store == old(store)[key := value]
      ensures Get(key) == Some(value)
    {
      store := store[key := value];
    }

    /** `removeObject(forKey:)`. */
    method Remove(key: string)
      modifies this
      ensures store == old(store) - {key}
      ensures Get(key) == None
    {
      store := store - {key};
    }
  }
}
