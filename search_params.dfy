/** `URLSearchParams` as the overlay uses it: a mutable string-to-string map
    where `set` replaces any earlier value of the key and `get` gives `null`
    for an absent key. (Repeated keys and key order are not modelled.) */
module SearchParams {
  import opened Js

  class UrlSearchParams {
    var entries: map<string, string>

    /** `new URLSearchParams()` */
    constructor ()
      ensures entries == map[]
    {
      entries := map[];
    }

    /** `new URLSearchParams(init)` for a known set of entries. */
    constructor FromEntries(init: map<string, string>)
      ensures entries == init
    {
      entries := init;
    }

    /** `params.get(key)` */
    function Get(key: string): (r: Option<string>)
      reads this
      ensures r.Some? <==> key in entries
      ensures r.Some? ==> r.value == entries[key]
    {
      Lookup(entries, key)
    }

    /** `params.set(key, value)` */
    method Set(key: string, value: string)
      modifies this
      ensures entries == old(entries)[key := value]
    {
      entries := entries[key := value];
    }
  }

  /** `get` on a parameter map given as a value. */
  function Lookup(entries: map<string, string>, key: string): (r: Option<string>)
    ensures r.Some? <==> key in entries
    ensures r.Some? ==> r.value == entries[key]
  {
    if key in entries then Some(entries[key]) else None
  }
}
