/** The abstract base of `src/settings/SettingsManager.ts`: every settings
    manager holds the configured entries and the overrides read from the
    URL, in two maps keyed by name. The getters read one map each and change
    nothing; `load` runs the subclass's `createConfigs` and then its
    `deconstructURL`, as each subclass's own model spells out. */
module SettingsStores {
  import opened Js
  import opened JsMaps

  datatype Settings<E> = Settings(configs: JsMap<E>, overrides: JsMap<E>) {
    predicate Valid() {
      configs.Valid() && overrides.Valid()
    }

    /** `getConfig(key)`, with `None` for `undefined`. */
    function GetConfig(key: string): (r: Option<E>)
      ensures r.Some? <==> key in configs.values
      ensures r.Some? ==> r.value == configs.values[key]
    {
      configs.Get(key)
    }

    /** `getOverride(key)` */
    function GetOverride(key: string): (r: Option<E>)
      ensures r.Some? <==> key in overrides.values
      ensures r.Some? ==> r.value == overrides.values[key]
    {
      overrides.Get(key)
    }

    /** `getConfigs()`: every entry, in the order its name was first set. */
    function GetConfigs(): (r: seq<E>)
      requires Valid()
      ensures |r| == |configs.keys|
      ensures forall i :: 0 <= i < |r| ==> GetConfig(configs.keys[i]) == Some(r[i])
    {
      configs.Values()
    }

    /** `getOverrides()` */
    function GetOverrides(): (r: seq<E>)
      requires Valid()
      ensures |r| == |overrides.keys|
      ensures forall i :: 0 <= i < |r| ==> GetOverride(overrides.keys[i]) == Some(r[i])
    {
      overrides.Values()
    }
  }

  /** Every configured entry is listed once: a name's entry sits at that
      name's position in `getConfigs()`. */
  lemma GetConfigsListsEveryEntry<E>(s: Settings<E>, key: string)
    requires s.Valid() && key in s.configs.values
    ensures exists i :: 0 <= i < |s.GetConfigs()| && s.configs.keys[i] == key && s.GetConfigs()[i] == s.configs.values[key]
  {
    var i :| 0 <= i < |s.configs.keys| && s.configs.keys[i] == key;
    assert s.GetConfigs()[i] == s.configs.values[key];
  }
}
