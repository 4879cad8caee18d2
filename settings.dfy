/**
 The tween's configuration: the application settings whose key starts with
 `tet.fanstatic.`, with that prefix stripped, and the `dict.get`/`dict.pop`
 lookups made on it.
 */
module Settings {
  import opened Strings

  const SettingsPrefix: string := "tet.fanstatic."

  /** The key of a selected setting, as `filter_settings` rewrites it. */
  function StripSettingsPrefix(k: string): string
  {
    ReplaceFirst(k, SettingsPrefix, "")
  }

  /** The keys `filter_settings` selects. */
  ghost function PrefixedKeys<V>(settings: map<string, V>): set<string>
  {
    set k | k in settings && StartsWith(k, SettingsPrefix)
  }

  /** Stripping the settings prefix is undone by putting it back. */
  lemma StripSettingsPrefixInverse(k: string)
    requires StartsWith(k, SettingsPrefix)
    ensures SettingsPrefix + StripSettingsPrefix(k) == k
    ensures StripSettingsPrefix(k) == k[|SettingsPrefix|..]
  {
    ReplaceLeading(k, SettingsPrefix, "");
    ReplaceLeadingRoundTrip(k, SettingsPrefix);
  }

  /** Two selected keys that strip to the same key are the same key. */
  lemma StripSettingsPrefixInjective(k1: string, k2: string)
    requires StartsWith(k1, SettingsPrefix) && StartsWith(k2, SettingsPrefix)
    requires StripSettingsPrefix(k1) == StripSettingsPrefix(k2)
    ensures k1 == k2
  {
    StripSettingsPrefixInverse(k1);
    StripSettingsPrefixInverse(k2);
  }

  /**
   `filter_settings`: every entry of the result comes from a setting under
   `tet.fanstatic.`, keyed by the rest of that setting's key, with the same
   value (`FilterSettingsKeeps` gives the other direction).
   */
  function FilterSettings<V>(settings: map<string, V>): (r: map<string, V>)
    ensures forall j :: j in r ==> SettingsPrefix + j in settings && r[j] == settings[SettingsPrefix + j]
  {
    forall k1, k2 | StartsWith(k1, SettingsPrefix) && StartsWith(k2, SettingsPrefix)
      && StripSettingsPrefix(k1) == StripSettingsPrefix(k2)
      ensures k1 == k2
    {
      StripSettingsPrefixInjective(k1, k2);
    }
    forall k | StartsWith(k, SettingsPrefix)
      ensures SettingsPrefix + StripSettingsPrefix(k) == k
    {
      StripSettingsPrefixInverse(k);
    }
    map k | k in settings && StartsWith(k, SettingsPrefix) :: StripSettingsPrefix(k) := settings[k]
  }

  /**
   `filter_settings` keeps every setting under `tet.fanstatic.`: its key with
   the leading prefix removed maps to its value.
   */
  lemma FilterSettingsKeeps<V>(settings: map<string, V>, k: string)
    requires k in settings && StartsWith(k, SettingsPrefix)
    ensures k[|SettingsPrefix|..] in FilterSettings(settings)
    ensures FilterSettings(settings)[k[|SettingsPrefix|..]] == settings[k]
  {
    StripSettingsPrefixInverse(k);
  }

  /** A setting whose key does not start with `tet.fanstatic.` is dropped. */
  lemma FilterSettingsDrops<V>(settings: map<string, V>, k: string)
    requires !StartsWith(k, SettingsPrefix)
    ensures forall j :: j in FilterSettings(settings) ==> SettingsPrefix + j != k
  {
    forall j | j in FilterSettings(settings) ensures SettingsPrefix + j != k {
      assert (SettingsPrefix + j)[..|SettingsPrefix|] == SettingsPrefix;
    }
  }

  /** The keys of the image of `keys` under `StripSettingsPrefix`. */
  ghost function StrippedKeys(keys: set<string>): set<string>
  {
    set k | k in keys && StartsWith(k, SettingsPrefix) :: k[|SettingsPrefix|..]
  }

  lemma {:induction false} StrippedKeysSize(keys: set<string>)
    requires forall k :: k in keys ==> StartsWith(k, SettingsPrefix)
    ensures |StrippedKeys(keys)| == |keys|
    decreases |keys|
  {
    if keys != {} {
      var k :| k in keys;
      var rest := keys - {k};
      StrippedKeysSize(rest);
      var stripped := k[|SettingsPrefix|..];
      StripSettingsPrefixInverse(k);
      assert StrippedKeys(keys) == StrippedKeys(rest) + {stripped};
      if stripped in StrippedKeys(rest) {
        var k' :| k' in rest && StartsWith(k', SettingsPrefix) && k'[|SettingsPrefix|..] == stripped;
        StripSettingsPrefixInverse(k');
      }
    } else {
      assert StrippedKeys(keys) == {};
    }
  }

  /** The keys `filter_settings` produces are the selected keys, stripped. */
  lemma FilterSettingsKeys<V>(settings: map<string, V>)
    ensures FilterSettings(settings).Keys == StrippedKeys(PrefixedKeys(settings))
  {
    var r := FilterSettings(settings);
    var keys := PrefixedKeys(settings);
    forall j | j in r ensures j in StrippedKeys(keys) {
      var k := SettingsPrefix + j;
      assert k[..|SettingsPrefix|] == SettingsPrefix;
      assert k in keys;
      assert k[|SettingsPrefix|..] == j;
    }
    forall j | j in StrippedKeys(keys) ensures j in r {
      var k :| k in keys && k[|SettingsPrefix|..] == j;
      FilterSettingsKeeps(settings, k);
    }
  }

  /** `filter_settings` loses no entry: it has one entry per selected key. */
  lemma FilterSettingsSize<V>(settings: map<string, V>)
    ensures |FilterSettings(settings)| == |PrefixedKeys(settings)|
  {
    StrippedKeysSize(PrefixedKeys(settings));
    FilterSettingsKeys(settings);
    assert |FilterSettings(settings)| == |FilterSettings(settings).Keys|;
  }

  /** Python's `d.get(key, default)`. */
  function Get<V>(m: map<string, V>, key: string, default: V): V
  {
    if key in m then m[key] else default
  }

  /**
   Python's `d.pop(key, default)`: the value under `key` (or `default`) and
   the dictionary without `key`.
   */
  function Pop<V>(m: map<string, V>, key: string, default: V): (r: (V, map<string, V>))
    ensures key in m ==> r.0 == m[key]
    ensures key !in m ==> r.0 == default
    ensures r.1.Keys == m.Keys - {key}
    ensures forall j :: j in r.1 ==> r.1[j] == m[j]
  {
    (Get(m, key, default), m - {key})
  }

  /**
   Python's truthiness of `d.get(key)` for string settings: a missing key
   (`None`) and the empty string are false, every other string is true.
   */
  predicate Flag(m: map<string, string>, key: string)
  {
    key in m && m[key] != ""
  }

  /** Settings are strings, so the setting `false` switches a flag on. */
  lemma FlagOnFalseString(settings: map<string, string>)
    requires settings == map["tet.fanstatic.use_thread_local" := "false"]
    ensures Flag(FilterSettings(settings), "use_thread_local")
  {
    var k := "tet.fanstatic.use_thread_local";
    assert StartsWith(k, SettingsPrefix);
    FilterSettingsKeeps(settings, k);
    assert k[|SettingsPrefix|..] == "use_thread_local";
  }
}
