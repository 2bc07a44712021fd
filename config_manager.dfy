/**
 * The rewritten application's configuration manager: a two-level table of
 * sections and keys, seeded from built-in defaults, with lookups, a
 * change-detecting setter that saves and announces CONFIG_CHANGED, a reset
 * that announces CONFIG_RESET, and the recursive dictionary merge used when
 * a saved file is read back.
 *
 * Section dictionaries are heap objects: the top-level `dict.copy()` that
 * seeds and resets the configuration copies references to them, so the
 * live configuration and the defaults share every built-in section.
 */
module ConfigManager {
  import opened Values
  import opened EventBus

  /** One section dictionary, such as `_config["ui"]`. */
  class Section {
    var entries: map<string, Value>

    constructor (entries: map<string, Value>)
      ensures this.entries == entries
    {
      this.entries := entries;
    }
  }

  /** IEEE-754 bit patterns of the two float defaults. */
  const VadThreshold := Float(0x4000_0000_0000_0000)  // 2.0
  const Opacity := Float(0x3FEC_CCCC_CCCC_CCCD)       // 0.9

  /** The names of the built-in sections. */
  const SectionNames: set<string> := {"transcriber", "recorder", "ui", "clipboard", "storage"}

  /** The built-in defaults, section by section. */
  function DefaultValues(): (d: map<string, map<string, Value>>)
    ensures d.Keys == SectionNames
  {
    map[
      "transcriber" := TranscriberDefaults(),
      "recorder" := RecorderDefaults(),
      "ui" := UiDefaults(),
      "clipboard" := ClipboardDefaults(),
      "storage" := StorageDefaults()
    ]
  }

  function TranscriberDefaults(): (m: map<string, Value>)
  {
    map[
      "model_size" := Str("base"), "device" := Str("cpu"), "compute_type" := Str("int8"),
      "vad_filter" := Bool(true), "vad_threshold" := VadThreshold,
      "use_batched" := Bool(false), "batch_size" := Int(8)]
  }

  function RecorderDefaults(): (m: map<string, Value>)
  {
    map["sample_rate" := Int(44100), "channels" := Int(1), "default_mode" := Str("toggle")]
  }

  function UiDefaults(): (m: map<string, Value>)
  {
    map["theme" := Str("dark"), "always_on_top" := Bool(true), "opacity" := Opacity]
  }

  function ClipboardDefaults(): (m: map<string, Value>)
  {
    map["auto_copy" := Bool(true), "auto_paste" := Bool(false)]
  }

  function StorageDefaults(): (m: map<string, Value>)
  {
    map["db_path" := Str("transcriptions.db"), "keep_audio_files" := Bool(false)]
  }

  /**
   * `_deep_update(target, source)` as a value: where both sides hold a
   * dictionary under a key the two are merged recursively; otherwise the
   * source's value replaces the target's; keys only in the target are kept.
   */
  function DeepMerge(target: map<string, Value>, source: map<string, Value>): (r: map<string, Value>)
    ensures r.Keys == target.Keys + source.Keys
    decreases Dict(source), 0
  {
    map k | k in target.Keys + source.Keys ::
      if k in source then MergeOne(target, k, source[k]) else target[k]
  }

  /** What the merge puts under `key` for the source value `value`. */
  function MergeOne(target: map<string, Value>, key: string, value: Value): (v: Value)
    decreases value, 1
  {
    if key in target && target[key].Dict? && value.Dict? then Dict(DeepMerge(target[key].entries, value.entries)) else value
  }

  /** Keys the source does not mention keep their value; a non-dictionary source value wins outright. */
  lemma MergeKeepsAndOverwrites(target: map<string, Value>, source: map<string, Value>, k: string)
    ensures k in target && k !in source ==> DeepMerge(target, source)[k] == target[k]
    ensures k in source && !(k in target && target[k].Dict? && source[k].Dict?) ==> DeepMerge(target, source)[k] == source[k]
  {
  }

  /** Merging nothing changes nothing; merging into nothing yields the source. */
  lemma {:induction false} MergeIdentities(target: map<string, Value>, source: map<string, Value>)
    ensures DeepMerge(target, map[]) == target
    ensures DeepMerge(map[], source) == source
  {
    assert DeepMerge(target, map[]) == target;
    assert forall k | k in source :: DeepMerge(map[], source)[k] == source[k];
  }

  /** Merging a dictionary into itself gives it back. */
  lemma {:induction false} MergeSelf(m: map<string, Value>)
    ensures DeepMerge(m, m) == m
    decreases Dict(m)
  {
    forall k | k in m
      ensures MergeOne(m, k, m[k]) == m[k]
    {
      if m[k].Dict? {
        assert m[k] < Dict(m);
        MergeSelf(m[k].entries);
      }
    }
  }

  /** Applying the same update twice is the same as applying it once. */
  lemma {:induction false} MergeIdempotent(target: map<string, Value>, source: map<string, Value>)
    ensures DeepMerge(DeepMerge(target, source), source) == DeepMerge(target, source)
    decreases Dict(source)
  {
    var once := DeepMerge(target, source);
    forall k | k in source
      ensures MergeOne(once, k, source[k]) == once[k]
    {
      var v := source[k];
      assert once[k] == MergeOne(target, k, v);
      if k in target && target[k].Dict? && v.Dict? {
        assert v < Dict(source);
        MergeIdempotent(target[k].entries, v.entries);
      } else if v.Dict? {
        assert v < Dict(source);
        MergeSelf(v.entries);
      }
    }
    assert DeepMerge(once, source) == once;
  }

  /** Merging one more key changes only that key, as the loop body does. */
  lemma MergeOneMore(target: map<string, Value>, done: map<string, Value>, k: string, v: Value)
    requires k !in done
    ensures DeepMerge(target, done[k := v]) == DeepMerge(target, done)[k := MergeOne(DeepMerge(target, done), k, v)]
  {
    var m := DeepMerge(target, done);
    assert k in target ==> m[k] == target[k];
  }

  /**
   * `_deep_update(section, source)` on a section dictionary: one pass over
   * the source's items, updating the section in place. Nested dictionaries
   * inside a section are values here.
   */
  method DeepUpdate(target: Section, source: map<string, Value>)
    modifies target
    ensures target.entries == DeepMerge(old(target.entries), source)
  {
    var keys := source.Keys;
    ghost var done: map<string, Value> := map[];
    MergeIdentities(target.entries, source);
    while keys != {}
      invariant keys <= source.Keys
      invariant done.Keys == source.Keys - keys
      invariant forall k | k in done :: done[k] == source[k]
      invariant target.entries == DeepMerge(old(target.entries), done)
      decreases keys
    {
      var key :| key in keys;
      var value := source[key];
      MergeOneMore(old(target.entries), done, key, value);
      if key in target.entries && target.entries[key].Dict? && value.Dict? {
        target.entries := target.entries[key := Dict(DeepMerge(target.entries[key].entries, value.entries))];
      } else {
        target.entries := target.entries[key := value];
      }
      keys := keys - {key};
      done := done[key := value];
    }
    assert done == source;
  }

  /** No two section names share a section object. */
  ghost predicate Distinct(m: map<string, Section>)
  {
    forall s, t | s in m && t in m && s != t :: m[s] != m[t]
  }

  /** One new section object per built-in section, holding its defaults. */
  method NewSections() returns (m: map<string, Section>)
    ensures m.Keys == SectionNames && Distinct(m)
    ensures forall s | s in m :: fresh(m[s]) && m[s].entries == DefaultValues()[s]
  {
    var d := DefaultValues();
    var remaining := d.Keys;
    m := map[];
    while remaining != {}
      invariant remaining <= d.Keys
      invariant m.Keys == d.Keys - remaining
      invariant forall s | s in m :: fresh(m[s]) && m[s].entries == d[s]
      invariant Distinct(m)
      decreases remaining
    {
      var s :| s in remaining;
      var section := new Section(d[s]);
      m := m[s := section];
      remaining := remaining - {s};
    }
  }

  /** How a setter or reset ended: with its save result, or with an exception from a subscriber. */
  datatype Outcome = Returned(ok: bool) | Raised

  /**
   * The tail of `set_config` and `reset_to_defaults`: when the save failed
   * nothing is published and False is returned; otherwise `tag` is
   * published, and True is returned unless a subscriber raised.
   */
  method Announce(bus: Bus, tag: EventType, payload: Value, saveOk: bool) returns (result: Outcome, effects: seq<Effect>)
    requires bus.Valid()
    ensures effects == if saveOk then [Publish(tag, payload)] else []
    ensures result == (if !saveOk then Returned(false)
                       else if Dispatch(bus.subscribers[tag], payload).raised then Raised
                       else Returned(true))
  {
    if !saveOk {
      return Returned(false), [];
    }
    var calls, raised := bus.Publish(tag, payload);
    effects := [Publish(tag, payload)];
    result := if raised then Raised else Returned(true);
  }

  /** What `get_config` hands back. */
  datatype Lookup =
    | Whole(sections: map<string, Section>)   // a top-level copy: the same section objects
    | SectionCopy(entries: map<string, Value>)
    | Found(value: Value)
    | Missing                                 // None

  class ConfigurationManager {
    var config: map<string, Section>
    var defaults: map<string, Section>
    var bus: Bus

    ghost predicate Valid()
      reads this, bus
    {
      && bus.Valid()
      && defaults.Keys == SectionNames
      && defaults.Keys <= config.Keys
      && Distinct(config) && Distinct(defaults)
    }

    /** `_initialize()`: the defaults, and a shallow copy of them as the live configuration. */
    constructor (bus: Bus)
      requires bus.Valid()
      ensures Valid() && this.bus == bus
      ensures config == defaults
      ensures forall s | s in defaults :: fresh(defaults[s]) && defaults[s].entries == DefaultValues()[s]
    {
      var sections := NewSections();
      this.bus := bus;
      defaults := sections;
      config := sections;
    }

    /** `get_config(section, key)` */
    function GetConfig(section: Option<string>, key: Option<string>): (r: Lookup)
      reads this, config.Values
      ensures section.None? ==> r == Whole(config)
      ensures section.Some? && section.value !in config ==> r == Missing
      ensures section.Some? && section.value in config && key.None? ==> r == SectionCopy(config[section.value].entries)
      ensures section.Some? && section.value in config && key.Some? ==>
        r == if key.value in config[section.value].entries then Found(config[section.value].entries[key.value]) else Missing
    {
      if section.None? then Whole(config)
      else if section.value !in config then Missing
      else if key.None? then SectionCopy(config[section.value].entries)
      else if key.value !in config[section.value].entries then Missing
      else Found(config[section.value].entries[key.value])
    }

    /**
     * `set_config(section, key, value)`: an unknown section is created
     * empty; a key already holding `value` is left alone and reported
     * saved; otherwise the value is stored in place (saved or not), and on
     * a successful save CONFIG_CHANGED {section, key, value} is published.
     */
    method SetConfig(section: string, key: string, value: Value, saveOk: bool) returns (result: Outcome, effects: seq<Effect>)
      requires Valid()
      modifies this, config.Values
      ensures Valid() && bus == old(bus) && defaults == old(defaults)
      ensures section in old(config) ==> config == old(config)
      ensures section !in old(config) ==> section in config && fresh(config[section]) && config == old(config)[section := config[section]]
      ensures forall s | s in old(config) && s != section :: config[s].entries == old(config[s].entries)
      ensures GetConfig(Some(section), Some(key)) == Found(value)
      ensures var before := if section in old(config) then old(config[section].entries) else map[];
        config[section].entries == before[key := value]
      ensures var before := if section in old(config) then old(config[section].entries) else map[];
        key in before && before[key] == value ==> result == Returned(true) && effects == []
      ensures var before := if section in old(config) then old(config[section].entries) else map[];
        var payload := Dict(map["section" := Str(section), "key" := Str(key), "value" := value]);
        !(key in before && before[key] == value) ==>
          && effects == (if saveOk then [Publish(ConfigChanged, payload)] else [])
          && result == (if !saveOk then Returned(false)
                        else if Dispatch(bus.subscribers[ConfigChanged], payload).raised then Raised
                        else Returned(true))
    {
      var s := SectionFor(section);
      if key in s.entries && s.entries[key] == value {
        assert s.entries == s.entries[key := value];
        return Returned(true), [];
      }
      s.entries := s.entries[key := value];
      var payload := Dict(map["section" := Str(section), "key" := Str(key), "value" := value]);
      result, effects := Announce(bus, ConfigChanged, payload, saveOk);
    }

    /** The section `set_config` writes into: the existing one, or a new empty one under that name. */
    method SectionFor(section: string) returns (s: Section)
      requires Valid()
      modifies this
      ensures Valid() && bus == old(bus) && defaults == old(defaults)
      ensures section in config && s == config[section]
      ensures section in old(config) ==> config == old(config)
      ensures section !in old(config) ==> fresh(s) && config == old(config)[section := s] && s.entries == map[]
    {
      if section !in config {
        s := new Section(map[]);
        config := config[section := s];
      } else {
        s := config[section];
      }
    }

    /**
     * `reset_to_defaults()`: the live configuration becomes a shallow copy
     * of the defaults again, and CONFIG_RESET is published on a successful
     * save. The section objects are the defaults' own.
     */
    method ResetToDefaults(saveOk: bool) returns (result: Outcome, effects: seq<Effect>)
      requires Valid()
      modifies this
      ensures Valid() && bus == old(bus) && defaults == old(defaults)
      ensures config == defaults
      ensures effects == if saveOk then [Publish(ConfigReset, Nil)] else []
      ensures result == (if !saveOk then Returned(false)
                         else if Dispatch(bus.subscribers[ConfigReset], Nil).raised then Raised
                         else Returned(true))
    {
      config := defaults;
      result, effects := Announce(bus, ConfigReset, Nil, saveOk);
    }

    /**
     * The reset the code evidently intends: the live configuration becomes
     * a deep copy of the built-in defaults, in sections of its own, so every
     * default value is back whatever was set before.
     */
    method ResetToDefaultsDeep(saveOk: bool) returns (result: Outcome, effects: seq<Effect>)
      requires Valid()
      modifies this
      ensures Valid() && bus == old(bus) && defaults == old(defaults)
      ensures config.Keys == SectionNames
      ensures forall s | s in config :: fresh(config[s]) && config[s].entries == DefaultValues()[s]
      ensures effects == if saveOk then [Publish(ConfigReset, Nil)] else []
      ensures result == (if !saveOk then Returned(false)
                         else if Dispatch(bus.subscribers[ConfigReset], Nil).raised then Raised
                         else Returned(true))
    {
      InstallDefaults();
      result, effects := Announce(bus, ConfigReset, Nil, saveOk);
    }

    /** The state change of the intended reset: fresh sections holding the built-in defaults. */
    method InstallDefaults()
      requires Valid()
      modifies this
      ensures Valid() && bus == old(bus) && defaults == old(defaults)
      ensures config.Keys == SectionNames
      ensures forall s | s in config :: fresh(config[s]) && config[s].entries == DefaultValues()[s]
    {
      config := NewSections();
    }
  }

  /**
   * As written, a change to a built-in section survives a reset: the
   * setter writes into the section object the defaults share, and the
   * reset copies those same objects back.
   */
  method ResetKeepsChange(m: ConfigurationManager, value: Value, saveOk: bool) returns (after: Lookup)
    requires m.Valid() && m.config == m.defaults
    requires value != DefaultValues()["ui"]["theme"]
    modifies m, m.config.Values
    ensures after == Found(value) && after != Found(DefaultValues()["ui"]["theme"])
  {
    var r1, e1 := m.SetConfig("ui", "theme", value, saveOk);
    var r2, e2 := m.ResetToDefaults(saveOk);
    after := m.GetConfig(Some("ui"), Some("theme"));
  }

  /** With the intended reset, the same sequence brings the default back. */
  method DeepResetRestores(m: ConfigurationManager, value: Value, saveOk: bool) returns (after: Lookup)
    requires m.Valid()
    modifies m, m.config.Values
    ensures after == Found(DefaultValues()["ui"]["theme"])
  {
    var r1, e1 := m.SetConfig("ui", "theme", value, saveOk);
    var r2, e2 := m.ResetToDefaultsDeep(saveOk);
    assert "ui" in m.config && m.config["ui"].entries == DefaultValues()["ui"];
    after := m.GetConfig(Some("ui"), Some("theme"));
  }
}
