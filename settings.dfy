/**
 * The first desktop app's settings: a five-field record with defaults, its
 * dictionary form, and a manager that loads it from a settings file,
 * updates named fields and writes it back.
 *
 * The record's constructor takes keyword arguments and checks no types,
 * so a field holds whatever value it was given; only an unknown keyword
 * is refused (a TypeError). The file holds the dictionary form, with JSON
 * assumed to round-trip.
 */
module Settings {
  import opened Values

  datatype Settings = Settings(
    modelName: Value,
    device: Value,
    computeType: Value,
    startRecordingShortcut: Value,
    stopRecordingShortcut: Value)

  /** The field names, which are also the dictionary keys. */
  const FieldNames: set<string> :=
    {"model_name", "device", "compute_type", "start_recording_shortcut", "stop_recording_shortcut"}

  /** `Settings()` with every field at its declared default. */
  const Defaults := Settings(Str("base"), Str("cpu"), Str("int8"), Str("Ctrl+Shift+R"), Str("Ctrl+Shift+S"))

  /** `to_dict()` */
  function ToDict(s: Settings): (d: map<string, Value>)
    ensures d.Keys == FieldNames
  {
    map[
      "model_name" := s.modelName,
      "device" := s.device,
      "compute_type" := s.computeType,
      "start_recording_shortcut" := s.startRecordingShortcut,
      "stop_recording_shortcut" := s.stopRecordingShortcut]
  }

  /** A keyword argument, or the field's default when it is not given. */
  function Arg(data: map<string, Value>, name: string, default: Value): Value
  {
    if name in data then data[name] else default
  }

  /** `from_dict(data)`, that is `Settings(**data)`: None stands for the TypeError an unknown key raises. */
  function FromDict(data: map<string, Value>): (r: Option<Settings>)
    ensures r.Some? <==> data.Keys <= FieldNames
  {
    if !(data.Keys <= FieldNames) then None
    else Some(Settings(
      Arg(data, "model_name", Defaults.modelName),
      Arg(data, "device", Defaults.device),
      Arg(data, "compute_type", Defaults.computeType),
      Arg(data, "start_recording_shortcut", Defaults.startRecordingShortcut),
      Arg(data, "stop_recording_shortcut", Defaults.stopRecordingShortcut)))
  }

  /** The dictionary form converts back to the same record. */
  lemma FromDictToDict(s: Settings)
    ensures FromDict(ToDict(s)) == Some(s)
  {
    assert ToDict(s).Keys <= FieldNames;
  }

  /** In the other direction: a dictionary of known keys comes back filled in with the defaults. */
  lemma ToDictFromDict(data: map<string, Value>)
    requires data.Keys <= FieldNames
    ensures FromDict(data).Some?
    ensures ToDict(FromDict(data).value) == ToDict(Defaults) + data
  {
    var r := ToDict(FromDict(data).value);
    var e := ToDict(Defaults) + data;
    forall k | k in FieldNames
      ensures r[k] == e[k]
    {
    }
    assert r.Keys == e.Keys;
  }

  /**
   * The record `update_settings(**kwargs)` computes: the current dictionary
   * updated with the keyword arguments, converted back; None when a
   * keyword is not a field name.
   */
  function Updated(s: Settings, kwargs: map<string, Value>): (r: Option<Settings>)
  {
    FromDict(ToDict(s) + kwargs)
  }

  /** An update fails exactly on an unknown keyword; otherwise it sets the named fields and keeps the rest. */
  lemma UpdateChangesNamedFields(s: Settings, kwargs: map<string, Value>)
    ensures Updated(s, kwargs).Some? <==> kwargs.Keys <= FieldNames
    ensures Updated(s, kwargs).Some? ==>
      forall k | k in FieldNames ::
        ToDict(Updated(s, kwargs).value)[k] == (if k in kwargs then kwargs[k] else ToDict(s)[k])
  {
    if kwargs.Keys <= FieldNames {
      ToDictFromDict(ToDict(s) + kwargs);
      assert ToDict(Defaults) + (ToDict(s) + kwargs) == ToDict(s) + kwargs;
    }
  }

  /** An update with no keywords gives the same record back. */
  lemma EmptyUpdate(s: Settings)
    ensures Updated(s, map[]) == Some(s)
  {
    assert ToDict(s) + map[] == ToDict(s);
    FromDictToDict(s);
  }

  /** What the settings file holds: nothing, something that does not load, or a JSON value. */
  datatype SettingsFile = Missing | Unreadable | Parsed(data: Value)

  /**
   * `load_settings()`: a missing file, one that does not parse, or parsed
   * data that is not a dictionary of known keys all give the defaults.
   */
  function LoadSettings(file: SettingsFile): (s: Settings)
    ensures !file.Parsed? ==> s == Defaults
    ensures file.Parsed? && file.data.Dict? && FromDict(file.data.entries).Some? ==> s == FromDict(file.data.entries).value
    ensures file.Parsed? && !(file.data.Dict? && file.data.entries.Keys <= FieldNames) ==> s == Defaults
  {
    if file.Parsed? && file.data.Dict? && FromDict(file.data.entries).Some? then FromDict(file.data.entries).value
    else Defaults
  }

  /** How a `save_settings` write ends: written, the open fails, or the dump fails after the open truncated the file. */
  datatype WriteOutcome = Written | OpenFails | DumpFails

  /** A file saved from a record loads back as that record. */
  lemma SaveThenLoad(s: Settings)
    ensures LoadSettings(Parsed(Dict(ToDict(s)))) == s
  {
    FromDictToDict(s);
  }

  class SettingsManager {
    var settings: Settings
    var file: SettingsFile

    /** `SettingsManager(settings_file)`: the settings are loaded from the file. */
    constructor (file: SettingsFile)
      ensures this.file == file && settings == LoadSettings(file)
    {
      this.file := file;
      settings := LoadSettings(file);
    }

    /**
     * `save_settings(settings)`: the file is opened for writing, which
     * truncates it, and the record's dictionary is dumped into it. An open
     * that fails leaves the file as it was; a dump that fails after the
     * open leaves a truncated file that no longer parses. Either failure is
     * reported and swallowed.
     */
    method SaveSettings(s: Settings, outcome: WriteOutcome)
      modifies this
      ensures settings == old(settings)
      ensures file == match outcome
        case Written => Parsed(Dict(ToDict(s)))
        case OpenFails => old(file)
        case DumpFails => Unreadable
    {
      match outcome {
        case Written => file := Parsed(Dict(ToDict(s)));
        case OpenFails =>
        case DumpFails => file := Unreadable;
      }
    }

    /**
     * `update_settings(**kwargs)`: an unknown keyword raises before the
     * settings are replaced or saved; otherwise the settings become the
     * updated record and are saved.
     */
    method UpdateSettings(kwargs: map<string, Value>, outcome: WriteOutcome) returns (raised: bool)
      modifies this
      ensures raised <==> !(kwargs.Keys <= FieldNames)
      ensures raised ==> settings == old(settings) && file == old(file)
      ensures !raised ==> Some(settings) == Updated(old(settings), kwargs)
      ensures !raised ==> file == match outcome
        case Written => Parsed(Dict(ToDict(settings)))
        case OpenFails => old(file)
        case DumpFails => Unreadable
    {
      var current := ToDict(settings);
      current := current + kwargs;
      var r := FromDict(current);
      if r.None? {
        return true;
      }
      settings := r.value;
      SaveSettings(settings, outcome);
      raised := false;
    }
  }
}
