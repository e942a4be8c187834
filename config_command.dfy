/**
 * The `config` command: reset the global settings, set one `key=value`,
 * show one key, or list them all, in that order of priority. The settings
 * file is a class whose `saved` field is the file's contents (`None` when
 * there is no file) and whose `defaults` field is the current contents of
 * the module's `DEFAULT_CONFIG` object, which `getGlobalConfig` hands out
 * itself when there is no file, so that a caller assigning into the result
 * assigns into the defaults.
 */
module ConfigCommand {
  import opened Wrappers
  import opened Json
  import opened Text
  import opened Project

  /** The defaults as declared; `customTemplatePath` is `undefined`, so it is not a key. */
  const Defaults: GlobalConfig := map[
    "preferredTemplates" := JArr([]),
    "autoUpdate" := JBool(true),
    "language" := JStr("en"),
    "registryUrl" := JStr("https://api.cursor-rules.com")]

  /** The process's settings state: the `DEFAULT_CONFIG` object and the settings file. */
  datatype Settings = Settings(defaults: GlobalConfig, saved: Option<GlobalConfig>)

  /** The state of a process that has just started. */
  function Fresh(saved: Option<GlobalConfig>): Settings
  {
    Settings(Defaults, saved)
  }

  /** `getGlobalConfig()`: the saved settings over the defaults, or the defaults object itself. */
  function Effective(st: Settings): (c: GlobalConfig)
    ensures forall k :: k in c <==> k in st.defaults || (st.saved.Some? && k in st.saved.value)
    ensures st.saved.Some? ==> forall k :: k in st.saved.value ==> c[k] == st.saved.value[k]
    ensures forall k :: k in st.defaults && (st.saved.None? || k !in st.saved.value) ==> c[k] == st.defaults[k]
  {
    match st.saved
    case None => st.defaults
    case Some(s) => st.defaults + s
  }

  class SettingsFile {
    var saved: Option<GlobalConfig>
    var defaults: GlobalConfig

    constructor(saved: Option<GlobalConfig>)
      ensures this.saved == saved && defaults == Defaults
    {
      this.saved := saved;
      defaults := Defaults;
    }

    function State(): Settings
      reads this
    {
      Settings(defaults, saved)
    }

    method GetGlobalConfig() returns (c: GlobalConfig)
      ensures c == Effective(State())
    {
      c := Effective(State());
    }

    /** `saveGlobalConfig(config)`: the current settings with `config` spread over them. */
    method SaveGlobalConfig(config: GlobalConfig)
      modifies this
      ensures saved == Some(Effective(old(State())) + config) && defaults == old(defaults)
    {
      var current := GetGlobalConfig();
      saved := Some(current + config);
    }

    /** `resetConfig()` writes the `DEFAULT_CONFIG` object as it now is. */
    method ResetConfig()
      modifies this
      ensures saved == Some(old(defaults)) && defaults == old(defaults)
    {
      saved := Some(defaults);
    }
  }

  /** `--reset`, `--set` and `--get`. An empty string counts as not given. */
  datatype ConfigOptions = ConfigOptions(reset: bool, setArg: Option<string>, getArg: Option<string>)

  datatype ConfigOutcome =
    | ResetDone
    | Saved(key: string, text: string)
    | FormatError
    | Shown(key: string, found: Option<Json>)
    | Listed(config: GlobalConfig)

  /** `const [key, value] = text.split('=')`, rejected when `key` is empty or `value` missing. */
  function ParseAssignment(text: string): Option<(string, string)>
  {
    var pieces := Split(text, Literal("=")).0;
    if pieces[0] == "" || |pieces| < 2 then None else Some((pieces[0], pieces[1]))
  }

  /** `'true'` and `'false'` become booleans, any other text stays a string. */
  function Coerce(value: string): (j: Json)
    ensures j.JBool? <==> value == "true" || value == "false"
    ensures j.JBool? ==> j.b == (value == "true")
    ensures !j.JBool? ==> j == JStr(value)
  {
    if value == "true" then JBool(true) else if value == "false" then JBool(false) else JStr(value)
  }

  /** The stored value prints back as the text that was typed. */
  lemma CoercePrintsBack(value: string)
    ensures JsString(Coerce(value)) == value
  {
  }

  /** `key=value` with no `=` in either part reads back as that pair. */
  lemma ParseAssignmentOf(key: string, value: string)
    requires key != "" && '=' !in key && '=' !in value
    ensures ParseAssignment(key + "=" + value) == Some((key, value))
  {
    SplitAtChar(key, '=', value);
    SplitAbsent(value, '=');
    ParseFirstTwo(key + ['='] + value, key, value, []);
  }

  /** Anything after a second `=` is dropped. */
  lemma ParseAssignmentDropsRest(key: string, value: string, rest: string)
    requires key != "" && '=' !in key && '=' !in value
    ensures ParseAssignment(key + "=" + value + "=" + rest) == Some((key, value))
  {
    var tail := value + ['='] + rest;
    assert key + "=" + value + "=" + rest == key + ['='] + tail;
    SplitAtChar(key, '=', tail);
    SplitAtChar(value, '=', rest);
    ParseFirstTwo(key + ['='] + tail, key, value, Split(rest, Literal("=")).0);
  }

  /** Text whose first two pieces are `key` and `value` parses as that pair. */
  lemma ParseFirstTwo(text: string, key: string, value: string, more: seq<string>)
    requires key != "" && Split(text, Literal("=")).0 == [key, value] + more
    ensures ParseAssignment(text) == Some((key, value))
  {
  }

  /** Text without `=`, or with nothing before its first `=`, is a format error. */
  lemma ParseAssignmentRejects(text: string, rest: string)
    ensures '=' !in text ==> ParseAssignment(text) == None
    ensures ParseAssignment("=" + rest) == None
  {
    if '=' !in text {
      SplitAbsent(text, '=');
    }
    SplitAtChar("", '=', rest);
    assert "=" + rest == "" + ['='] + rest;
  }

  predicate Given(option: Option<string>)
  {
    option.Some? && option.value != ""
  }

  /**
   * `configCommand(options)` on the settings state: what it reports and the
   * state afterwards. With no settings file, `getGlobalConfig` returned the
   * defaults object, so the assignment of the new value lands in it.
   */
  function Command(st: Settings, options: ConfigOptions): (ConfigOutcome, Settings)
  {
    if options.reset then (ResetDone, Settings(st.defaults, Some(st.defaults)))
    else if Given(options.setArg) then
      match ParseAssignment(options.setArg.value)
      case None => (FormatError, st)
      case Some((key, value)) =>
        var config := Effective(st)[key := Coerce(value)];
        var defaults := if st.saved.None? then config else st.defaults;
        (Saved(key, value), Settings(defaults, Some(Effective(Settings(defaults, st.saved)) + config)))
    else if Given(options.getArg) then
      var key := options.getArg.value;
      (Shown(key, if key in Effective(st) then Some(Effective(st)[key]) else None), st)
    else (Listed(Effective(st)), st)
  }

  /** The line `--get` prints. */
  function ShownLine(key: string, value: Option<Json>): string
  {
    key + ": " + ToJsString(value)
  }

  /** Reset wins over everything: the other options are ignored and the defaults object saved. */
  lemma ResetFirst(st: Settings, options: ConfigOptions)
    requires options.reset
    ensures Command(st, options) == (ResetDone, Settings(st.defaults, Some(st.defaults)))
    ensures Effective(Command(st, options).1) == st.defaults
  {
  }

  /** In a process that has just started, a reset saves the declared defaults. */
  lemma ResetSavesDefaults(saved: Option<GlobalConfig>, options: ConfigOptions)
    requires options.reset
    ensures Command(Fresh(saved), options).1.saved == Some(Defaults)
  {
  }

  /**
   * A set changes exactly one key, to the coerced value, and a later get
   * of that key prints the typed text back.
   */
  lemma SetThenGet(st: Settings, key: string, value: string, other: Option<string>)
    requires key != "" && '=' !in key && '=' !in value
    ensures var (outcome, st') := Command(st, ConfigOptions(false, Some(key + "=" + value), other));
      && outcome == Saved(key, value)
      && Effective(st')[key] == Coerce(value)
      && (forall k :: k != key ==> (k in Effective(st') <==> k in Effective(st)))
      && (forall k :: k != key && k in Effective(st) ==> Effective(st')[k] == Effective(st)[k])
      && Command(st', ConfigOptions(false, None, Some(key))).0 == Shown(key, Some(Coerce(value)))
      && ShownLine(key, Some(Coerce(value))) == key + ": " + value
  {
    ParseAssignmentOf(key, value);
    CoercePrintsBack(value);
  }

  /**
   * With no settings file the set also rewrites the defaults object, so a
   * later reset in the same process saves the new value; with a file the
   * defaults object is untouched.
   */
  lemma SetWritesDefaults(st: Settings, key: string, value: string)
    requires key != "" && '=' !in key && '=' !in value
    ensures var st' := Command(st, ConfigOptions(false, Some(key + "=" + value), None)).1;
      && (st.saved.None? ==> st'.defaults == st.defaults[key := Coerce(value)])
      && (st.saved.Some? ==> st'.defaults == st.defaults)
      && (st.saved.None? ==> Command(st', ConfigOptions(true, None, None)).1.saved.value[key] == Coerce(value))
  {
    ParseAssignmentOf(key, value);
  }

  /** A malformed `--set` saves nothing. */
  lemma FormatErrorSavesNothing(st: Settings, text: string, other: Option<string>)
    requires text != "" && '=' !in text
    ensures Command(st, ConfigOptions(false, Some(text), other)) == (FormatError, st)
  {
    ParseAssignmentRejects(text, "");
  }

  /** `--get` of a key that is not set prints `undefined`, and changes nothing. */
  lemma GetMissing(st: Settings, key: string)
    requires key != "" && key !in Effective(st)
    ensures Command(st, ConfigOptions(false, None, Some(key))) == (Shown(key, None), st)
    ensures ShownLine(key, None) == key + ": undefined"
  {
  }

  method RunConfigCommand(file: SettingsFile, options: ConfigOptions) returns (outcome: ConfigOutcome)
    modifies file
    ensures (outcome, file.State()) == Command(old(file.State()), options)
  {
    if options.reset {
      file.ResetConfig();
      return ResetDone;
    }
    if Given(options.setArg) {
      var parsed := ParseAssignment(options.setArg.value);
      if parsed.None? {
        return FormatError;
      }
      var (key, value) := parsed.value;
      var config := file.GetGlobalConfig();
      config := config[key := Coerce(value)];
      if file.saved.None? {
        // `config` is the defaults object itself
        file.defaults := config;
      }
      file.SaveGlobalConfig(config);
      return Saved(key, value);
    }
    if Given(options.getArg) {
      var config := file.GetGlobalConfig();
      var key := options.getArg.value;
      return Shown(key, if key in config then Some(config[key]) else None);
    }
    var config := file.GetGlobalConfig();
    return Listed(config);
  }
}
