/**
 * `processTemplate`: load a configuration, merge its variables with the
 * caller's, and turn each rule into a generated file, a warning (its
 * condition is false) or an error (it failed), then sum up the run.
 * Rules are taken one after the other; the clock (`now`, the elapsed time)
 * and the environment (working directory, date) are parameters.
 */
module Process {
  import opened Wrappers
  import opened Json
  import opened Text
  import opened Project
  import opened Condition
  import opened Variables
  import opened Validation
  import opened Cache
  import opened Loader
  import Placeholders

  datatype GeneratedFile = GeneratedFile(path: string, content: string, encoding: string)

  datatype ProcessMetadata = ProcessMetadata(
    templateId: Option<Json>,
    templateVersion: Option<Json>,
    processTime: int,
    filesGenerated: nat,
    compatibilityScore: int)

  /** `errors` and `warnings` are `undefined` (`None`) when empty. */
  datatype ProcessResult = ProcessResult(
    success: bool,
    files: seq<GeneratedFile>,
    variables: Vars,
    errors: Option<seq<string>>,
    warnings: Option<seq<string>>,
    metadata: ProcessMetadata)

  /** What the variable map reads besides the project: the working directory and today's date. */
  datatype Environment = Environment(cwd: string, iso: string, year: int)

  /** How one rule's promise settles. */
  datatype RuleOutcome =
    | Skipped(warning: string)       // its condition is false
    | Generated(file: GeneratedFile)
    | Failed(error: string)          // it threw, and its `catch` recorded the error
    | Rejected(reason: string)       // its `catch` threw too

  /** The TypeError of `path.join` on a rule file that is not a string (the value received is not part of it). */
  const PathTypeError := "TypeError [ERR_INVALID_ARG_TYPE]: The \"path\" argument must be of type string"

  // ---------------------------------------------------------------- output paths

  /**
   * Where a rule's file goes: `basic/...` as it is; otherwise under the
   * category, and under the template id too unless the two are equal.
   */
  function OutputPath(config: Json, file: string): string
  {
    if StartsWith(file, "basic/") then file
    else
      var category := Field(config, "category");
      var id := Field(config, "id");
      if StrictEquals(category, id) then ToJsString(category) + "/" + Basename(file)
      else ToJsString(category) + "/" + ToJsString(id) + "/" + Basename(file)
  }

  lemma {:induction false} AfterLastSlashJoin(d: string, b: string)
    requires '/' !in b
    ensures AfterLastSlash(d + "/" + b) == b
    decreases |b|
  {
    var t := d + "/" + b;
    if b == [] {
      assert t[|t| - 1] == '/';
    } else {
      var b' := b[..|b| - 1];
      assert t[..|t| - 1] == d + "/" + b';
      assert t[|t| - 1] == b[|b| - 1];
      AfterLastSlashJoin(d, b');
      assert b' + [b[|b| - 1]] == b;
    }
  }

  /** The last segment of `dir/name` is `name`, and `dir/name` lies under `dir/`. */
  lemma InDirectory(d: string, b: string)
    requires b != [] && '/' !in b
    ensures Basename(d + "/" + b) == b
    ensures StartsWith(d + "/" + b, d + "/")
  {
    var t := d + "/" + b;
    assert t[|t| - 1] == b[|b| - 1];
    assert StripTrailingSlashes(t) == t;
    AfterLastSlashJoin(d, b);
    assert t[..|d + "/"|] == d + "/";
  }

  lemma StartsWithAppend(x: string, y: string)
    ensures StartsWith(x + y, x)
  {
    assert (x + y)[..|x|] == x;
  }

  /**
   * The generated file keeps the rule file's name, and outside `basic/` it
   * lands in the category's directory.
   */
  lemma OutputPathKeepsName(config: Json, file: string)
    requires Basename(file) != []
    ensures Basename(OutputPath(config, file)) == Basename(file)
    ensures !StartsWith(file, "basic/") ==> StartsWith(OutputPath(config, file), ToJsString(Field(config, "category")) + "/")
  {
    var b := Basename(file);
    var category := ToJsString(Field(config, "category"));
    var id := ToJsString(Field(config, "id"));
    var p := OutputPath(config, file);
    if !StartsWith(file, "basic/") {
      if StrictEquals(Field(config, "category"), Field(config, "id")) {
        assert p == category + "/" + b;
        InDirectory(category, b);
      } else {
        assert p == (category + "/" + id) + "/" + b;
        InDirectory(category + "/" + id, b);
        Regroup(category, "/", id, b);
        StartsWithAppend(category + "/", id + "/" + b);
      }
    }
  }

  lemma Regroup<T>(a: seq<T>, sep: seq<T>, b: seq<T>, c: seq<T>)
    ensures a + sep + b + sep + c == (a + sep) + (b + sep + c)
  {
  }

  /** A template whose category is its id (`workflow`) writes its files one level up. */
  lemma OutputPathOfCategoryTemplate(config: Json, category: string, file: string)
    requires Field(config, "category") == Some(JStr(category)) && Field(config, "id") == Some(JStr(category))
    requires !StartsWith(file, "basic/")
    ensures OutputPath(config, file) == category + "/" + Basename(file)
  {
  }

  /** Any other template writes its files under `category/id`; a `basic/` file keeps its path. */
  lemma OutputPathUnderTemplate(config: Json, category: string, id: string, file: string)
    requires Field(config, "category") == Some(JStr(category)) && Field(config, "id") == Some(JStr(id))
    ensures StartsWith(file, "basic/") ==> OutputPath(config, file) == file
    ensures !StartsWith(file, "basic/") && category != id
      ==> OutputPath(config, file) == category + "/" + id + "/" + Basename(file)
  {
  }

  // ---------------------------------------------------------------- one rule

  /** `rule.condition && !evaluateCondition(rule.condition, context)`. */
  predicate SkipsRule(condition: Option<Json>, info: ProjectInfo)
  {
    TruthyOpt(condition) && !TruthyOpt(EvaluateConditionValue(condition.value, info))
  }

  /**
   * The promise of one rule, on the file map of the cache. `variables` is
   * the variable map of `processVariables`, the same for every rule.
   */
  function RuleOutcomeOf(store: Store, files: map<string, CacheEntry<string>>, config: Json, rule: Json,
                         info: ProjectInfo, variables: seq<(string, string)>, useCache: bool, now: int)
    : (r: (RuleOutcome, map<string, CacheEntry<string>>))
    ensures r.0.Rejected? <==> rule.JNull?
    ensures r.0.Skipped? <==> !rule.JNull? && SkipsRule(Field(rule, "condition"), info)
    ensures r.0.Generated? ==>
      && Field(rule, "file").Some? && Field(rule, "file").value.JStr?
      && r.0.file.path == OutputPath(config, Field(rule, "file").value.s)
      && r.0.file.encoding == "utf-8"
    ensures (r.0.Skipped? || r.0.Rejected?) ==> r.1 == files
  {
    if rule.JNull? then
      // `rule.condition` throws, and so does `rule.name` in the `catch`
      (Rejected(NullAccess("name")), files)
    else
      var name := ToJsString(Field(rule, "name"));
      var condition := Field(rule, "condition");
      if SkipsRule(condition, info) then
        (Skipped("跳过规则 " + name + "：不满足条件 " + JsString(condition.value)), files)
      else
        var file := Field(rule, "file");
        if !(file.Some? && file.value.JStr?) then (Failed("处理规则失败 " + name + ": " + PathTypeError), files)
        else
          var (loaded, files') := LoadRule(store, files, file.value.s, useCache, now);
          match loaded
          case Err(e) => (Failed("处理规则失败 " + name + ": " + e.ToString()), files')
          case Ok(content) =>
            (Generated(GeneratedFile(OutputPath(config, file.value.s), ApplyVariables(content, variables), "utf-8")), files')
  }

  /** A rule whose condition is empty or absent is never skipped. */
  lemma EmptyConditionIncluded(store: Store, files: map<string, CacheEntry<string>>, config: Json, rule: Json,
                               info: ProjectInfo, variables: seq<(string, string)>, useCache: bool, now: int)
    requires !TruthyOpt(Field(rule, "condition"))
    ensures !RuleOutcomeOf(store, files, config, rule, info, variables, useCache, now).0.Skipped?
  {
  }

  /** The rule file's path when `rule.file` is a string. */
  function RuleFile(rule: Json): Option<string>
  {
    var file := Field(rule, "file");
    if file.Some? && file.value.JStr? then Some(file.value.s) else None
  }

  /** A rule that is neither `null` nor skipped goes on to read its file. */
  predicate Reached(rule: Json, info: ProjectInfo)
  {
    !rule.JNull? && !SkipsRule(Field(rule, "condition"), info)
  }

  /**
   * A reached rule is generated exactly when its file is a string that
   * `loadRuleFile` reads, and its content is then that text after
   * `processVariables`; it fails exactly when its file is not a string or
   * cannot be read, and the error names the rule. The cache is what loading left.
   */
  lemma RuleOutcomeContent(store: Store, files: map<string, CacheEntry<string>>, config: Json, rule: Json,
                           info: ProjectInfo, variables: seq<(string, string)>, useCache: bool, now: int)
    ensures var r := RuleOutcomeOf(store, files, config, rule, info, variables, useCache, now);
      && (r.0.Generated? <==>
            (Reached(rule, info) && RuleFile(rule).Some? && LoadRule(store, files, RuleFile(rule).value, useCache, now).0.Ok?))
      && (r.0.Failed? <==>
            (Reached(rule, info) && (RuleFile(rule).None? || LoadRule(store, files, RuleFile(rule).value, useCache, now).0.Err?)))
      && (r.0.Generated? ==>
            r.0.file.content == ApplyVariables(LoadRule(store, files, RuleFile(rule).value, useCache, now).0.value, variables))
      && (r.0.Failed? ==> StartsWith(r.0.error, "处理规则失败 " + ToJsString(Field(rule, "name")) + ": "))
      && (Reached(rule, info) && RuleFile(rule).Some? ==> r.1 == LoadRule(store, files, RuleFile(rule).value, useCache, now).1)
      && (Reached(rule, info) && RuleFile(rule).None? ==> r.1 == files)
  {
    var r := RuleOutcomeOf(store, files, config, rule, info, variables, useCache, now);
    if r.0.Failed? {
      var prefix := "处理规则失败 " + ToJsString(Field(rule, "name")) + ": ";
      assert r.0.error[..|prefix|] == prefix;
    }
  }

  /**
   * Without the cache, rule `i`, when generated, holds the stored rule text
   * after `processVariables`; for a rule text made of plain text and
   * placeholders, every placeholder the map binds is filled in.
   */
  lemma NoCacheGeneratedContent(store: Store, files: map<string, CacheEntry<string>>, config: Json, rules: seq<Json>,
                                info: ProjectInfo, variables: seq<(string, string)>, now: int, i: nat)
    requires i < |rules|
    ensures var o := RuleOutcomes(store, files, config, rules, info, variables, false, now).0[i];
      o.Generated? ==>
        && RuleFile(rules[i]).Some? && RuleFile(rules[i]).value in store.rules
        && o.file.content == ApplyVariables(store.rules[RuleFile(rules[i]).value], variables)
  {
    RulesIndependent(store, files, config, rules, info, variables, now, i);
    RuleOutcomeContent(store, files, config, rules[i], info, variables, false, now);
  }

  /** A generated rule whose text is a template holds the template with every bound placeholder filled in. */
  lemma GeneratedTemplate(store: Store, files: map<string, CacheEntry<string>>, config: Json, rule: Json,
                          info: ProjectInfo, variables: seq<(string, string)>, now: int, ps: seq<Placeholders.Piece>)
    requires RuleFile(rule).Some? && RuleFile(rule).value in store.rules
    requires store.rules[RuleFile(rule).value] == Placeholders.Render(ps)
    requires Placeholders.Template(ps) && Placeholders.Bindings(variables)
    ensures var o := RuleOutcomeOf(store, files, config, rule, info, variables, false, now).0;
      Reached(rule, info) ==> o.Generated? && o.file.content == Placeholders.Render(Placeholders.Resolve(ps, variables))
  {
    RuleOutcomeContent(store, files, config, rule, info, variables, false, now);
    Placeholders.ApplyVariablesRender(ps, variables);
  }

  /** `config.rules.map(...)`, rule after rule, threading the file cache. */
  function RuleOutcomes(store: Store, files: map<string, CacheEntry<string>>, config: Json, rules: seq<Json>,
                        info: ProjectInfo, variables: seq<(string, string)>, useCache: bool, now: int)
    : (r: (seq<RuleOutcome>, map<string, CacheEntry<string>>))
    ensures |r.0| == |rules|
    decreases |rules|
  {
    if rules == [] then ([], files)
    else
      var (outcomes, f) := RuleOutcomes(store, files, config, rules[..|rules| - 1], info, variables, useCache, now);
      var (o, f') := RuleOutcomeOf(store, f, config, rules[|rules| - 1], info, variables, useCache, now);
      (outcomes + [o], f')
  }

  /** The `i`-th rule is rejected exactly when it is `null`, and skipped exactly when its condition is false. */
  lemma {:induction false} OutcomeKinds(store: Store, files: map<string, CacheEntry<string>>, config: Json, rules: seq<Json>,
                                        info: ProjectInfo, variables: seq<(string, string)>, useCache: bool, now: int, i: nat)
    requires i < |rules|
    ensures var o := RuleOutcomes(store, files, config, rules, info, variables, useCache, now).0[i];
      && (o.Rejected? <==> rules[i].JNull?)
      && (o.Skipped? <==> !rules[i].JNull? && SkipsRule(Field(rules[i], "condition"), info))
    decreases |rules|
  {
    var prefix := rules[..|rules| - 1];
    var (outcomes, f) := RuleOutcomes(store, files, config, prefix, info, variables, useCache, now);
    var o := RuleOutcomeOf(store, f, config, rules[|rules| - 1], info, variables, useCache, now).0;
    assert RuleOutcomes(store, files, config, rules, info, variables, useCache, now).0 == outcomes + [o];
    if i < |rules| - 1 {
      OutcomeKinds(store, files, config, prefix, info, variables, useCache, now, i);
      assert prefix[i] == rules[i];
    }
  }

  /** The rules up to `i + 1` are those up to `i`, then rule `i` on the cache they leave. */
  lemma RuleOutcomesStep(store: Store, files: map<string, CacheEntry<string>>, config: Json, rules: seq<Json>,
                         info: ProjectInfo, variables: seq<(string, string)>, useCache: bool, now: int, i: nat)
    requires i < |rules|
    ensures var (os, f) := RuleOutcomes(store, files, config, rules[..i], info, variables, useCache, now);
      var (o, f') := RuleOutcomeOf(store, f, config, rules[i], info, variables, useCache, now);
      RuleOutcomes(store, files, config, rules[..i + 1], info, variables, useCache, now) == (os + [o], f')
  {
    assert rules[..i + 1][..i] == rules[..i];
    assert rules[..i + 1][i] == rules[i];
  }

  /** Without the cache, each rule's outcome depends on that rule alone. */
  lemma {:induction false} RulesIndependent(store: Store, files: map<string, CacheEntry<string>>, config: Json,
                                            rules: seq<Json>, info: ProjectInfo, variables: seq<(string, string)>,
                                            now: int, i: nat)
    requires i < |rules|
    ensures RuleOutcomes(store, files, config, rules, info, variables, false, now).1 == files
    ensures RuleOutcomes(store, files, config, rules, info, variables, false, now).0[i]
      == RuleOutcomeOf(store, files, config, rules[i], info, variables, false, now).0
    decreases |rules|
  {
    var prefix := rules[..|rules| - 1];
    NoCacheRuleOutcomes(store, files, config, prefix, info, variables, now);
    var o := RuleOutcomeOf(store, files, config, rules[|rules| - 1], info, variables, false, now);
    NoCacheRuleOutcome(store, files, config, rules[|rules| - 1], info, variables, now);
    if i < |rules| - 1 {
      RulesIndependent(store, files, config, prefix, info, variables, now, i);
      assert prefix[i] == rules[i];
    }
  }

  lemma NoCacheRuleOutcome(store: Store, files: map<string, CacheEntry<string>>, config: Json, rule: Json,
                           info: ProjectInfo, variables: seq<(string, string)>, now: int)
    ensures RuleOutcomeOf(store, files, config, rule, info, variables, false, now).1 == files
  {
    var file := Field(rule, "file");
    if file.Some? && file.value.JStr? {
      RuleWithoutCache(store, files, file.value.s, now);
    }
  }

  lemma {:induction false} NoCacheRuleOutcomes(store: Store, files: map<string, CacheEntry<string>>, config: Json,
                                               rules: seq<Json>, info: ProjectInfo, variables: seq<(string, string)>, now: int)
    ensures RuleOutcomes(store, files, config, rules, info, variables, false, now).1 == files
    decreases |rules|
  {
    if rules != [] {
      NoCacheRuleOutcomes(store, files, config, rules[..|rules| - 1], info, variables, now);
      NoCacheRuleOutcome(store, files, config, rules[|rules| - 1], info, variables, now);
    }
  }

  // ---------------------------------------------------------------- summing up

  function Warnings(os: seq<RuleOutcome>): seq<string>
    decreases |os|
  {
    if os == [] then []
    else Warnings(os[..|os| - 1]) + (if os[|os| - 1].Skipped? then [os[|os| - 1].warning] else [])
  }

  function Files(os: seq<RuleOutcome>): seq<GeneratedFile>
    decreases |os|
  {
    if os == [] then []
    else Files(os[..|os| - 1]) + (if os[|os| - 1].Generated? then [os[|os| - 1].file] else [])
  }

  /** The errors the rules' `catch` blocks push, as they happen. */
  function Failures(os: seq<RuleOutcome>): seq<string>
    decreases |os|
  {
    if os == [] then []
    else Failures(os[..|os| - 1]) + (if os[|os| - 1].Failed? then [os[|os| - 1].error] else [])
  }

  /** The errors pushed for rejected promises, after all have settled. */
  function Rejections(os: seq<RuleOutcome>): seq<string>
    decreases |os|
  {
    if os == [] then []
    else Rejections(os[..|os| - 1]) + (if os[|os| - 1].Rejected? then ["规则处理失败: " + os[|os| - 1].reason] else [])
  }

  /** Appending one outcome extends each of the four lists by that outcome's entry, if any. */
  lemma SummariesStep(os: seq<RuleOutcome>, o: RuleOutcome)
    ensures Warnings(os + [o]) == Warnings(os) + (if o.Skipped? then [o.warning] else [])
    ensures Failures(os + [o]) == Failures(os) + (if o.Failed? then [o.error] else [])
    ensures Files(os + [o]) == Files(os) + (if o.Generated? then [o.file] else [])
    ensures Rejections(os + [o]) == Rejections(os) + (if o.Rejected? then ["规则处理失败: " + o.reason] else [])
  {
    assert (os + [o])[..|os|] == os;
  }

  /** Every rule adds exactly one entry: a file, a warning or an error. */
  lemma {:induction false} OutcomesCounted(os: seq<RuleOutcome>)
    ensures |Files(os)| + |Warnings(os)| + |Failures(os)| + |Rejections(os)| == |os|
    ensures Failures(os) + Rejections(os) == [] <==> forall i :: 0 <= i < |os| ==> os[i].Skipped? || os[i].Generated?
    decreases |os|
  {
    if os != [] {
      var prefix := os[..|os| - 1];
      OutcomesCounted(prefix);
      assert forall i :: 0 <= i < |prefix| ==> prefix[i] == os[i];
      var last := os[|os| - 1];
      if Failures(os) + Rejections(os) == [] {
        assert |Failures(os)| == 0 && |Rejections(os)| == 0;
        assert Failures(prefix) + Rejections(prefix) == [];
      }
    }
  }

  /**
   * What every result promises: it succeeded exactly when it has no errors,
   * its error list is never empty, its file count is its files' and a
   * success scores 100.
   */
  predicate Summarized(r: ProcessResult, elapsed: int)
  {
    && (r.success <==> r.errors.None?)
    && (r.errors.Some? ==> r.errors.value != [])
    && r.metadata.filesGenerated == |r.files|
    && r.metadata.processTime == elapsed
    && (r.success ==> r.metadata.compatibilityScore == 100)
  }

  function Aggregate(config: Json, vars: Vars, os: seq<RuleOutcome>, elapsed: int): (r: ProcessResult)
    ensures Summarized(r, elapsed)
    ensures r.files == Files(os) && r.variables == vars
  {
    var files := Files(os);
    var errors := Failures(os) + Rejections(os);
    var warnings := Warnings(os);
    ProcessResult(
      |errors| == 0, files, vars,
      if |errors| > 0 then Some(errors) else None,
      if |warnings| > 0 then Some(warnings) else None,
      ProcessMetadata(Field(config, "id"), Field(config, "version"), elapsed, |files|, 100))
  }

  /** The result of the outer `catch`. */
  function FailureResult(templateId: string, error: string, elapsed: int): (r: ProcessResult)
    ensures Summarized(r, elapsed) && !r.success && r.files == [] && r.metadata.compatibilityScore == 0
  {
    ProcessResult(
      false, [], [], Some(["处理模板失败: " + error]), None,
      ProcessMetadata(Some(JStr(templateId)), Some(JStr("未知")), elapsed, 0, 0))
  }

  /** The TypeError of `config.rules.map` when `rules` is not an array. */
  function RulesMapError(rules: Option<Json>): string
  {
    if rules.None? then "TypeError: Cannot read properties of undefined (reading 'map')"
    else if rules.value.JNull? then NullAccess("map")
    else "TypeError: config.rules.map is not a function"
  }

  /**
   * `processTemplate(templateId, projectInfo, globalVariables, options)`
   * on the cache's two maps: the result and both maps afterwards.
   */
  function ProcessTemplateOf(store: Store, templates: map<string, CacheEntry<Json>>, files: map<string, CacheEntry<string>>,
                             templateId: string, info: ProjectInfo, user: seq<(string, Json)>,
                             options: LoadOptions, now: int, elapsed: int, env: Environment)
    : (r: (ProcessResult, map<string, CacheEntry<Json>>, map<string, CacheEntry<string>>))
    ensures Summarized(r.0, elapsed)
    ensures r.1 == LoadConfig(store, templates, templateId, options, now).1
  {
    var (loaded, t) := LoadConfig(store, templates, templateId, options, now);
    match loaded
    case Err(e) => (FailureResult(templateId, e.ToString(), elapsed), t, files)
    case Ok(config) =>
      if config.JNull? then (FailureResult(templateId, NullAccess("variables"), elapsed), t, files)
      else
        match MergedVariables(Or(Field(config, "variables"), JObj([])), user)
        case Err(e) => (FailureResult(templateId, e, elapsed), t, files)
        case Ok(vars) =>
          var rules := Field(config, "rules");
          if !(rules.Some? && rules.value.JArr?) then (FailureResult(templateId, RulesMapError(rules), elapsed), t, files)
          else
            // `globalConfig: {}`
            var variables := VariableMap(info, vars, JObj([]), env.cwd, env.iso, env.year);
            var (os, f) := RuleOutcomes(store, files, config, rules.value.items, info, variables, options.useCache, now);
            (Aggregate(config, vars, os, elapsed), t, f)
  }

  // ---------------------------------------------------------------- properties of a run

  /** The rules are processed with an empty global configuration, so the preferred language is `zh`. */
  lemma PreferredLanguageIsZh(info: ProjectInfo, vars: Vars, env: Environment)
    ensures Lookup(VariableMap(info, vars, JObj([]), env.cwd, env.iso, env.year), "PREFERRED_LANGUAGE") == Some("zh")
  {
    LateVariables(info, vars, JObj([]), env.cwd, env.iso, env.year);
    assert Field(JObj([]), "language") == None;
  }

  /** A configuration that fails to load gives no files, score 0 and version `未知`. */
  lemma LoadFailureResult(store: Store, templates: map<string, CacheEntry<Json>>, files: map<string, CacheEntry<string>>,
                          templateId: string, info: ProjectInfo, user: seq<(string, Json)>,
                          options: LoadOptions, now: int, elapsed: int, env: Environment)
    requires LoadConfig(store, templates, templateId, options, now).0.Err?
    ensures var r := ProcessTemplateOf(store, templates, files, templateId, info, user, options, now, elapsed, env);
      && !r.0.success && r.0.files == [] && r.0.variables == []
      && r.0.errors == Some(["处理模板失败: " + LoadConfig(store, templates, templateId, options, now).0.error.ToString()])
      && r.0.metadata == ProcessMetadata(Some(JStr(templateId)), Some(JStr("未知")), elapsed, 0, 0)
      && r.2 == files
  {
  }

  /**
   * When the rules are processed, each adds one entry: skipped rules a
   * warning only, rules that throw an error only; the run succeeds exactly
   * when every rule was skipped or generated a file.
   */
  lemma RulesAccounted(store: Store, files: map<string, CacheEntry<string>>, config: Json, vars: Vars, rules: seq<Json>,
                       info: ProjectInfo, variables: seq<(string, string)>, useCache: bool, now: int, elapsed: int)
    ensures var os := RuleOutcomes(store, files, config, rules, info, variables, useCache, now).0;
      var r := Aggregate(config, vars, os, elapsed);
      && |r.files| + |Warnings(os)| + |Failures(os) + Rejections(os)| == |rules|
      && (r.success <==> forall i :: 0 <= i < |os| ==> os[i].Skipped? || os[i].Generated?)
      && (r.success ==> forall i :: 0 <= i < |rules| ==> !rules[i].JNull?)
  {
    var os := RuleOutcomes(store, files, config, rules, info, variables, useCache, now).0;
    OutcomesCounted(os);
    forall i | 0 <= i < |rules|
      ensures os[i].Rejected? <==> rules[i].JNull?
    {
      OutcomeKinds(store, files, config, rules, info, variables, useCache, now, i);
    }
  }

  // ---------------------------------------------------------------- the run as methods

  /** One rule's async function. */
  method ProcessRule(store: Store, cache: TemplateCache, config: Json, rule: Json, info: ProjectInfo,
                     variables: seq<(string, string)>, useCache: bool, now: int) returns (o: RuleOutcome)
    modifies cache
    ensures (o, cache.files) == RuleOutcomeOf(store, old(cache.files), config, rule, info, variables, useCache, now)
    ensures cache.templates == old(cache.templates)
  {
    if rule.JNull? {
      return Rejected(NullAccess("name"));
    }
    var name := ToJsString(Field(rule, "name"));
    var condition := Field(rule, "condition");
    if SkipsRule(condition, info) {
      return Skipped("跳过规则 " + name + "：不满足条件 " + JsString(condition.value));
    }
    var file := Field(rule, "file");
    if !(file.Some? && file.value.JStr?) {
      return Failed("处理规则失败 " + name + ": " + PathTypeError);
    }
    var loaded := LoadRuleFile(store, cache, file.value.s, useCache, now);
    if loaded.Err? {
      return Failed("处理规则失败 " + name + ": " + loaded.error.ToString());
    }
    var content := ReplaceVariables(loaded.value, variables);
    return Generated(GeneratedFile(OutputPath(config, file.value.s), content, "utf-8"));
  }

  /** One turn of the rule loop: rule `i` after the rules before it. */
  method RunRule(store: Store, cache: TemplateCache, config: Json, rules: seq<Json>, info: ProjectInfo,
                 variables: seq<(string, string)>, useCache: bool, now: int, ghost files: map<string, CacheEntry<string>>,
                 i: nat, outcomes: seq<RuleOutcome>, warnings: seq<string>, errors: seq<string>)
    returns (outcomes': seq<RuleOutcome>, warnings': seq<string>, errors': seq<string>)
    requires i < |rules|
    requires (outcomes, cache.files) == RuleOutcomes(store, files, config, rules[..i], info, variables, useCache, now)
    requires warnings == Warnings(outcomes) && errors == Failures(outcomes)
    modifies cache
    ensures (outcomes', cache.files) == RuleOutcomes(store, files, config, rules[..i + 1], info, variables, useCache, now)
    ensures warnings' == Warnings(outcomes') && errors' == Failures(outcomes')
    ensures cache.templates == old(cache.templates)
  {
    RuleOutcomesStep(store, files, config, rules, info, variables, useCache, now, i);
    var o := ProcessRule(store, cache, config, rules[i], info, variables, useCache, now);
    SummariesStep(outcomes, o);
    outcomes' := outcomes + [o];
    warnings' := if o.Skipped? then warnings + [o.warning] else warnings;
    errors' := if o.Failed? then errors + [o.error] else errors;
  }

  /**
   * `config.rules.map(...)`: the rules one after the other, with the
   * warnings and errors their functions push.
   */
  method RunRules(store: Store, cache: TemplateCache, config: Json, rules: seq<Json>, info: ProjectInfo,
                  variables: seq<(string, string)>, useCache: bool, now: int)
    returns (outcomes: seq<RuleOutcome>, warnings: seq<string>, errors: seq<string>)
    modifies cache
    ensures (outcomes, cache.files) == RuleOutcomes(store, old(cache.files), config, rules, info, variables, useCache, now)
    ensures warnings == Warnings(outcomes) && errors == Failures(outcomes)
    ensures cache.templates == old(cache.templates)
  {
    outcomes, warnings, errors := [], [], [];
    var i := 0;
    while i < |rules|
      invariant 0 <= i <= |rules|
      invariant (outcomes, cache.files) == RuleOutcomes(store, old(cache.files), config, rules[..i], info, variables, useCache, now)
      invariant warnings == Warnings(outcomes) && errors == Failures(outcomes)
      invariant cache.templates == old(cache.templates)
    {
      outcomes, warnings, errors :=
        RunRule(store, cache, config, rules, info, variables, useCache, now, old(cache.files), i, outcomes, warnings, errors);
      i := i + 1;
    }
    assert rules[..i] == rules;
  }

  /** The `allSettled` loop: fulfilled files in order, then the rejections appended to the errors. */
  method Settle(outcomes: seq<RuleOutcome>, failures: seq<string>) returns (files: seq<GeneratedFile>, errors: seq<string>)
    ensures files == Files(outcomes) && errors == failures + Rejections(outcomes)
  {
    files, errors := [], failures;
    var j := 0;
    while j < |outcomes|
      invariant 0 <= j <= |outcomes|
      invariant files == Files(outcomes[..j]) && errors == failures + Rejections(outcomes[..j])
    {
      assert outcomes[..j + 1] == outcomes[..j] + [outcomes[j]];
      SummariesStep(outcomes[..j], outcomes[j]);
      if outcomes[j].Generated? {
        files := files + [outcomes[j].file];
      } else if outcomes[j].Rejected? {
        errors := errors + ["规则处理失败: " + outcomes[j].reason];
      }
      j := j + 1;
    }
    assert outcomes[..j] == outcomes;
  }

  /** The rules and the summary, after the variables are merged. */
  method ProcessRules(store: Store, cache: TemplateCache, config: Json, vars: Vars, rules: seq<Json>, info: ProjectInfo,
                      variables: seq<(string, string)>, useCache: bool, now: int, elapsed: int)
    returns (r: ProcessResult)
    modifies cache
    ensures var (os, f) := RuleOutcomes(store, old(cache.files), config, rules, info, variables, useCache, now);
      r == Aggregate(config, vars, os, elapsed) && cache.files == f
    ensures cache.templates == old(cache.templates)
  {
    var outcomes, warnings, failures := RunRules(store, cache, config, rules, info, variables, useCache, now);
    var files, errors := Settle(outcomes, failures);
    r := ProcessResult(
      |errors| == 0, files, vars,
      if |errors| > 0 then Some(errors) else None,
      if |warnings| > 0 then Some(warnings) else None,
      ProcessMetadata(Field(config, "id"), Field(config, "version"), elapsed, |files|, 100));
  }

  method ProcessTemplate(store: Store, cache: TemplateCache, templateId: string, info: ProjectInfo,
                         user: seq<(string, Json)>, options: LoadOptions, now: int, elapsed: int, env: Environment)
    returns (r: ProcessResult)
    modifies cache
    ensures (r, cache.templates, cache.files)
      == ProcessTemplateOf(store, old(cache.templates), old(cache.files), templateId, info, user, options, now, elapsed, env)
  {
    var loaded := LoadTemplateConfig(store, cache, templateId, options, now);
    if loaded.Err? {
      return FailureResult(templateId, loaded.error.ToString(), elapsed);
    }
    var config := loaded.value;
    if config.JNull? {
      return FailureResult(templateId, NullAccess("variables"), elapsed);
    }
    var merged := MergeVariables(Or(Field(config, "variables"), JObj([])), user);
    if merged.Err? {
      return FailureResult(templateId, merged.error, elapsed);
    }
    var rules := Field(config, "rules");
    if !(rules.Some? && rules.value.JArr?) {
      return FailureResult(templateId, RulesMapError(rules), elapsed);
    }
    var variables := VariableMap(info, merged.value, JObj([]), env.cwd, env.iso, env.year);
    r := ProcessRules(store, cache, config, merged.value, rules.value.items, info, variables, options.useCache, now, elapsed);
  }
}
