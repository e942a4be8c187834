/**
 * The rule generator: runs templates into a rules directory, adds one
 * template with a collision check, checks the directory layout and
 * recommends templates. The filesystem is a set of directories and a map
 * of written files; template processing and configuration loading are
 * function parameters.
 */
module Generator {
  import opened Wrappers
  import opened Json
  import opened Text
  import opened Project
  import opened Validation
  import opened Process

  datatype RuleContext = RuleContext(projectRoot: string, projectInfo: ProjectInfo, rulesDir: string, config: GlobalConfig)

  /** `generateRulesFromTemplate(templateId, projectInfo, variables)`, for the context's project. */
  type Processor = (string, seq<(string, Json)>) -> ProcessResult

  /** `getTemplateConfiguration(templateId)`: a configuration, or the message of what it threw. */
  type ConfigSource = string -> Result<Json, string>

  /** `path.join(dir, name)` for a relative `name` (no normalisation of `.` or `..`). */
  function JoinPath(dir: string, name: string): string
  {
    dir + "/" + name
  }

  /** `existsSync(p)`. */
  predicate PathExists(dirs: set<string>, files: map<string, string>, p: string)
  {
    p in dirs || p in files
  }

  class Disk {
    var dirs: set<string>
    var files: map<string, string>

    constructor(dirs: set<string>, files: map<string, string>)
      ensures this.dirs == dirs && this.files == files
    {
      this.dirs := dirs;
      this.files := files;
    }

    method EnsureDir(p: string)
      modifies this
      ensures dirs == old(dirs) + {p} && files == old(files)
    {
      dirs := dirs + {p};
    }

    method WriteFile(p: string, content: string)
      modifies this
      ensures files == old(files)[p := content] && dirs == old(dirs)
    {
      files := files[p := content];
    }
  }

  // ---------------------------------------------------------------- one template

  /** `customTemplatePath` when it is set to a truthy value. */
  function CustomPath(config: GlobalConfig): Option<Json>
  {
    if "customTemplatePath" in config && Truthy(config["customTemplatePath"]) then Some(config["customTemplatePath"]) else None
  }

  /** The variables the generator passes on top of the template's own. */
  function InjectedVariables(context: RuleContext): seq<(string, Json)>
  {
    var info := context.projectInfo;
    [("PACKAGE_MANAGER", JStr(info.packageManager.Name())),
     ("TARGET_VERSION", JStr(if Truthy(info.hasTypeScript) then "ES2022" else "ES2020")),
     ("RUNTIME", JStr(if info.projectType == Node then "Node.js" else "Browser"))]
    + (match CustomPath(context.config) case Some(p) => [("CUSTOM_PATH", p)] case None => [])
  }

  /**
   * The package manager is passed as it is; the target is ES2022 exactly
   * for TypeScript projects, the runtime Node.js exactly for node projects;
   * `CUSTOM_PATH` is there only when a custom template path is set.
   */
  lemma InjectedVariablesMeaning(context: RuleContext)
    ensures var vs := InjectedVariables(context);
      && Lookup(vs, "PACKAGE_MANAGER") == Some(JStr(context.projectInfo.packageManager.Name()))
      && (Lookup(vs, "TARGET_VERSION") == Some(JStr("ES2022")) <==> Truthy(context.projectInfo.hasTypeScript))
      && (Lookup(vs, "TARGET_VERSION") == Some(JStr("ES2020")) <==> !Truthy(context.projectInfo.hasTypeScript))
      && (Lookup(vs, "RUNTIME") == Some(JStr("Node.js")) <==> context.projectInfo.projectType == Node)
      && (Lookup(vs, "RUNTIME") == Some(JStr("Browser")) <==> context.projectInfo.projectType != Node)
      && Lookup(vs, "CUSTOM_PATH") == CustomPath(context.config)
      && ("CUSTOM_PATH" in Keys(vs) <==> "customTemplatePath" in context.config && Truthy(context.config["customTemplatePath"]))
  {
    var vs := InjectedVariables(context);
    var info := context.projectInfo;
    var tv := if Truthy(info.hasTypeScript) then "ES2022" else "ES2020";
    var rt := if info.projectType == Node then "Node.js" else "Browser";
    var extra: seq<(string, Json)> := match CustomPath(context.config) case Some(p) => [("CUSTOM_PATH", p)] case None => [];
    assert vs == [("PACKAGE_MANAGER", JStr(info.packageManager.Name())), ("TARGET_VERSION", JStr(tv)), ("RUNTIME", JStr(rt))] + extra;
    assert vs[1..][1..][1..] == extra;
    assert Lookup(vs, "PACKAGE_MANAGER") == Some(JStr(info.packageManager.Name()));
    assert Lookup(vs, "TARGET_VERSION") == Lookup(vs[1..], "TARGET_VERSION") == Some(JStr(tv));
    assert Lookup(vs, "RUNTIME") == Lookup(vs[1..][1..], "RUNTIME") == Some(JStr(rt));
    assert Lookup(vs, "CUSTOM_PATH") == Lookup(vs[1..], "CUSTOM_PATH");
    assert Lookup(vs[1..], "CUSTOM_PATH") == Lookup(vs[1..][1..], "CUSTOM_PATH");
    assert Lookup(vs[1..][1..], "CUSTOM_PATH") == Lookup(extra, "CUSTOM_PATH");
  }

  /** The message thrown when processing did not succeed. */
  function FailureMessage(result: ProcessResult): string
  {
    "Template processing failed: " + (if result.errors.Some? then Join(result.errors.value, ", ") else "undefined")
  }

  /** The files after writing each generated file at `dir/file.path`, in order. */
  function Written(files: map<string, string>, dir: string, gs: seq<GeneratedFile>): (r: map<string, string>)
    ensures r.Keys == files.Keys + (set g | g in gs :: JoinPath(dir, g.path))
    ensures gs != [] ==> r[JoinPath(dir, gs[|gs| - 1].path)] == gs[|gs| - 1].content
    ensures forall p :: p in files && p !in (set g | g in gs :: JoinPath(dir, g.path)) ==> r[p] == files[p]
    decreases |gs|
  {
    if gs == [] then files
    else
      var prefix := gs[..|gs| - 1];
      var last := gs[|gs| - 1];
      assert gs == prefix + [last];
      assert (set g | g in gs :: JoinPath(dir, g.path)) == (set g | g in prefix :: JoinPath(dir, g.path)) + {JoinPath(dir, last.path)};
      Written(files, dir, prefix)[JoinPath(dir, last.path) := last.content]
  }

  lemma WrittenStep(files: map<string, string>, dir: string, gs: seq<GeneratedFile>, i: nat)
    requires i < |gs|
    ensures Written(files, dir, gs[..i + 1]) == Written(files, dir, gs[..i])[JoinPath(dir, gs[i].path) := gs[i].content]
  {
    assert gs[..i + 1][..i] == gs[..i];
  }

  /** `generateRulesFromTemplateNew(context, templateId)` on the written files. */
  function FromTemplate(context: RuleContext, templateId: string, processor: Processor, files: map<string, string>)
    : (r: Result<map<string, string>, string>)
    ensures r.Err? <==> !processor(templateId, InjectedVariables(context)).success
    ensures r.Ok? ==> r.value == Written(files, context.rulesDir, processor(templateId, InjectedVariables(context)).files)
    ensures r.Err? ==> r.error == FailureMessage(processor(templateId, InjectedVariables(context)))
  {
    var result := processor(templateId, InjectedVariables(context));
    if !result.success then Err(FailureMessage(result))
    else Ok(Written(files, context.rulesDir, result.files))
  }

  method GenerateFromTemplate(context: RuleContext, templateId: string, processor: Processor, disk: Disk)
    returns (r: Result<(), string>)
    modifies disk
    ensures match FromTemplate(context, templateId, processor, old(disk.files))
      case Err(e) => r == Err(e) && disk.files == old(disk.files)
      case Ok(f) => r == Ok(()) && disk.files == f
    ensures disk.dirs == old(disk.dirs)
  {
    var result := processor(templateId, InjectedVariables(context));
    if !result.success {
      return Err(FailureMessage(result));
    }
    var i := 0;
    while i < |result.files|
      invariant 0 <= i <= |result.files|
      invariant disk.files == Written(old(disk.files), context.rulesDir, result.files[..i])
      invariant disk.dirs == old(disk.dirs)
    {
      WrittenStep(old(disk.files), context.rulesDir, result.files, i);
      disk.WriteFile(JoinPath(context.rulesDir, result.files[i].path), result.files[i].content);
      i := i + 1;
    }
    assert result.files[..i] == result.files;
    r := Ok(());
  }

  // ---------------------------------------------------------------- all templates

  predicate Succeeds(context: RuleContext, processor: Processor, templateId: string)
  {
    processor(templateId, InjectedVariables(context)).success
  }

  /** The ids in order whose processing succeeds (`outcome`) or fails (`!outcome`). */
  function Sorted(context: RuleContext, processor: Processor, ids: seq<string>, outcome: bool): (r: seq<string>)
    ensures forall id :: id in r ==> id in ids && Succeeds(context, processor, id) == outcome
    decreases |ids|
  {
    if ids == [] then []
    else
      var last := ids[|ids| - 1];
      Sorted(context, processor, ids[..|ids| - 1], outcome) + (if Succeeds(context, processor, last) == outcome then [last] else [])
  }

  /** The loop of `generateRules`: successful ids, failed ids and the written files. */
  function Generation(context: RuleContext, templates: seq<string>, processor: Processor, files: map<string, string>)
    : (seq<string>, seq<string>, map<string, string>)
    decreases |templates|
  {
    if templates == [] then ([], [], files)
    else
      var (ok, failed, f) := Generation(context, templates[..|templates| - 1], processor, files);
      var id := templates[|templates| - 1];
      if Succeeds(context, processor, id)
      then (ok + [id], failed, Written(f, context.rulesDir, processor(id, InjectedVariables(context)).files))
      else (ok, failed + [id], f)
  }

  /** Each id is sorted into exactly one of the two lists. */
  lemma {:induction false} SortedPartition(context: RuleContext, processor: Processor, ids: seq<string>)
    ensures multiset(Sorted(context, processor, ids, true)) + multiset(Sorted(context, processor, ids, false)) == multiset(ids)
    decreases |ids|
  {
    if ids != [] {
      var prefix := ids[..|ids| - 1];
      var last := ids[|ids| - 1];
      SortedPartition(context, processor, prefix);
      PartitionStep(Sorted(context, processor, prefix, true), Sorted(context, processor, prefix, false),
                    prefix, last, Succeeds(context, processor, last));
      assert ids == prefix + [last];
    }
  }

  /** Adding `x` to one side of a partition of `prefix` partitions `prefix + [x]`. */
  lemma PartitionStep<T>(yes: seq<T>, no: seq<T>, prefix: seq<T>, x: T, c: bool)
    requires multiset(yes) + multiset(no) == multiset(prefix)
    ensures multiset(yes + (if c then [x] else [])) + multiset(no + (if c then [] else [x])) == multiset(prefix + [x])
  {
  }

  /**
   * Every requested id lands in exactly one list, keeping request order:
   * the successful list is the ids that succeed, the failed list the rest,
   * and no failure stops a later id.
   */
  lemma {:induction false} GenerationSorts(context: RuleContext, templates: seq<string>, processor: Processor,
                                           files: map<string, string>)
    ensures var (ok, failed, _) := Generation(context, templates, processor, files);
      && ok == Sorted(context, processor, templates, true)
      && failed == Sorted(context, processor, templates, false)
      && multiset(ok) + multiset(failed) == multiset(templates)
    decreases |templates|
  {
    SortedPartition(context, processor, templates);
    if templates != [] {
      var prefix := templates[..|templates| - 1];
      var id := templates[|templates| - 1];
      GenerationSorts(context, prefix, processor, files);
      var (ok, failed, f) := Generation(context, prefix, processor, files);
      assert Generation(context, templates, processor, files).0 == ok + (if Succeeds(context, processor, id) then [id] else []);
      assert Generation(context, templates, processor, files).1 == failed + (if Succeeds(context, processor, id) then [] else [id]);
      assert Sorted(context, processor, templates, true) == Sorted(context, processor, prefix, true)
        + (if Succeeds(context, processor, id) then [id] else []);
      assert Sorted(context, processor, templates, false) == Sorted(context, processor, prefix, false)
        + (if Succeeds(context, processor, id) then [] else [id]);
    }
  }

  /** The dependency section of `ai.mdc`, one `- name` line per entry or the placeholder. */
  function DependencyList(deps: seq<string>, placeholder: string): string
  {
    if |deps| > 0 then Join(seq(|deps|, i requires 0 <= i < |deps| => "- " + deps[i]), "\n") else placeholder
  }

  /** Line `i` of a nonempty dependency section names dependency `i`. */
  lemma DependencyLines(deps: seq<string>, placeholder: string)
    requires forall i :: 0 <= i < |deps| ==> '\n' !in deps[i]
    ensures |deps| == 0 ==> DependencyList(deps, placeholder) == placeholder
    ensures |deps| > 0 ==>
      var lines := Split(DependencyList(deps, placeholder), Literal("\n")).0;
      |lines| == |deps| && forall i :: 0 <= i < |deps| ==> lines[i] == "- " + deps[i]
  {
    if |deps| > 0 {
      var bullets := seq(|deps|, i requires 0 <= i < |deps| => "- " + deps[i]);
      forall i | 0 <= i < |bullets| ensures '\n' !in bullets[i] {
        assert bullets[i] == "- " + deps[i];
      }
      SplitJoin(bullets, '\n');
    }
  }

  /** What the model keeps of `ai.mdc`: its two dependency sections. */
  function ProtocolDependencies(info: ProjectInfo): string
  {
    "**依赖关系**:\n" + DependencyList(info.dependencies, "- 无主要依赖")
    + "\n\n**开发依赖**:\n" + DependencyList(info.devDependencies, "- 无开发依赖")
  }

  function LayoutDirs(rulesDir: string): set<string>
  {
    {rulesDir, JoinPath(rulesDir, "basic"), JoinPath(rulesDir, "module"), JoinPath(rulesDir, "workflow")}
  }

  /** `validateRules(rulesDir)`: the three category directories and `ai.mdc` exist. */
  function ValidateRules(dirs: set<string>, files: map<string, string>, rulesDir: string): (ok: bool)
    ensures ok <==> forall d :: d in ["basic", "module", "workflow", "ai.mdc"] ==> PathExists(dirs, files, JoinPath(rulesDir, d))
  {
    PathExists(dirs, files, JoinPath(rulesDir, "basic"))
    && PathExists(dirs, files, JoinPath(rulesDir, "module"))
    && PathExists(dirs, files, JoinPath(rulesDir, "workflow"))
    && PathExists(dirs, files, JoinPath(rulesDir, "ai.mdc"))
  }

  /**
   * `generateRules(context, templates)`. Afterwards the rules directory
   * passes `validateRules`, whatever the templates did.
   */
  method GenerateRules(context: RuleContext, templates: seq<string>, processor: Processor, disk: Disk)
    returns (successful: seq<string>, failed: seq<string>)
    modifies disk
    ensures disk.dirs == old(disk.dirs) + LayoutDirs(context.rulesDir)
    ensures var (ok, bad, f) := Generation(context, templates, processor, old(disk.files));
      && successful == ok && failed == bad
      && disk.files == f[JoinPath(context.rulesDir, "ai.mdc") := ProtocolDependencies(context.projectInfo)]
    ensures ValidateRules(disk.dirs, disk.files, context.rulesDir)
  {
    var dir := context.rulesDir;
    disk.EnsureDir(dir);
    disk.EnsureDir(JoinPath(dir, "basic"));
    disk.EnsureDir(JoinPath(dir, "module"));
    disk.EnsureDir(JoinPath(dir, "workflow"));
    ghost var start := disk.files;
    assert start == old(disk.files);
    successful, failed := [], [];
    var i := 0;
    while i < |templates|
      invariant 0 <= i <= |templates|
      invariant (successful, failed, disk.files) == Generation(context, templates[..i], processor, start)
      invariant disk.dirs == old(disk.dirs) + LayoutDirs(dir)
    {
      assert templates[..i + 1][..i] == templates[..i];
      var r := GenerateFromTemplate(context, templates[i], processor, disk);
      if r.Ok? {
        successful := successful + [templates[i]];
      } else {
        failed := failed + [templates[i]];
      }
      i := i + 1;
    }
    assert templates[..i] == templates;
    disk.WriteFile(JoinPath(dir, "ai.mdc"), ProtocolDependencies(context.projectInfo));
  }

  // ---------------------------------------------------------------- one rule added

  /** The path `addRule` checks for a rule, `category/basename(file)`, or the TypeError building it throws. */
  function CheckedPath(rule: Json): Result<string, string>
  {
    if rule.JNull? then Err(NullAccess("category"))
    else
      var file := Field(rule, "file");
      if !(file.Some? && file.value.JStr?) then Err(PathTypeError)
      else Ok(ToJsString(Field(rule, "category")) + "/" + Basename(file.value.s))
  }

  /** The pre-check loop over the rules, stopping at the first path that exists. */
  function Collision(dirs: set<string>, files: map<string, string>, rulesDir: string, rules: seq<Json>)
    : (r: Result<(), string>)
    decreases |rules|
  {
    if rules == [] then Ok(())
    else
      match CheckedPath(rules[0])
      case Err(e) => Err(e)
      case Ok(p) =>
        if PathExists(dirs, files, JoinPath(rulesDir, p)) then Err("规则文件已存在: " + p)
        else Collision(dirs, files, rulesDir, rules[1..])
  }

  predicate Clear(dirs: set<string>, files: map<string, string>, rulesDir: string, rule: Json)
  {
    CheckedPath(rule).Ok? && !PathExists(dirs, files, JoinPath(rulesDir, CheckedPath(rule).value))
  }

  /** The pre-check passes exactly when every rule's path can be built and does not exist. */
  lemma {:induction false} CollisionFree(dirs: set<string>, files: map<string, string>, rulesDir: string, rules: seq<Json>)
    ensures Collision(dirs, files, rulesDir, rules).Ok? <==> forall i :: 0 <= i < |rules| ==> Clear(dirs, files, rulesDir, rules[i])
    decreases |rules|
  {
    if rules != [] {
      CollisionFree(dirs, files, rulesDir, rules[1..]);
      AllClearCons(dirs, files, rulesDir, rules);
    }
  }

  predicate AllClear(dirs: set<string>, files: map<string, string>, rulesDir: string, rules: seq<Json>)
  {
    forall i :: 0 <= i < |rules| ==> Clear(dirs, files, rulesDir, rules[i])
  }

  lemma AllClearCons(dirs: set<string>, files: map<string, string>, rulesDir: string, rules: seq<Json>)
    requires rules != []
    ensures AllClear(dirs, files, rulesDir, rules)
      <==> Clear(dirs, files, rulesDir, rules[0]) && AllClear(dirs, files, rulesDir, rules[1..])
  {
    assert forall i :: 1 <= i < |rules| ==> rules[1..][i - 1] == rules[i];
  }

  /** The error names the first existing path in rule order. */
  lemma {:induction false} CollisionNamesFirst(dirs: set<string>, files: map<string, string>, rulesDir: string,
                                               rules: seq<Json>, k: nat)
    requires k < |rules|
    requires forall j :: 0 <= j < k ==> Clear(dirs, files, rulesDir, rules[j])
    requires CheckedPath(rules[k]).Ok? && PathExists(dirs, files, JoinPath(rulesDir, CheckedPath(rules[k]).value))
    ensures Collision(dirs, files, rulesDir, rules) == Err("规则文件已存在: " + CheckedPath(rules[k]).value)
    decreases k
  {
    if k > 0 {
      assert Clear(dirs, files, rulesDir, rules[0]);
      var tail := rules[1..];
      forall j | 0 <= j < k - 1
        ensures Clear(dirs, files, rulesDir, tail[j])
      {
        assert tail[j] == rules[j + 1];
      }
      assert tail[k - 1] == rules[k];
      CollisionNamesFirst(dirs, files, rulesDir, tail, k - 1);
      assert Collision(dirs, files, rulesDir, rules) == Collision(dirs, files, rulesDir, tail);
    }
  }

  /**
   * What `for (const rule of rules)` iterates: an array's items, a string's
   * characters as one-character strings, nothing for a value that is not iterable.
   */
  function RulesIterated(rules: Option<Json>): (r: Option<seq<Json>>)
    ensures r.Some? <==> rules.Some? && (rules.value.JArr? || rules.value.JStr?)
  {
    if rules.Some? && rules.value.JArr? then Some(rules.value.items)
    else if rules.Some? && rules.value.JStr? then
      var s := rules.value.s;
      Some(seq(|s|, i requires 0 <= i < |s| => JStr([s[i]])))
    else None
  }

  /** `for (const rule of config.rules)` and its check, or the TypeError of a configuration whose rules are not iterable. */
  function PreCheck(dirs: set<string>, files: map<string, string>, rulesDir: string, config: Json): Result<(), string>
  {
    if config.JNull? then Err(NullAccess("rules"))
    else
      match RulesIterated(Field(config, "rules"))
      case None => Err("TypeError: config.rules is not iterable")
      case Some(rules) => Collision(dirs, files, rulesDir, rules)
  }

  /**
   * A string `rules` is iterated character by character: an empty one passes,
   * and otherwise its first character, which has no `file`, makes `path.basename` throw.
   */
  lemma StringRules(dirs: set<string>, files: map<string, string>, rulesDir: string, config: Json, s: string)
    requires Field(config, "rules") == Some(JStr(s))
    ensures PreCheck(dirs, files, rulesDir, config) == if s == [] then Ok(()) else Err(PathTypeError)
  {
    var rules := RulesIterated(Field(config, "rules")).value;
    if s != [] {
      assert rules[0] == JStr([s[0]]);
      assert CheckedPath(rules[0]) == Err(PathTypeError);
    }
  }

  /** `addRule(context, ruleName, force)` on the disk: the new files, or the message it throws. */
  function AddRuleOf(context: RuleContext, ruleName: string, force: bool, configs: ConfigSource, processor: Processor,
                     dirs: set<string>, files: map<string, string>): Result<map<string, string>, string>
  {
    match configs(ruleName)
    case Err(e) => Err(e)
    case Ok(config) =>
      var check := if force then Ok(()) else PreCheck(dirs, files, context.rulesDir, config);
      if check.Err? then Err(check.error) else FromTemplate(context, ruleName, processor, files)
  }

  /** Without `force`, a collision means nothing is generated; with it, no check is made. */
  lemma AddRuleChecksFirst(context: RuleContext, ruleName: string, configs: ConfigSource, processor: Processor,
                           dirs: set<string>, files: map<string, string>)
    requires configs(ruleName).Ok?
    ensures PreCheck(dirs, files, context.rulesDir, configs(ruleName).value).Err? ==>
      AddRuleOf(context, ruleName, false, configs, processor, dirs, files)
        == Err(PreCheck(dirs, files, context.rulesDir, configs(ruleName).value).error)
    ensures AddRuleOf(context, ruleName, true, configs, processor, dirs, files) == FromTemplate(context, ruleName, processor, files)
  {
  }

  method CheckRules(disk: Disk, rulesDir: string, rules: seq<Json>) returns (r: Result<(), string>)
    ensures r == Collision(disk.dirs, disk.files, rulesDir, rules)
  {
    var i := 0;
    while i < |rules|
      invariant 0 <= i <= |rules|
      invariant Collision(disk.dirs, disk.files, rulesDir, rules) == Collision(disk.dirs, disk.files, rulesDir, rules[i..])
    {
      assert rules[i..][1..] == rules[i + 1..];
      var p := CheckedPath(rules[i]);
      if p.Err? {
        return Err(p.error);
      }
      if PathExists(disk.dirs, disk.files, JoinPath(rulesDir, p.value)) {
        return Err("规则文件已存在: " + p.value);
      }
      i := i + 1;
    }
    r := Ok(());
  }

  method AddRule(context: RuleContext, ruleName: string, force: bool, configs: ConfigSource, processor: Processor, disk: Disk)
    returns (r: Result<(), string>)
    modifies disk
    ensures match AddRuleOf(context, ruleName, force, configs, processor, old(disk.dirs), old(disk.files))
      case Err(e) => r == Err(e) && disk.files == old(disk.files)
      case Ok(f) => r == Ok(()) && disk.files == f
    ensures disk.dirs == old(disk.dirs)
  {
    var loaded := configs(ruleName);
    if loaded.Err? {
      return Err(loaded.error);
    }
    var config := loaded.value;
    if !force {
      if config.JNull? {
        return Err(NullAccess("rules"));
      }
      var rules := RulesIterated(Field(config, "rules"));
      if rules.None? {
        return Err("TypeError: config.rules is not iterable");
      }
      var check := CheckRules(disk, context.rulesDir, rules.value);
      if check.Err? {
        return Err(check.error);
      }
    }
    r := GenerateFromTemplate(context, ruleName, processor, disk);
  }

  // ---------------------------------------------------------------- recommendations

  /** `getRecommendedRules(projectInfo)`. */
  method GetRecommendedRules(info: ProjectInfo) returns (templates: seq<string>)
    ensures templates == (if info.projectType in {React, Vue, Node} then [info.projectType.Name()] else [])
      + (if Truthy(info.hasTypeScript) then ["typescript"] else [])
      + (if Truthy(info.hasTests) then ["testing"] else [])
      + ["workflow"]
    ensures templates[|templates| - 1] == "workflow"
    ensures "typescript" in templates <==> Truthy(info.hasTypeScript)
    ensures "testing" in templates <==> Truthy(info.hasTests)
    ensures info.projectType in {React, Vue, Node} <==> info.projectType.Name() in templates
  {
    templates := [];
    match info.projectType {
      case React => templates := templates + ["react"];
      case Vue => templates := templates + ["vue"];
      case Node => templates := templates + ["node"];
      case _ =>
    }
    if Truthy(info.hasTypeScript) {
      templates := templates + ["typescript"];
    }
    if Truthy(info.hasTests) {
      templates := templates + ["testing"];
    }
    templates := templates + ["workflow"];
  }
}
