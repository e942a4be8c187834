/**
 * Project detection: the manifest's dependency sections are merged, and the
 * project type, language, framework, package manager and the TypeScript and
 * test flags are read off the merged map and the files present in the root.
 */
module Detector {
  import opened Wrappers
  import opened Json
  import opened Project

  /** A dependency section as an ordered map from package name to version. */
  type Deps = seq<(string, Json)>

  /** `deps[name]` is truthy. */
  predicate Has(deps: Deps, name: string)
  {
    TruthyOpt(Lookup(deps, name))
  }

  function DetectProjectType(deps: Deps): (t: ProjectType)
    ensures t == Next <==> Has(deps, "react") && Has(deps, "next")
    ensures t == React <==> Has(deps, "react") && !Has(deps, "next")
    ensures t == Nuxt <==> !Has(deps, "react") && Has(deps, "vue") && Has(deps, "nuxt")
    ensures t == Vue <==> !Has(deps, "react") && Has(deps, "vue") && !Has(deps, "nuxt")
    ensures t == Angular <==> !Has(deps, "react") && !Has(deps, "vue") && Has(deps, "@angular/core")
    ensures t == Node <==> (!Has(deps, "react") && !Has(deps, "vue") && !Has(deps, "@angular/core")
      && (Has(deps, "express") || Has(deps, "koa") || Has(deps, "fastify")))
    ensures t != Python && t != Go && t != Rust
  {
    if Has(deps, "react") then (if Has(deps, "next") then Next else React)
    else if Has(deps, "vue") then (if Has(deps, "nuxt") then Nuxt else Vue)
    else if Has(deps, "@angular/core") then Angular
    else if Has(deps, "express") || Has(deps, "koa") || Has(deps, "fastify") then Node
    else Generic
  }

  function DetectLanguage(deps: Deps): (l: string)
    ensures l == "typescript" <==> Has(deps, "typescript") || Has(deps, "@types/node")
    ensures l == "typescript" || l == "javascript"
  {
    if Has(deps, "typescript") || Has(deps, "@types/node") then "typescript" else "javascript"
  }

  /** The framework packages in the order they are tried, with their display names. */
  const FrameworkTable: seq<(string, string)> := [
    ("next", "Next.js"), ("nuxt", "Nuxt.js"), ("react", "React"), ("vue", "Vue.js"),
    ("@angular/core", "Angular"), ("express", "Express"), ("koa", "Koa"), ("fastify", "Fastify")]

  function DetectFramework(deps: Deps): (f: Option<string>)
    ensures f.None? <==> (!Has(deps, "next") && !Has(deps, "nuxt") && !Has(deps, "react") && !Has(deps, "vue")
      && !Has(deps, "@angular/core") && !Has(deps, "express") && !Has(deps, "koa") && !Has(deps, "fastify"))
  {
    if Has(deps, "next") then Some("Next.js")
    else if Has(deps, "nuxt") then Some("Nuxt.js")
    else if Has(deps, "react") then Some("React")
    else if Has(deps, "vue") then Some("Vue.js")
    else if Has(deps, "@angular/core") then Some("Angular")
    else if Has(deps, "express") then Some("Express")
    else if Has(deps, "koa") then Some("Koa")
    else if Has(deps, "fastify") then Some("Fastify")
    else None
  }

  /** Reference definition: the display name of the first package of `table` present in `deps`. */
  function FirstPresent(deps: Deps, table: seq<(string, string)>): (r: Option<string>)
    ensures r.Some? ==> exists i :: (0 <= i < |table| && r.value == table[i].1 && Has(deps, table[i].0)
      && forall j :: 0 <= j < i ==> !Has(deps, table[j].0))
  {
    if table == [] then None
    else if Has(deps, table[0].0) then Some(table[0].1)
    else
      var r := FirstPresent(deps, table[1..]);
      if r.Some? then
        var i :| 0 <= i < |table| - 1 && r.value == table[1..][i].1 && Has(deps, table[1..][i].0)
          && forall j :: 0 <= j < i ==> !Has(deps, table[1..][j].0);
        assert forall j :: 0 <= j < i + 1 ==> !Has(deps, table[j].0) by {
          forall j | 0 <= j < i + 1 ensures !Has(deps, table[j].0) {
            if j > 0 { assert table[j] == table[1..][j - 1]; }
          }
        }
        r
      else r
  }

  /** The framework is the first entry of the table whose package is present. */
  lemma DetectFrameworkFirstMatch(deps: Deps)
    ensures DetectFramework(deps) == FirstPresent(deps, FrameworkTable)
  {
    var t := FrameworkTable;
    var k := 8;
    while k > 0
      invariant 0 <= k <= 8
      invariant FirstPresent(deps, t[k..]) == FirstFrom(deps, k)
    {
      assert t[k - 1..][1..] == t[k..];
      k := k - 1;
    }
  }

  /** The chain of tests `DetectFramework` makes, from the `k`-th one on. */
  function FirstFrom(deps: Deps, k: nat): Option<string>
    requires k <= 8
    decreases 8 - k
  {
    if k == 8 then None
    else if Has(deps, FrameworkTable[k].0) then Some(FrameworkTable[k].1)
    else FirstFrom(deps, k + 1)
  }

  function DetectPackageManager(present: set<string>): (pm: PackageManager)
    ensures pm == Pnpm <==> "pnpm-lock.yaml" in present
    ensures pm == Yarn <==> "pnpm-lock.yaml" !in present && "yarn.lock" in present
  {
    if "pnpm-lock.yaml" in present then Pnpm
    else if "yarn.lock" in present then Yarn
    else Npm
  }

  /** What `...section` contributes to an object literal. */
  function SpreadEntries(section: Option<Json>): Deps
  {
    if section.None? then [] else Entries(section.value)
  }

  /** `Object.keys(section || {})`. */
  function DepKeys(section: Option<Json>): (ks: seq<string>)
    ensures !TruthyOpt(section) ==> ks == []
    ensures section.Some? && section.value.JObj? ==> ks == Keys(section.value.fields)
  {
    if TruthyOpt(section) then Keys(Entries(section.value)) else []
  }

  /** `{ ...pkg.dependencies, ...pkg.devDependencies }`. */
  function Merged(pkg: Json): Deps
  {
    var deps := SpreadEntries(Field(pkg, "dependencies"));
    var dev := SpreadEntries(Field(pkg, "devDependencies"));
    Spread(Spread([], deps), dev)
  }

  /** A package listed in devDependencies takes its devDependencies version; otherwise its dependencies one. */
  lemma MergedLookup(pkg: Json, name: string)
    ensures var deps := SpreadEntries(Field(pkg, "dependencies"));
      var dev := SpreadEntries(Field(pkg, "devDependencies"));
      Lookup(Merged(pkg), name) == if name in Keys(dev) then LastLookup(dev, name) else LastLookup(deps, name)
  {
    var deps := SpreadEntries(Field(pkg, "dependencies"));
    var dev := SpreadEntries(Field(pkg, "devDependencies"));
    SpreadLookup(Spread([], deps), dev, name);
    SpreadLookup([], deps, name);
  }

  /** `deps.typescript || deps['@types/node'] || exists('tsconfig.json')`: the first truthy operand. */
  function TypeScriptFlag(deps: Deps, present: set<string>): (v: Json)
    ensures Truthy(v) <==> (Has(deps, "typescript") || Has(deps, "@types/node") || "tsconfig.json" in present)
  {
    Or(Lookup(deps, "typescript"), Or(Lookup(deps, "@types/node"), JBool("tsconfig.json" in present)))
  }

  /** `deps.jest || deps.vitest || deps.mocha || exists('test') || exists('__tests__')`. */
  function TestsFlag(deps: Deps, present: set<string>): (v: Json)
    ensures Truthy(v) <==> (Has(deps, "jest") || Has(deps, "vitest") || Has(deps, "mocha")
      || "test" in present || "__tests__" in present)
  {
    Or(Lookup(deps, "jest"), Or(Lookup(deps, "vitest"), Or(Lookup(deps, "mocha"),
      JBool("test" in present || "__tests__" in present))))
  }

  /** The record detection starts from and keeps when there is no readable manifest. */
  const DefaultInfo := ProjectInfo(Generic, None, "javascript", Npm, [], [], JBool(false), JBool(false), None)

  /** Whether detection reads a manifest: it exists, parses, and is not `null` (whose property access throws). */
  predicate ReadsManifest(manifest: Option<Json>, present: set<string>)
  {
    "package.json" in present && manifest.Some? && !manifest.value.JNull?
  }

  /**
   * Detection of the project rooted at a directory whose entries are
   * `present`; `manifest` is the parsed package.json, `None` when reading or
   * parsing it fails.
   */
  function Detect(manifest: Option<Json>, present: set<string>): (r: ProjectInfo)
    ensures !ReadsManifest(manifest, present) ==> r == DefaultInfo
    ensures ReadsManifest(manifest, present) ==> var deps := Merged(manifest.value);
      && r.projectType == DetectProjectType(deps)
      && r.language == DetectLanguage(deps)
      && r.framework == DetectFramework(deps)
      && r.packageManager == DetectPackageManager(present)
      && r.dependencies == DepKeys(Field(manifest.value, "dependencies"))
      && r.devDependencies == DepKeys(Field(manifest.value, "devDependencies"))
      && (Truthy(r.hasTypeScript) <==> (r.language == "typescript" || "tsconfig.json" in present))
      && (Truthy(r.hasTests) <==> (Has(deps, "jest") || Has(deps, "vitest") || Has(deps, "mocha")
           || "test" in present || "__tests__" in present))
    ensures r.rootPath.None?
  {
    if !ReadsManifest(manifest, present) then DefaultInfo
    else
      var pkg := manifest.value;
      var deps := Merged(pkg);
      ProjectInfo(
        DetectProjectType(deps), DetectFramework(deps), DetectLanguage(deps),
        DetectPackageManager(present),
        DepKeys(Field(pkg, "dependencies")), DepKeys(Field(pkg, "devDependencies")),
        TypeScriptFlag(deps, present), TestsFlag(deps, present), None)
  }

  /** The fields of a detection that reads a manifest, one by one. */
  lemma DetectFields(manifest: Option<Json>, present: set<string>)
    requires ReadsManifest(manifest, present)
    ensures var deps := Merged(manifest.value);
      var r := Detect(manifest, present);
      && r.projectType == DetectProjectType(deps)
      && r.hasTypeScript == TypeScriptFlag(deps, present)
      && r.hasTests == TestsFlag(deps, present)
  {
  }

  /**
   * `detectProject`: the default record, then each field filled in turn from
   * the manifest, with the two flags stored as booleans (the corrected
   * `DetectFixed`; see `Findings` for the detection as written).
   */
  method DetectProject(manifest: Option<Json>, present: set<string>) returns (info: ProjectInfo)
    ensures info == DetectFixed(manifest, present)
  {
    info := DefaultInfo;
    if "package.json" in present {
      if manifest.Some? && !manifest.value.JNull? {
        var pkg := manifest.value;
        var deps := Merged(pkg);
        info := info.(dependencies := DepKeys(Field(pkg, "dependencies")));
        info := info.(devDependencies := DepKeys(Field(pkg, "devDependencies")));
        info := info.(projectType := DetectProjectType(deps));
        info := info.(language := DetectLanguage(deps));
        info := info.(packageManager := DetectPackageManager(present));
        info := info.(hasTypeScript := JBool(Truthy(TypeScriptFlag(deps, present))));
        info := info.(hasTests := JBool(Truthy(TestsFlag(deps, present))));
        info := info.(framework := DetectFramework(deps));
      }
    }
  }

  /**
   * `detectProject` as written: the same assembly, with the two flags
   * stored as the `||` chains leave them (a version text for
   * `hasTypeScript` when `typescript` is a dependency).
   */
  method DetectProjectAsWritten(manifest: Option<Json>, present: set<string>) returns (info: ProjectInfo)
    ensures info == Detect(manifest, present)
  {
    info := DefaultInfo;
    if "package.json" in present {
      if manifest.Some? && !manifest.value.JNull? {
        var pkg := manifest.value;
        var deps := Merged(pkg);
        info := info.(dependencies := DepKeys(Field(pkg, "dependencies")));
        info := info.(devDependencies := DepKeys(Field(pkg, "devDependencies")));
        info := info.(projectType := DetectProjectType(deps));
        info := info.(language := DetectLanguage(deps));
        info := info.(packageManager := DetectPackageManager(present));
        info := info.(hasTypeScript := TypeScriptFlag(deps, present));
        info := info.(hasTests := TestsFlag(deps, present));
        info := info.(framework := DetectFramework(deps));
      }
    }
  }

  /** A TypeScript language always comes with a truthy TypeScript flag. */
  lemma LanguageImpliesFlag(manifest: Option<Json>, present: set<string>)
    ensures Detect(manifest, present).language == "typescript" ==> Truthy(Detect(manifest, present).hasTypeScript)
  {
  }

  /** Without framework packages the type is generic; a generic project can still be on Next.js or Nuxt.js. */
  lemma TypeAndFramework(deps: Deps)
    ensures DetectFramework(deps).None? ==> DetectProjectType(deps) == Generic
    ensures DetectProjectType(deps) == Generic ==>
      DetectFramework(deps) in {None, Some("Next.js"), Some("Nuxt.js")}
    ensures DetectProjectType(deps) == Next ==> DetectFramework(deps) == Some("Next.js")
  {
  }

  /**
   * The same detection with the two flags stored as the booleans the
   * record declares (`!!(...)`), as the rest of the source expects.
   */
  function DetectFixed(manifest: Option<Json>, present: set<string>): (r: ProjectInfo)
    ensures r.hasTypeScript.JBool? && r.hasTests.JBool?
    ensures Truthy(r.hasTypeScript) <==> Truthy(Detect(manifest, present).hasTypeScript)
    ensures Truthy(r.hasTests) <==> Truthy(Detect(manifest, present).hasTests)
    ensures r.(hasTypeScript := JBool(false), hasTests := JBool(false))
      == Detect(manifest, present).(hasTypeScript := JBool(false), hasTests := JBool(false))
  {
    var d := Detect(manifest, present);
    d.(hasTypeScript := JBool(Truthy(d.hasTypeScript)), hasTests := JBool(Truthy(d.hasTests)))
  }

  /** The template ids each project type adds after 'basic'. */
  function TypeTemplates(t: ProjectType, ts: bool): (r: seq<string>)
    ensures "typescript" in r <==> t == Angular || (ts && t in {React, Vue, Node, Next, Nuxt})
    ensures "basic" !in r && "testing" !in r
    ensures t in {Python, Go, Rust, Generic} ==> r == []
  {
    var extra := if ts then ["typescript"] else [];
    match t
    case React => ["react"] + extra
    case Vue => ["vue"] + extra
    case Angular => ["angular", "typescript"]
    case Node => ["node"] + extra
    case Next => ["react", "next"] + extra
    case Nuxt => ["vue", "nuxt"] + extra
    case _ => []
  }

  /** `getRecommendedTemplates`: 'basic', the type's ids, then 'testing' when the project has tests. */
  method GetRecommendedTemplates(info: ProjectInfo) returns (templates: seq<string>)
    ensures templates == ["basic"] + TypeTemplates(info.projectType, Truthy(info.hasTypeScript))
      + (if Truthy(info.hasTests) then ["testing"] else [])
    ensures templates[0] == "basic"
    ensures "testing" in templates <==> Truthy(info.hasTests)
    ensures Truthy(info.hasTests) ==> templates[|templates| - 1] == "testing"
  {
    templates := ["basic"];
    var ts := Truthy(info.hasTypeScript);
    match info.projectType {
      case React =>
        templates := templates + ["react"];
        if ts { templates := templates + ["typescript"]; }
      case Vue =>
        templates := templates + ["vue"];
        if ts { templates := templates + ["typescript"]; }
      case Angular =>
        templates := templates + ["angular", "typescript"];
      case Node =>
        templates := templates + ["node"];
        if ts { templates := templates + ["typescript"]; }
      case Next =>
        templates := templates + ["react", "next"];
        if ts { templates := templates + ["typescript"]; }
      case Nuxt =>
        templates := templates + ["vue", "nuxt"];
        if ts { templates := templates + ["typescript"]; }
      case _ =>
    }
    if Truthy(info.hasTests) {
      templates := templates + ["testing"];
    }
  }
}
