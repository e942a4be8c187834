/**
 * Template variables: merging a template's variable definitions with the
 * caller's values, building the full variable map a rule file sees, and
 * replacing the three placeholder forms `{{NAME}}`, `${NAME}` and `%NAME%`.
 */
module Variables {
  import opened Wrappers
  import opened Json
  import opened Text
  import opened Project

  /** Merged variables in insertion order; a `None` value is `undefined`. */
  type Vars = seq<(string, Option<Json>)>

  /** JavaScript `a ?? b`. */
  function Nullish(a: Option<Json>, b: Option<Json>): Option<Json>
  {
    if a.Some? && !a.value.JNull? then a else b
  }

  /** What a definition stands for: a typed definition (`{type, default}`) its `default`, anything else itself. */
  function DefaultValue(definition: Json): Option<Json>
  {
    if IsObjectType(definition) && TruthyOpt(Field(definition, "type")) then Field(definition, "default")
    else Some(definition)
  }

  const NullDefinitionError := "TypeError: Cannot read properties of null (reading 'type')"

  /** `typeof definition === 'object' && definition.type`, which throws for `null`. */
  function DefinitionValue(definition: Json): (r: Result<Option<Json>, string>)
    ensures r.Err? <==> definition.JNull?
    ensures r.Ok? ==> r.value == DefaultValue(definition)
  {
    if definition.JNull? then Err(NullDefinitionError) else Ok(DefaultValue(definition))
  }

  /** The first loop of `mergeVariables`, over the first `|defs|` definitions. */
  function DefinitionsMerged(defs: seq<(string, Json)>, user: seq<(string, Json)>): Result<Vars, string>
    decreases |defs|
  {
    if defs == [] then Ok([])
    else
      match DefinitionsMerged(defs[..|defs| - 1], user)
      case Err(e) => Err(e)
      case Ok(acc) =>
        var (key, definition) := defs[|defs| - 1];
        match DefinitionValue(definition)
        case Err(e) => Err(e)
        case Ok(d) => Ok(Put(acc, key, Nullish(Lookup(user, key), d)))
  }

  /** The second loop: each caller variable whose key is not yet merged. */
  function UserAdded(acc: Vars, user: seq<(string, Json)>): Vars
    decreases |user|
  {
    if user == [] then acc
    else
      var prev := UserAdded(acc, user[..|user| - 1]);
      var (key, value) := user[|user| - 1];
      if key in Keys(prev) then prev else Put(prev, key, Some(value))
  }

  /** `mergeVariables(templateVariables, userVariables)`; `Err` is the exception it throws. */
  function MergedVariables(templateVariables: Json, user: seq<(string, Json)>): Result<Vars, string>
  {
    match DefinitionsMerged(Entries(templateVariables), user)
    case Err(e) => Err(e)
    case Ok(acc) => Ok(UserAdded(acc, user))
  }

  method MergeVariables(templateVariables: Json, user: seq<(string, Json)>) returns (r: Result<Vars, string>)
    ensures r == MergedVariables(templateVariables, user)
  {
    var merged := MergeDefinitions(Entries(templateVariables), user);
    if merged.Err? {
      return Err(merged.error);
    }
    var all := AddUserVariables(merged.value, user);
    r := Ok(all);
  }

  /** The first loop: each definition's value, the user's value first, stopping at a `null` definition. */
  method MergeDefinitions(defs: seq<(string, Json)>, user: seq<(string, Json)>) returns (r: Result<Vars, string>)
    ensures r == DefinitionsMerged(defs, user)
  {
    var merged: Vars := [];
    var i := 0;
    while i < |defs|
      invariant 0 <= i <= |defs|
      invariant DefinitionsMerged(defs[..i], user) == Ok(merged)
    {
      var key, definition := defs[i].0, defs[i].1;
      if IsObjectType(definition) && definition.JNull? {
        MergedStepNull(defs, user, i, merged);
        return Err(NullDefinitionError);
      }
      var value;
      if IsObjectType(definition) && TruthyOpt(Field(definition, "type")) {
        value := Field(definition, "default");
      } else {
        value := Some(definition);
      }
      MergedStep(defs, user, i, merged, value);
      merged := Put(merged, key, Nullish(Lookup(user, key), value));
      i := i + 1;
    }
    assert defs[..|defs|] == defs;
    r := Ok(merged);
  }

  /** The second loop: user variables with no template definition are added in order. */
  method AddUserVariables(base: Vars, user: seq<(string, Json)>) returns (merged: Vars)
    ensures merged == UserAdded(base, user)
  {
    merged := base;
    var j := 0;
    while j < |user|
      invariant 0 <= j <= |user|
      invariant merged == UserAdded(base, user[..j])
    {
      UserAddedStep(base, user, j, merged);
      var key, value := user[j].0, user[j].1;
      if key !in Keys(merged) {
        merged := Put(merged, key, Some(value));
      }
      j := j + 1;
    }
    assert user[..|user|] == user;
  }

  /** A definition with a value extends the merged list by its key. */
  lemma MergedStep(defs: seq<(string, Json)>, user: seq<(string, Json)>, i: nat, merged: Vars, value: Option<Json>)
    requires i < |defs| && DefinitionsMerged(defs[..i], user) == Ok(merged)
    requires DefinitionValue(defs[i].1) == Ok(value)
    ensures DefinitionsMerged(defs[..i + 1], user) == Ok(Put(merged, defs[i].0, Nullish(Lookup(user, defs[i].0), value)))
  {
    assert defs[..i + 1][..i] == defs[..i];
  }

  /** A `null` definition makes the whole merge throw. */
  lemma MergedStepNull(defs: seq<(string, Json)>, user: seq<(string, Json)>, i: nat, merged: Vars)
    requires i < |defs| && DefinitionsMerged(defs[..i], user) == Ok(merged) && defs[i].1.JNull?
    ensures DefinitionsMerged(defs, user) == Err(NullDefinitionError)
  {
    assert defs[..i + 1][..i] == defs[..i];
    MergeErrorPersists(defs, user, i + 1);
  }

  lemma UserAddedStep(acc: Vars, user: seq<(string, Json)>, j: nat, prev: Vars)
    requires j < |user| && prev == UserAdded(acc, user[..j])
    ensures UserAdded(acc, user[..j + 1])
      == if user[j].0 in Keys(prev) then prev else Put(prev, user[j].0, Some(user[j].1))
  {
    assert user[..j + 1][..j] == user[..j];
  }

  /** Once a definition has thrown, the rest of the loop is never reached. */
  lemma {:induction false} MergeErrorPersists(defs: seq<(string, Json)>, user: seq<(string, Json)>, i: nat)
    requires i <= |defs| && DefinitionsMerged(defs[..i], user).Err?
    ensures DefinitionsMerged(defs, user) == DefinitionsMerged(defs[..i], user)
    decreases |defs| - i
  {
    if i < |defs| {
      assert defs[..i + 1][..i] == defs[..i];
      MergeErrorPersists(defs, user, i + 1);
    } else {
      assert defs[..i] == defs;
    }
  }

  lemma {:induction false} LastLookupSnoc<V>(pre: seq<(string, V)>, kv: (string, V), k: string)
    ensures LastLookup(pre + [kv], k) == if kv.0 == k then Some(kv.1) else LastLookup(pre, k)
    decreases |pre|
  {
    if pre == [] {
      assert [] + [kv] == [kv];
      assert [kv][1..] == [];
    } else {
      assert (pre + [kv])[1..] == pre[1..] + [kv];
      LastLookupSnoc(pre[1..], kv, k);
    }
  }

  lemma KeysSnoc<V>(pre: seq<(string, V)>, kv: (string, V))
    ensures Keys(pre + [kv]) == Keys(pre) + [kv.0]
  {
  }

  /** Merging throws exactly when some definition is `null`. */
  lemma {:induction false} DefinitionsMergedError(defs: seq<(string, Json)>, user: seq<(string, Json)>)
    ensures DefinitionsMerged(defs, user).Err? <==> exists i :: 0 <= i < |defs| && defs[i].1.JNull?
    decreases |defs|
  {
    if defs != [] {
      var pre := defs[..|defs| - 1];
      DefinitionsMergedError(pre, user);
      MergedErrorStep(defs, user);
      NullEntrySnoc(defs);
    }
  }

  /** The first loop has thrown after a definition exactly when it had before, or that definition is `null`. */
  lemma MergedErrorStep(defs: seq<(string, Json)>, user: seq<(string, Json)>)
    requires defs != []
    ensures DefinitionsMerged(defs, user).Err?
      <==> DefinitionsMerged(defs[..|defs| - 1], user).Err? || defs[|defs| - 1].1.JNull?
  {
  }

  /** After the first loop: the merged value of each defined key, and nothing else. */
  lemma {:induction false} DefinitionsMergedLookup(defs: seq<(string, Json)>, user: seq<(string, Json)>, k: string)
    requires DefinitionsMerged(defs, user).Ok?
    ensures Lookup(DefinitionsMerged(defs, user).value, k)
      == if k in Keys(defs) then Some(Nullish(Lookup(user, k), DefaultValue(LastLookup(defs, k).value))) else None
    decreases |defs|
  {
    if defs != [] {
      var pre, last := defs[..|defs| - 1], defs[|defs| - 1];
      assert defs == pre + [last];
      DefinitionsMergedLookup(pre, user, k);
      LastLookupSnoc(pre, last, k);
      KeysSnoc(pre, last);
    }
  }

  /** After the second loop: merged keys keep their values; a new key takes the caller's first binding. */
  lemma {:induction false} UserAddedLookup(acc: Vars, user: seq<(string, Json)>, k: string)
    ensures Lookup(UserAdded(acc, user), k)
      == if k in Keys(acc) then Lookup(acc, k) else if k in Keys(user) then Some(Lookup(user, k)) else None
    decreases |user|
  {
    if user != [] {
      var pre, last := user[..|user| - 1], user[|user| - 1];
      assert user == pre + [last];
      UserAddedLookup(acc, pre, k);
      KeysSnoc(pre, last);
      LookupSnoc(pre, last, k);
    }
  }

  lemma {:induction false} LookupSnoc<V>(pre: seq<(string, V)>, kv: (string, V), k: string)
    ensures Lookup(pre + [kv], k) == if k in Keys(pre) then Lookup(pre, k) else if kv.0 == k then Some(kv.1) else None
    decreases |pre|
  {
    if pre == [] {
      assert [] + [kv] == [kv];
      assert [kv][1..] == [];
    } else {
      assert (pre + [kv])[1..] == pre[1..] + [kv];
      assert Keys(pre) == [pre[0].0] + Keys(pre[1..]);
      LookupSnoc(pre[1..], kv, k);
    }
  }

  /**
   * `mergeVariables`: it throws exactly when a definition is `null`;
   * otherwise a defined key takes the caller's value unless that is
   * `null`/`undefined`, then the definition's default; a key only the caller
   * gives keeps the caller's value; there are no other keys.
   */
  lemma MergedVariablesMeaning(templateVariables: Json, user: seq<(string, Json)>, k: string)
    ensures var defs := Entries(templateVariables);
      MergedVariables(templateVariables, user).Err? <==> exists i :: 0 <= i < |defs| && defs[i].1.JNull?
    ensures var defs := Entries(templateVariables);
      MergedVariables(templateVariables, user).Ok? ==>
        Lookup(MergedVariables(templateVariables, user).value, k)
        == if k in Keys(defs) then Some(Nullish(Lookup(user, k), DefaultValue(LastLookup(defs, k).value)))
           else if k in Keys(user) then Some(Lookup(user, k))
           else None
  {
    var defs := Entries(templateVariables);
    DefinitionsMergedError(defs, user);
    if DefinitionsMerged(defs, user).Ok? {
      var acc := DefinitionsMerged(defs, user).value;
      DefinitionsMergedLookup(defs, user, k);
      UserAddedLookup(acc, user, k);
    }
  }

  // ---------------------------------------------------------------- the variable map

  /** JavaScript `s || fallback` on an optional string. */
  function OrText(s: Option<string>, fallback: string): string
  {
    if s.Some? && s.value != "" then s.value else fallback
  }

  function FlagText(v: Json): string
  {
    if Truthy(v) then "true" else "false"
  }

  /** The project variables that come before the template's. */
  function ProjectVariables(info: ProjectInfo, cwd: string): seq<(string, string)>
  {
    [("PROJECT_TYPE", info.projectType.Name()), ("LANGUAGE", info.language),
     ("PACKAGE_MANAGER", info.packageManager.Name()), ("FRAMEWORK", OrText(info.framework, "")),
     ("PROJECT_ROOT", OrText(info.rootPath, cwd))]
  }

  /** `String(v)` of each merged variable. */
  function StringValues(vars: Vars): (r: seq<(string, string)>)
    ensures |r| == |vars|
    ensures forall i :: 0 <= i < |r| ==> r[i] == (vars[i].0, ToJsString(vars[i].1))
  {
    seq(|vars|, i requires 0 <= i < |vars| => (vars[i].0, ToJsString(vars[i].1)))
  }

  /** `toISOString().split('T')[0]`. */
  function DatePart(iso: string): string
  {
    Split(iso, Literal("T")).0[0]
  }

  const LateKeys: seq<string> := ["HAS_TYPESCRIPT", "HAS_TESTS", "CURRENT_DATE", "CURRENT_YEAR", "PREFERRED_LANGUAGE"]

  /**
   * The object literal of `processVariables`: project variables, then the
   * template's (spread), then flags, date, year and preferred language.
   * `iso` and `year` are the clock's reading; `cwd` the working directory.
   */
  function VariableMap(info: ProjectInfo, vars: Vars, globalConfig: Json, cwd: string, iso: string, year: int)
    : seq<(string, string)>
  {
    var spread := Spread(ProjectVariables(info, cwd), StringValues(vars));
    var m1 := Put(spread, "HAS_TYPESCRIPT", FlagText(info.hasTypeScript));
    var m2 := Put(m1, "HAS_TESTS", FlagText(info.hasTests));
    var m3 := Put(m2, "CURRENT_DATE", DatePart(iso));
    var m4 := Put(m3, "CURRENT_YEAR", IntToString(year));
    Put(m4, "PREFERRED_LANGUAGE", JsString(Or(Field(globalConfig, "language"), JStr("zh"))))
  }

  lemma {:induction false} StringValuesLastLookup(vars: Vars, k: string)
    ensures LastLookup(StringValues(vars), k)
      == if LastLookup(vars, k).Some? then Some(ToJsString(LastLookup(vars, k).value)) else None
    decreases |vars|
  {
    if vars != [] {
      assert StringValues(vars)[1..] == StringValues(vars[1..]);
      StringValuesLastLookup(vars[1..], k);
    }
  }

  /** The flags, date, year and preferred language always have their own values. */
  lemma LateVariables(info: ProjectInfo, vars: Vars, globalConfig: Json, cwd: string, iso: string, year: int)
    ensures var m := VariableMap(info, vars, globalConfig, cwd, iso, year);
      && Lookup(m, "HAS_TYPESCRIPT") == Some(FlagText(info.hasTypeScript))
      && Lookup(m, "HAS_TESTS") == Some(FlagText(info.hasTests))
      && Lookup(m, "CURRENT_DATE") == Some(DatePart(iso))
      && Lookup(m, "CURRENT_YEAR") == Some(IntToString(year))
      && Lookup(m, "PREFERRED_LANGUAGE") == Some(JsString(Or(Field(globalConfig, "language"), JStr("zh"))))
  {
  }

  /** Any other key takes the template variable's string if there is one, else the project variable. */
  lemma TemplateOverProject(info: ProjectInfo, vars: Vars, globalConfig: Json, cwd: string, iso: string, year: int, k: string)
    requires k !in LateKeys
    ensures Lookup(VariableMap(info, vars, globalConfig, cwd, iso, year), k)
      == if k in Keys(vars) then Some(ToJsString(LastLookup(vars, k).value)) else Lookup(ProjectVariables(info, cwd), k)
  {
    var spread := Spread(ProjectVariables(info, cwd), StringValues(vars));
    SpreadLookup(ProjectVariables(info, cwd), StringValues(vars), k);
    StringValuesLastLookup(vars, k);
    assert Keys(StringValues(vars)) == Keys(vars);
    assert k != "HAS_TYPESCRIPT" && k != "HAS_TESTS" && k != "CURRENT_DATE" && k != "CURRENT_YEAR" && k != "PREFERRED_LANGUAGE";
  }

  // ---------------------------------------------------------------- placeholders

  /** The three replacements for one variable: `{{ KEY }}`, `${KEY}`, `%KEY%`. */
  function ApplyVariable(s: string, key: string, value: string): string
  {
    var s1 := Replace(s, Mustache(key), value);
    var s2 := Replace(s1, Literal("${" + key + "}"), value);
    Replace(s2, Literal("%" + key + "%"), value)
  }

  /** The variables applied in the map's order. */
  function ApplyVariables(s: string, vs: seq<(string, string)>): string
    decreases |vs|
  {
    if vs == [] then s
    else ApplyVariable(ApplyVariables(s, vs[..|vs| - 1]), vs[|vs| - 1].0, vs[|vs| - 1].1)
  }

  /** `processVariables(content, context)`: build the map, then apply it. */
  method ProcessVariables(content: string, info: ProjectInfo, vars: Vars, globalConfig: Json,
                          cwd: string, iso: string, year: int) returns (processed: string)
    ensures processed == ApplyVariables(content, VariableMap(info, vars, globalConfig, cwd, iso, year))
  {
    var variables := VariableMap(info, vars, globalConfig, cwd, iso, year);
    processed := ReplaceVariables(content, variables);
  }

  /** The replacement loop of `processVariables`, over the map's entries in order. */
  method ReplaceVariables(content: string, variables: seq<(string, string)>) returns (processed: string)
    ensures processed == ApplyVariables(content, variables)
  {
    processed := content;
    var i := 0;
    while i < |variables|
      invariant 0 <= i <= |variables|
      invariant processed == ApplyVariables(content, variables[..i])
    {
      assert variables[..i + 1][..i] == variables[..i];
      var (key, value) := variables[i];
      processed := Replace(processed, Mustache(key), value);
      processed := Replace(processed, Literal("${" + key + "}"), value);
      processed := Replace(processed, Literal("%" + key + "%"), value);
      i := i + 1;
    }
    assert variables[..|variables|] == variables;
  }

  /** Text without `{` or `%` has no placeholder and comes out unchanged. */
  lemma {:induction false} NoPlaceholderUnchanged(s: string, vs: seq<(string, string)>)
    requires '{' !in s && '%' !in s
    ensures ApplyVariables(s, vs) == s
    decreases |vs|
  {
    if vs != [] {
      NoPlaceholderUnchanged(s, vs[..|vs| - 1]);
      var (key, value) := vs[|vs| - 1];
      MustacheAbsent(s, key, value);
      ReplaceAbsent(s, "${" + key + "}", value, '{');
      ReplaceAbsent(s, "%" + key + "%", value, '%');
    }
  }
}
