/**
 * The schema check a template configuration passes before it is used:
 * required fields, the category, the compatibility lists, the rules and the
 * variable definitions give errors, a version that does not start like
 * `x.y.z` only a warning. Property accesses on `null` throw.
 */
module Validation {
  import opened Wrappers
  import opened Json

  datatype ErrorCode =
    | MissingRequiredField
    | InvalidCategory
    | InvalidProjectTypes
    | InvalidLanguages
    | InvalidRule
    | InvalidVariableType
    | MissingEnumValues
  {
    function Name(): string
    {
      match this
      case MissingRequiredField => "MISSING_REQUIRED_FIELD"
      case InvalidCategory => "INVALID_CATEGORY"
      case InvalidProjectTypes => "INVALID_PROJECT_TYPES"
      case InvalidLanguages => "INVALID_LANGUAGES"
      case InvalidRule => "INVALID_RULE"
      case InvalidVariableType => "INVALID_VARIABLE_TYPE"
      case MissingEnumValues => "MISSING_ENUM_VALUES"
    }
  }

  datatype ValidationError = ValidationError(field: string, message: string, code: ErrorCode)

  datatype ValidationWarning = ValidationWarning(field: string, message: string, suggestion: string)

  datatype ValidationResult = ValidationResult(
    isValid: bool,
    errors: seq<ValidationError>,
    warnings: seq<ValidationWarning>)

  const RequiredFields: seq<string> :=
    ["id", "name", "description", "version", "category", "author", "compatibility", "rules"]

  const Categories: seq<string> := ["basic", "module", "workflow"]

  const VariableTypes: seq<string> := ["string", "boolean", "number", "enum"]

  /** `Array.isArray(v)`. */
  predicate IsArray(v: Option<Json>)
  {
    v.Some? && v.value.JArr?
  }

  /** `list.includes(v)` for a list of strings. */
  predicate OneOf(v: Option<Json>, list: seq<string>)
  {
    v.Some? && v.value.JStr? && v.value.s in list
  }

  /** The TypeError a property access on `null` throws. */
  function NullAccess(property: string): string
  {
    "TypeError: Cannot read properties of null (reading '" + property + "')"
  }

  // ---------------------------------------------------------------- required fields

  function MissingFieldError(field: string): ValidationError
  {
    ValidationError(field, "缺少必需字段: " + field, MissingRequiredField)
  }

  function FieldErrors(config: Json, f: string): seq<ValidationError>
  {
    if TruthyOpt(Field(config, f)) then [] else [MissingFieldError(f)]
  }

  /** One error per field of `fields` whose value is falsy, in order. */
  function MissingFields(config: Json, fields: seq<string>): (es: seq<ValidationError>)
    ensures es == [] <==> forall f :: f in fields ==> TruthyOpt(Field(config, f))
    ensures forall e :: e in es ==> e == MissingFieldError(e.field) && e.field in fields && !TruthyOpt(Field(config, e.field))
    ensures |es| <= |fields|
    decreases |fields|
  {
    if fields == [] then []
    else
      var f := fields[|fields| - 1];
      var prefix := fields[..|fields| - 1];
      assert fields == prefix + [f];
      MissingFields(config, prefix) + FieldErrors(config, f)
  }

  // ---------------------------------------------------------------- category and compatibility

  function CategoryErrors(config: Json): seq<ValidationError>
  {
    var category := Field(config, "category");
    if TruthyOpt(category) && !OneOf(category, Categories) then
      [ValidationError("category", "无效的分类: " + JsString(category.value), InvalidCategory)]
    else []
  }

  function CompatibilityErrors(config: Json): seq<ValidationError>
  {
    var compatibility := Field(config, "compatibility");
    if !TruthyOpt(compatibility) then []
    else
      (if IsArray(Field(compatibility.value, "projectTypes")) then []
       else [ValidationError("compatibility.projectTypes", "项目类型必须是数组", InvalidProjectTypes)])
      + (if IsArray(Field(compatibility.value, "languages")) then []
         else [ValidationError("compatibility.languages", "语言列表必须是数组", InvalidLanguages)])
  }

  // ---------------------------------------------------------------- rules

  predicate RuleComplete(rule: Json)
  {
    TruthyOpt(Field(rule, "name")) && TruthyOpt(Field(rule, "file"))
  }

  function RuleError(index: nat, rule: Json): seq<ValidationError>
  {
    if RuleComplete(rule) then []
    else [ValidationError("rules[" + NatToString(index) + "]", "规则必须包含 name 和 file 字段", InvalidRule)]
  }

  /** The errors of the rules in order; reading `name` of a `null` rule throws. */
  function RuleErrors(rules: seq<Json>): (r: Result<seq<ValidationError>, string>)
    ensures r.Err? <==> JNull in rules
    ensures r.Err? ==> r.error == NullAccess("name")
    ensures r.Ok? ==> (r.value == [] <==> forall i :: 0 <= i < |rules| ==> RuleComplete(rules[i]))
    ensures r.Ok? ==> forall e :: e in r.value ==> e.code == InvalidRule
    decreases |rules|
  {
    if rules == [] then Ok([])
    else
      var prefix := rules[..|rules| - 1];
      var last := rules[|rules| - 1];
      assert rules == prefix + [last];
      match RuleErrors(prefix)
      case Err(m) => Err(m)
      case Ok(es) =>
        if last.JNull? then Err(NullAccess("name"))
        else Ok(es + RuleError(|rules| - 1, last))
  }

  // ---------------------------------------------------------------- variable definitions

  /** A definition the checks look at: an object with a truthy `type`. */
  predicate Typed(v: Json)
  {
    v.JObj? && TruthyOpt(Field(v, "type"))
  }

  predicate VariableWellFormed(v: Json)
  {
    Typed(v) ==>
      OneOf(Field(v, "type"), VariableTypes)
      && (Field(v, "type") == Some(JStr("enum")) ==> IsArray(Field(v, "enum")))
  }

  function TypeError(key: string, t: Json): ValidationError
  {
    ValidationError("variables." + key + ".type", "无效的变量类型: " + JsString(t), InvalidVariableType)
  }

  function EnumError(key: string): ValidationError
  {
    ValidationError("variables." + key + ".enum", "枚举类型必须提供 enum 数组", MissingEnumValues)
  }

  /** The errors of one definition: an unknown type, then an enum without an array. */
  function DefinitionErrors(key: string, v: Json): seq<ValidationError>
  {
    if !Typed(v) then []
    else
      var t := Field(v, "type").value;
      (if OneOf(Some(t), VariableTypes) then [] else [TypeError(key, t)])
      + (if t == JStr("enum") && !IsArray(Field(v, "enum")) then [EnumError(key)] else [])
  }

  /** The errors of the definitions in order; reading `type` of a `null` definition throws. */
  function VariableErrors(entries: seq<(string, Json)>): (r: Result<seq<ValidationError>, string>)
    ensures r.Err? <==> exists i :: 0 <= i < |entries| && entries[i].1.JNull?
    ensures r.Err? ==> r.error == NullAccess("type")
    ensures r.Ok? ==> (r.value == [] <==> forall i :: 0 <= i < |entries| ==> VariableWellFormed(entries[i].1))
    decreases |entries|
  {
    if entries == [] then Ok([])
    else
      var prefix := entries[..|entries| - 1];
      var last := entries[|entries| - 1];
      NullEntrySnoc(entries);
      WellFormedSnoc(entries);
      DefinitionErrorsEmpty(last.0, last.1);
      match VariableErrors(prefix)
      case Err(m) => Err(m)
      case Ok(es) =>
        if last.1.JNull? then Err(NullAccess("type"))
        else Ok(es + DefinitionErrors(last.0, last.1))
  }

  predicate AllWellFormed(entries: seq<(string, Json)>)
  {
    forall i :: 0 <= i < |entries| ==> VariableWellFormed(entries[i].1)
  }

  lemma WellFormedSnoc(entries: seq<(string, Json)>)
    requires entries != []
    ensures AllWellFormed(entries)
      <==> AllWellFormed(entries[..|entries| - 1]) && VariableWellFormed(entries[|entries| - 1].1)
  {
    var pre := entries[..|entries| - 1];
    assert forall i :: 0 <= i < |pre| ==> pre[i] == entries[i];
  }

  /**
   * A definition that is not an object with a `type` gives no error; one
   * with an unknown type gives `INVALID_VARIABLE_TYPE`, an enum without an
   * array `MISSING_ENUM_VALUES`. An enum type is a known type, so there is
   * at most one error.
   */
  lemma DefinitionErrorsMeaning(key: string, v: Json)
    ensures var es := DefinitionErrors(key, v);
      && |es| <= 1
      && (!Typed(v) ==> es == [])
      && (Typed(v) ==> (TypeError(key, Field(v, "type").value) in es <==> !OneOf(Field(v, "type"), VariableTypes)))
      && (EnumError(key) in es <==> Typed(v) && Field(v, "type") == Some(JStr("enum")) && !IsArray(Field(v, "enum")))
      && (forall e :: e in es ==> Typed(v) && (e == TypeError(key, Field(v, "type").value) || e == EnumError(key)))
  {
  }

  /** A definition gives no error exactly when it is well formed. */
  lemma DefinitionErrorsEmpty(key: string, v: Json)
    ensures DefinitionErrors(key, v) == [] <==> VariableWellFormed(v)
  {
  }

  // ---------------------------------------------------------------- version

  /** The length of the run of ASCII digits at the start of `s`. */
  function DigitRun(s: string): (n: nat)
    ensures n <= |s|
    ensures forall i :: 0 <= i < n ==> '0' <= s[i] <= '9'
    ensures n < |s| ==> !('0' <= s[n] <= '9')
  {
    if s != [] && '0' <= s[0] <= '9' then 1 + DigitRun(s[1..]) else 0
  }

  /** `s` starts with digits, a dot, digits, a dot and digits. */
  predicate DottedNumber(s: string, parts: nat)
    decreases parts
  {
    var n := DigitRun(s);
    n > 0 && (parts <= 1 || (n < |s| && s[n] == '.' && DottedNumber(s[n + 1..], parts - 1)))
  }

  /** The test `/^\d+\.\d+\.\d+/`. */
  predicate SemverPrefix(s: string)
  {
    DottedNumber(s, 3)
  }

  function VersionWarnings(config: Json): seq<ValidationWarning>
  {
    var version := Field(config, "version");
    if TruthyOpt(version) && !SemverPrefix(JsString(version.value)) then
      [ValidationWarning("version", "建议使用语义化版本号 (x.y.z)", "例如: 1.0.0")]
    else []
  }

  // ---------------------------------------------------------------- the whole check

  /** The rule errors, when `config.rules` is a truthy array. */
  function RulesChecked(config: Json): Result<seq<ValidationError>, string>
  {
    var rules := Field(config, "rules");
    if TruthyOpt(rules) && rules.value.JArr? then RuleErrors(rules.value.items) else Ok([])
  }

  /** The definition errors, when `config.variables` is truthy. */
  function VariablesChecked(config: Json): Result<seq<ValidationError>, string>
  {
    var variables := Field(config, "variables");
    if TruthyOpt(variables) then VariableErrors(Entries(variables.value)) else Ok([])
  }

  /** `validateTemplateConfig(config)`; `Err` is the TypeError it throws. */
  function Validate(config: Json): Result<ValidationResult, string>
  {
    if config.JNull? then Err(NullAccess("id"))
    else
      match RulesChecked(config)
      case Err(m) => Err(m)
      case Ok(ruleErrors) =>
        match VariablesChecked(config)
        case Err(m) => Err(m)
        case Ok(variableErrors) =>
          var errors := MissingFields(config, RequiredFields) + CategoryErrors(config)
            + CompatibilityErrors(config) + ruleErrors + variableErrors;
          Ok(ValidationResult(|errors| == 0, errors, VersionWarnings(config)))
  }

  predicate FieldsPresent(config: Json)
  {
    forall f :: f in RequiredFields ==> TruthyOpt(Field(config, f))
  }

  predicate CategoryKnown(config: Json)
  {
    TruthyOpt(Field(config, "category")) ==> OneOf(Field(config, "category"), Categories)
  }

  predicate CompatibilityArrays(config: Json)
  {
    var compatibility := Field(config, "compatibility");
    TruthyOpt(compatibility) ==>
      IsArray(Field(compatibility.value, "projectTypes")) && IsArray(Field(compatibility.value, "languages"))
  }

  predicate RulesComplete(config: Json)
  {
    var rules := Field(config, "rules");
    TruthyOpt(rules) && rules.value.JArr? ==>
      forall i :: 0 <= i < |rules.value.items| ==> RuleComplete(rules.value.items[i])
  }

  predicate DefinitionsWellFormed(config: Json)
  {
    var variables := Field(config, "variables");
    TruthyOpt(variables) ==>
      forall i :: 0 <= i < |Entries(variables.value)| ==> VariableWellFormed(Entries(variables.value)[i].1)
  }

  /** What a configuration must satisfy, stated without error lists. */
  predicate WellFormed(config: Json)
  {
    FieldsPresent(config) && CategoryKnown(config) && CompatibilityArrays(config)
    && RulesComplete(config) && DefinitionsWellFormed(config)
  }

  /** When validation throws: a `null` configuration, rule or definition. */
  predicate Throws(config: Json)
  {
    var rules := Field(config, "rules");
    var variables := Field(config, "variables");
    config.JNull?
    || (TruthyOpt(rules) && rules.value.JArr? && JNull in rules.value.items)
    || (TruthyOpt(variables) && exists i :: 0 <= i < |Entries(variables.value)| && Entries(variables.value)[i].1.JNull?)
  }

  lemma ConcatEmpty<T>(a: seq<T>, b: seq<T>, c: seq<T>, d: seq<T>, e: seq<T>)
    ensures a + b + c + d + e == [] <==> a == [] && b == [] && c == [] && d == [] && e == []
  {
    if a + b + c + d + e == [] {
      assert |a + b + c + d + e| == |a| + |b| + |c| + |d| + |e|;
    }
  }

  /** The validator throws exactly on a `null` configuration, rule or definition. */
  lemma ThrowsExactly(config: Json)
    ensures Validate(config).Err? <==> Throws(config)
  {
  }

  /**
   * Without a throw, `isValid` holds exactly when the configuration is well
   * formed, whatever becomes of the version warning.
   */
  lemma ValidMeansWellFormed(config: Json)
    requires Validate(config).Ok?
    ensures Validate(config).value.isValid <==> Validate(config).value.errors == []
    ensures Validate(config).value.isValid <==> WellFormed(config)
  {
    var a := MissingFields(config, RequiredFields);
    var b := CategoryErrors(config);
    var c := CompatibilityErrors(config);
    var d := RulesChecked(config).value;
    var e := VariablesChecked(config).value;
    assert Validate(config).value.errors == a + b + c + d + e;
    ConcatEmpty(a, b, c, d, e);
    assert a == [] <==> FieldsPresent(config);
    assert b == [] <==> CategoryKnown(config);
    assert c == [] <==> CompatibilityArrays(config);
    assert d == [] <==> RulesComplete(config);
    assert e == [] <==> DefinitionsWellFormed(config);
  }

  lemma {:induction false} DigitRunOfNumber(n: nat, rest: string)
    requires rest == [] || !('0' <= rest[0] <= '9')
    ensures DigitRun(NatToString(n) + rest) == |NatToString(n)|
    decreases |NatToString(n)|
  {
    var d := NatToString(n);
    DigitRunOfDigits(d, rest);
  }

  lemma {:induction false} DigitRunOfDigits(d: string, rest: string)
    requires forall i :: 0 <= i < |d| ==> '0' <= d[i] <= '9'
    requires rest == [] || !('0' <= rest[0] <= '9')
    ensures DigitRun(d + rest) == |d|
    decreases |d|
  {
    if d == [] {
      assert d + rest == rest;
    } else {
      assert (d + rest)[1..] == d[1..] + rest;
      DigitRunOfDigits(d[1..], rest);
    }
  }

  lemma DottedLast(n: nat, rest: string)
    requires rest == [] || !('0' <= rest[0] <= '9')
    ensures DottedNumber(NatToString(n) + rest, 1)
  {
    DigitRunOfNumber(n, rest);
  }

  lemma DottedCons(n: nat, s: string, parts: nat)
    requires parts > 1 && DottedNumber(s, parts - 1)
    ensures DottedNumber(NatToString(n) + ("." + s), parts)
  {
    var d := NatToString(n);
    var t := d + ("." + s);
    DigitRunOfNumber(n, "." + s);
    assert t[|d|] == '.';
    assert t[|d| + 1..] == s;
  }

  lemma DottedAssoc(x: string, y: string, z: string, rest: string)
    ensures x + "." + y + "." + z + rest == x + ("." + (y + ("." + (z + rest))))
  {
  }

  /** A version written `major.minor.patch`, whatever follows it, passes the test. */
  lemma SemverOfNumbers(major: nat, minor: nat, patch: nat, rest: string)
    requires rest == [] || !('0' <= rest[0] <= '9')
    ensures SemverPrefix(NatToString(major) + "." + NatToString(minor) + "." + NatToString(patch) + rest)
  {
    var s3 := NatToString(patch) + rest;
    var s2 := NatToString(minor) + ("." + s3);
    DottedLast(patch, rest);
    DottedCons(minor, s3, 2);
    DottedCons(major, s2, 3);
    DottedAssoc(NatToString(major), NatToString(minor), NatToString(patch), rest);
  }

  /** A version with only two numbers gets the warning. */
  lemma TwoPartsNotSemver(major: nat, minor: nat)
    ensures !SemverPrefix(NatToString(major) + "." + NatToString(minor))
  {
    DigitsNotSemver(NatToString(major), NatToString(minor));
  }

  lemma DigitsNotSemver(a: string, b: string)
    requires forall i :: 0 <= i < |a| ==> '0' <= a[i] <= '9'
    requires forall i :: 0 <= i < |b| ==> '0' <= b[i] <= '9'
    ensures !SemverPrefix(a + "." + b)
  {
    var s := a + ("." + b);
    assert a + "." + b == s;
    DigitRunOfDigits(a, "." + b);
    assert s[|a| + 1..] == b;
    assert !DottedNumber(b, 2) by {
      DigitRunOfDigits(b, "");
      assert b + "" == b;
      DigitsOnlyNotDotted(b);
    }
  }

  /** Text that is all digits has no dot after its first number. */
  lemma DigitsOnlyNotDotted(b: string)
    requires DigitRun(b) == |b|
    ensures !DottedNumber(b, 2)
  {
  }

  lemma MissingFieldsStep(config: Json, fields: seq<string>, i: nat)
    requires i < |fields|
    ensures MissingFields(config, fields[..i + 1])
      == MissingFields(config, fields[..i]) + FieldErrors(config, fields[i])
  {
    assert fields[..i + 1][..i] == fields[..i];
  }

  // ---------------------------------------------------------------- the error lists, position by position

  /** The element after a prefix of `s` is the element of `s` at that position. */
  lemma PrefixThen<T>(p: seq<T>, x: seq<T>, s: seq<T>)
    requires p + x <= s
    ensures |p| + |x| <= |s| && s[|p|..|p| + |x|] == x
  {
    assert (p + x)[|p|..] == x;
  }

  /** The number of falsy fields. */
  function NumFalsy(config: Json, fields: seq<string>): nat
    decreases |fields|
  {
    if fields == [] then 0
    else NumFalsy(config, fields[..|fields| - 1]) + (if TruthyOpt(Field(config, fields[|fields| - 1])) then 0 else 1)
  }

  lemma {:induction false} MissingFieldsSnoc(config: Json, fields: seq<string>)
    requires fields != []
    ensures MissingFields(config, fields)
      == MissingFields(config, fields[..|fields| - 1]) + FieldErrors(config, fields[|fields| - 1])
  {
  }

  lemma {:induction false} MissingFieldsPrefix(config: Json, fields: seq<string>, j: nat)
    requires j <= |fields|
    ensures MissingFields(config, fields[..j]) <= MissingFields(config, fields)
    decreases |fields|
  {
    if j == |fields| {
      assert fields[..j] == fields;
    } else {
      var pre := fields[..|fields| - 1];
      MissingFieldsSnoc(config, fields);
      assert pre[..j] == fields[..j];
      MissingFieldsPrefix(config, pre, j);
    }
  }

  /** There is one `MISSING_REQUIRED_FIELD` error per falsy field. */
  lemma {:induction false} MissingFieldsCount(config: Json, fields: seq<string>)
    ensures |MissingFields(config, fields)| == NumFalsy(config, fields)
    decreases |fields|
  {
    if fields != [] {
      MissingFieldsSnoc(config, fields);
      MissingFieldsCount(config, fields[..|fields| - 1]);
    }
  }

  /**
   * The error of the falsy field `fields[i]` is `MISSING_REQUIRED_FIELD`
   * for that field, and comes right after those of the falsy fields before
   * it.
   */
  lemma {:induction false} MissingFieldsAt(config: Json, fields: seq<string>, i: nat)
    requires i < |fields| && !TruthyOpt(Field(config, fields[i]))
    ensures NumFalsy(config, fields[..i]) < |MissingFields(config, fields)|
    ensures MissingFields(config, fields)[NumFalsy(config, fields[..i])] == MissingFieldError(fields[i])
  {
    MissingFieldsCount(config, fields[..i]);
    MissingFieldsPrefix(config, fields, i + 1);
    MissingFieldsStep(config, fields, i);
    PrefixThen(MissingFields(config, fields[..i]), [MissingFieldError(fields[i])], MissingFields(config, fields));
  }

  function RuleFieldError(index: nat): ValidationError
  {
    ValidationError("rules[" + NatToString(index) + "]", "规则必须包含 name 和 file 字段", InvalidRule)
  }

  /** The number of rules without a name or a file. */
  function NumIncomplete(rules: seq<Json>): nat
    decreases |rules|
  {
    if rules == [] then 0
    else NumIncomplete(rules[..|rules| - 1]) + (if RuleComplete(rules[|rules| - 1]) then 0 else 1)
  }

  lemma {:induction false} RuleErrorsSnoc(rules: seq<Json>)
    requires rules != [] && JNull !in rules
    ensures JNull !in rules[..|rules| - 1]
    ensures RuleErrors(rules).Ok? && RuleErrors(rules[..|rules| - 1]).Ok?
    ensures RuleErrors(rules).value
      == RuleErrors(rules[..|rules| - 1]).value + RuleError(|rules| - 1, rules[|rules| - 1])
  {
    var pre := rules[..|rules| - 1];
    assert forall x :: x in pre ==> x in rules;
    assert RuleErrors(pre).Ok?;
  }

  lemma {:induction false} RuleErrorsPrefix(rules: seq<Json>, j: nat)
    requires j <= |rules| && JNull !in rules
    ensures JNull !in rules[..j] && RuleErrors(rules[..j]).Ok? && RuleErrors(rules).Ok?
    ensures RuleErrors(rules[..j]).value <= RuleErrors(rules).value
    ensures |RuleErrors(rules[..j]).value| == NumIncomplete(rules[..j])
    decreases |rules|
  {
    if rules == [] {
      assert rules[..j] == rules;
    } else {
      var pre := rules[..|rules| - 1];
      RuleErrorsSnoc(rules);
      if j == |rules| {
        assert rules[..j] == rules;
        RuleErrorsPrefix(pre, j - 1);
        assert pre[..j - 1] == pre;
      } else {
        assert pre[..j] == rules[..j];
        RuleErrorsPrefix(pre, j);
      }
    }
  }

  lemma {:induction false} RuleErrorsStep(rules: seq<Json>, i: nat)
    requires i < |rules| && JNull !in rules[..i + 1]
    ensures RuleErrors(rules[..i]).Ok? && RuleErrors(rules[..i + 1]).Ok?
    ensures RuleErrors(rules[..i + 1]).value == RuleErrors(rules[..i]).value + RuleError(i, rules[i])
  {
    var p := rules[..i + 1];
    assert p[..i] == rules[..i];
    RuleErrorsSnoc(p);
  }

  /** Without a `null` rule, there is one `INVALID_RULE` error per incomplete rule. */
  lemma {:induction false} RuleErrorsCount(rules: seq<Json>)
    requires JNull !in rules
    ensures RuleErrors(rules).Ok?
    ensures |RuleErrors(rules).value| == NumIncomplete(rules)
  {
    RuleErrorsPrefix(rules, |rules|);
    assert rules[..|rules|] == rules;
  }

  /**
   * Without a `null` rule, the error of the incomplete rule `i` is the
   * `INVALID_RULE` error named `rules[i]`, right after those of the
   * incomplete rules before it.
   */
  lemma {:induction false} RuleErrorsAt(rules: seq<Json>, i: nat)
    requires JNull !in rules && i < |rules| && !RuleComplete(rules[i])
    ensures RuleErrors(rules).Ok?
    ensures NumIncomplete(rules[..i]) < |RuleErrors(rules).value|
    ensures RuleErrors(rules).value[NumIncomplete(rules[..i])] == RuleFieldError(i)
  {
    RuleErrorsPrefix(rules, i);
    RuleErrorsPrefix(rules, i + 1);
    RuleErrorsStep(rules, i);
    PrefixThen(RuleErrors(rules[..i]).value, [RuleFieldError(i)], RuleErrors(rules).value);
  }

  /** The number of errors the definitions give. */
  function NumDefinitionErrors(entries: seq<(string, Json)>): nat
    decreases |entries|
  {
    if entries == [] then 0
    else
      var v := entries[|entries| - 1].1;
      NumDefinitionErrors(entries[..|entries| - 1])
      + (if Typed(v) && !OneOf(Field(v, "type"), VariableTypes) then 1 else 0)
      + (if Typed(v) && Field(v, "type") == Some(JStr("enum")) && !IsArray(Field(v, "enum")) then 1 else 0)
  }

  lemma DefinitionErrorCount(key: string, v: Json)
    ensures |DefinitionErrors(key, v)|
      == (if Typed(v) && !OneOf(Field(v, "type"), VariableTypes) then 1 else 0)
      + (if Typed(v) && Field(v, "type") == Some(JStr("enum")) && !IsArray(Field(v, "enum")) then 1 else 0)
  {
  }

  predicate NoNullDefinition(entries: seq<(string, Json)>)
  {
    forall i :: 0 <= i < |entries| ==> !entries[i].1.JNull?
  }

  lemma {:induction false} VariableErrorsSnoc(entries: seq<(string, Json)>)
    requires entries != [] && NoNullDefinition(entries)
    ensures NoNullDefinition(entries[..|entries| - 1])
    ensures VariableErrors(entries).Ok? && VariableErrors(entries[..|entries| - 1]).Ok?
    ensures VariableErrors(entries).value == VariableErrors(entries[..|entries| - 1]).value
      + DefinitionErrors(entries[|entries| - 1].0, entries[|entries| - 1].1)
  {
    var pre := entries[..|entries| - 1];
    assert forall i :: 0 <= i < |pre| ==> pre[i] == entries[i];
    assert VariableErrors(pre).Ok?;
  }

  lemma {:induction false} VariableErrorsPrefix(entries: seq<(string, Json)>, j: nat)
    requires j <= |entries| && NoNullDefinition(entries)
    ensures NoNullDefinition(entries[..j]) && VariableErrors(entries[..j]).Ok? && VariableErrors(entries).Ok?
    ensures VariableErrors(entries[..j]).value <= VariableErrors(entries).value
    ensures |VariableErrors(entries[..j]).value| == NumDefinitionErrors(entries[..j])
    decreases |entries|
  {
    if entries == [] {
      assert entries[..j] == entries;
    } else {
      var pre := entries[..|entries| - 1];
      var last := entries[|entries| - 1];
      VariableErrorsSnoc(entries);
      if j == |entries| {
        assert entries[..j] == entries;
        VariableErrorsPrefix(pre, j - 1);
        assert pre[..j - 1] == pre;
        DefinitionErrorCount(last.0, last.1);
      } else {
        assert pre[..j] == entries[..j];
        VariableErrorsPrefix(pre, j);
      }
    }
  }

  lemma {:induction false} VariableErrorsStep(entries: seq<(string, Json)>, i: nat)
    requires i < |entries| && NoNullDefinition(entries[..i + 1])
    ensures VariableErrors(entries[..i]).Ok? && VariableErrors(entries[..i + 1]).Ok?
    ensures VariableErrors(entries[..i + 1]).value
      == VariableErrors(entries[..i]).value + DefinitionErrors(entries[i].0, entries[i].1)
  {
    var p := entries[..i + 1];
    assert p[..i] == entries[..i];
    VariableErrorsSnoc(p);
  }

  /** Without a `null` definition, there are as many errors as the definitions give. */
  lemma {:induction false} VariableErrorsCount(entries: seq<(string, Json)>)
    requires NoNullDefinition(entries)
    ensures VariableErrors(entries).Ok?
    ensures |VariableErrors(entries).value| == NumDefinitionErrors(entries)
  {
    VariableErrorsPrefix(entries, |entries|);
    assert entries[..|entries|] == entries;
  }

  /**
   * Without a `null` definition, the errors of `entries[i]`, at most one as
   * `DefinitionErrorsMeaning` states, follow those of the definitions
   * before it.
   */
  lemma {:induction false} VariableErrorsAt(entries: seq<(string, Json)>, i: nat)
    requires NoNullDefinition(entries) && i < |entries|
    ensures VariableErrors(entries).Ok?
    ensures NumDefinitionErrors(entries[..i]) + |DefinitionErrors(entries[i].0, entries[i].1)| <= |VariableErrors(entries).value|
    ensures VariableErrors(entries).value[NumDefinitionErrors(entries[..i])..NumDefinitionErrors(entries[..i]) + |DefinitionErrors(entries[i].0, entries[i].1)|]
      == DefinitionErrors(entries[i].0, entries[i].1)
  {
    VariableErrorsPrefix(entries, i);
    VariableErrorsPrefix(entries, i + 1);
    VariableErrorsStep(entries, i);
    PrefixThen(VariableErrors(entries[..i]).value, DefinitionErrors(entries[i].0, entries[i].1), VariableErrors(entries).value);
  }

  /** The loop over the required fields. */
  method CheckRequiredFields(config: Json) returns (errors: seq<ValidationError>)
    ensures errors == MissingFields(config, RequiredFields)
  {
    errors := [];
    var i := 0;
    while i < |RequiredFields|
      invariant 0 <= i <= |RequiredFields|
      invariant errors == MissingFields(config, RequiredFields[..i])
    {
      var field := RequiredFields[i];
      MissingFieldsStep(config, RequiredFields, i);
      if !TruthyOpt(Field(config, field)) {
        errors := errors + [MissingFieldError(field)];
      }
      i := i + 1;
    }
    assert RequiredFields[..i] == RequiredFields;
  }

  /** `config.rules.forEach(...)`. */
  method CheckRules(rules: seq<Json>) returns (r: Result<seq<ValidationError>, string>)
    ensures r == RuleErrors(rules)
  {
    var errors: seq<ValidationError> := [];
    var j := 0;
    while j < |rules|
      invariant 0 <= j <= |rules|
      invariant RuleErrors(rules[..j]) == Ok(errors)
    {
      assert rules[..j + 1][..j] == rules[..j];
      if rules[j].JNull? {
        assert JNull in rules;
        return Err(NullAccess("name"));
      }
      errors := errors + RuleError(j, rules[j]);
      j := j + 1;
    }
    assert rules[..j] == rules;
    return Ok(errors);
  }

  /** `Object.entries(config.variables).forEach(...)`. */
  method CheckDefinitions(entries: seq<(string, Json)>) returns (r: Result<seq<ValidationError>, string>)
    ensures r == VariableErrors(entries)
  {
    var errors: seq<ValidationError> := [];
    var j := 0;
    while j < |entries|
      invariant 0 <= j <= |entries|
      invariant VariableErrors(entries[..j]) == Ok(errors)
    {
      assert entries[..j + 1][..j] == entries[..j];
      var (key, definition) := entries[j];
      if definition.JNull? {
        assert entries[j].1.JNull?;
        return Err(NullAccess("type"));
      }
      errors := errors + DefinitionErrors(key, definition);
      j := j + 1;
    }
    assert entries[..j] == entries;
    return Ok(errors);
  }

  /** `validateTemplateConfig`, pushing errors as the checks find them. */
  method ValidateTemplateConfig(config: Json) returns (r: Result<ValidationResult, string>)
    ensures r == Validate(config)
  {
    if config.JNull? {
      return Err(NullAccess("id"));
    }
    var errors := CheckRequiredFields(config);
    errors := errors + CategoryErrors(config) + CompatibilityErrors(config);
    var rules := Field(config, "rules");
    if TruthyOpt(rules) && rules.value.JArr? {
      var ruleErrors := CheckRules(rules.value.items);
      if ruleErrors.Err? {
        return Err(ruleErrors.error);
      }
      errors := errors + ruleErrors.value;
    }
    assert errors == MissingFields(config, RequiredFields) + CategoryErrors(config)
      + CompatibilityErrors(config) + RulesChecked(config).value;
    var variables := Field(config, "variables");
    if TruthyOpt(variables) {
      var definitionErrors := CheckDefinitions(Entries(variables.value));
      if definitionErrors.Err? {
        return Err(definitionErrors.error);
      }
      errors := errors + definitionErrors.value;
    }
    assert errors == MissingFields(config, RequiredFields) + CategoryErrors(config)
      + CompatibilityErrors(config) + RulesChecked(config).value + VariablesChecked(config).value;
    return Ok(ValidationResult(|errors| == 0, errors, VersionWarnings(config)));
  }
}
