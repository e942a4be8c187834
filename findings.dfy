/**
 * Detection stores `hasTypeScript` and `hasTests` as the first truthy
 * operand of an `||` chain, so with a dependency declared they hold the
 * dependency's version string. Compound conditions substitute that string
 * into the expression text, where a version such as `^5.0.0` carries
 * characters the gate refuses: the rule is dropped although the condition
 * is true of the project. Stored as booleans, every compound condition
 * means what it says.
 */
module Findings {
  import opened Wrappers
  import opened Json
  import opened Text
  import opened Project
  import opened Detector
  import opened Condition

  /** A React project written in TypeScript. */
  const TsReactManifest: Json :=
    JObj([("dependencies", JObj([("react", JStr("^18.2.0")), ("typescript", JStr("^5.0.0"))]))])

  const ManifestOnly: set<string> := {"package.json"}

  /** The condition `(hasTypeScript && isReact)`. */
  const TypeScriptAndReact: Formula := FBin(LogicalAnd, FFact(HasTypeScript), FFact(IsReact))

  const TsReactDeps: seq<(string, Json)> := [("react", JStr("^18.2.0")), ("typescript", JStr("^5.0.0"))]

  lemma TsReactMerged()
    ensures Merged(TsReactManifest) == TsReactDeps
  {
    assert Field(TsReactManifest, "dependencies") == Some(JObj(TsReactDeps));
    assert Field(TsReactManifest, "devDependencies") == None;
    var r := Put([], "react", JStr("^18.2.0"));
    assert r == [("react", JStr("^18.2.0"))];
    assert Put(r, "typescript", JStr("^5.0.0")) == TsReactDeps;
    assert Spread([], TsReactDeps) == Spread(r, TsReactDeps[1..]);
    assert TsReactDeps[1..][1..] == [];
  }

  /** As written, the TypeScript flag of this project is the version string `^5.0.0`. */
  lemma VersionStringFlag()
    ensures Detect(Some(TsReactManifest), ManifestOnly).hasTypeScript == JStr("^5.0.0")
  {
    assert ReadsManifest(Some(TsReactManifest), ManifestOnly);
    DetectFields(Some(TsReactManifest), ManifestOnly);
    TsReactMerged();
    var typescript := [("typescript", JStr("^5.0.0"))];
    assert TsReactDeps[1..] == typescript;
    assert Lookup(typescript, "typescript") == Some(JStr("^5.0.0"));
    assert TsReactDeps[0].0 != "typescript";
    assert Lookup(TsReactDeps, "typescript") == Lookup(typescript, "typescript");
    FirstOperandFlag(TsReactDeps, ManifestOnly);
  }

  /** A truthy `deps.typescript` is the flag itself. */
  lemma FirstOperandFlag(deps: Deps, present: set<string>)
    requires TruthyOpt(Lookup(deps, "typescript"))
    ensures TypeScriptFlag(deps, present) == Lookup(deps, "typescript").value
  {
  }

  lemma TsReactDepsType()
    ensures DetectProjectType(TsReactDeps) == React
  {
    assert Lookup(TsReactDeps, "react") == Some(JStr("^18.2.0"));
    assert Lookup(TsReactDeps, "next") == None by {
      assert Lookup(TsReactDeps[1..], "next") == None;
    }
    ReactType(TsReactDeps);
  }

  /** React without Next.js is detected as a React project. */
  lemma ReactType(deps: Deps)
    requires Has(deps, "react") && !Has(deps, "next")
    ensures DetectProjectType(deps) == React
  {
  }

  lemma DetectedAsReact()
    ensures Detect(Some(TsReactManifest), ManifestOnly).projectType == React
  {
    assert ReadsManifest(Some(TsReactManifest), ManifestOnly);
    DetectFields(Some(TsReactManifest), ManifestOnly);
    TsReactMerged();
    TsReactDepsType();
  }

  /** In the text `(^5.0.0 && isReact)` the first pass leaves a `^`. */
  lemma FirstPassLeavesCaret()
    ensures '^' in Replace(Print(TypeScriptAndReact), Literal("hasTypeScript"), "^5.0.0")
  {
    var p, v := "hasTypeScript", "^5.0.0";
    var rest := " && isReact)";
    var a := p + rest;
    assert Print(TypeScriptAndReact) == "(" + a;
    assert Replace("(" + a, Literal(p), v) == "(" + Replace(a, Literal(p), v) by {
      ReplaceKeepsPrefix("(", a, p, v, 'y');
    }
    assert Replace(a, Literal(p), v) == v + Replace(rest, Literal(p), v) by {
      ReplaceAppend(p, rest, p, v);
      ReplaceWhole(p, v);
    }
    var s1 := "(" + (v + Replace(rest, Literal(p), v));
    assert s1[1] == '^';
  }

  /** A character that the name does not contain survives replacing the name. */
  lemma KeepsChar(s: string, name: string, v: string, c: char)
    requires c in s && c !in name
    ensures c in Replace(s, Literal(name), v)
  {
    LiteralAvoids(name, c);
    ReplaceKeepsChar(MatcherOf(Literal(name)), s, v, c);
  }

  /** With the version string as the flag, the substituted text keeps a `^`. */
  lemma CaretSurvivesSubstitution(info: ProjectInfo)
    requires info.hasTypeScript == JStr("^5.0.0")
    ensures '^' in Substitute(Print(TypeScriptAndReact), info)
  {
    var s1 := Pass(Print(TypeScriptAndReact), HasTypeScript, info);
    assert '^' in s1 by {
      FirstPassLeavesCaret();
      assert FactText(HasTypeScript, info) == "^5.0.0";
    }
    LaterPassesKeepCaret(s1, info);
  }

  /** The passes after the first never remove a `^`. */
  lemma LaterPassesKeepCaret(s1: string, info: ProjectInfo)
    requires '^' in s1
    ensures '^' in Pass(Pass(Pass(Pass(s1, HasTests, info), IsReact, info), IsVue, info), IsNode, info)
  {
    var s2 := Pass(s1, HasTests, info);
    PassKeepsCaret(s1, HasTests, info);
    var s3 := Pass(s2, IsReact, info);
    PassKeepsCaret(s2, IsReact, info);
    var s4 := Pass(s3, IsVue, info);
    PassKeepsCaret(s3, IsVue, info);
    PassKeepsCaret(s4, IsNode, info);
  }

  lemma PassKeepsCaret(s: string, k: Fact, info: ProjectInfo)
    requires '^' in s
    ensures '^' in Pass(s, k, info)
  {
    assert '^' !in k.Name();
    KeepsChar(s, k.Name(), FactText(k, info), '^');
  }

  /** Any React project whose TypeScript flag is `^5.0.0` loses the rule. */
  lemma CompoundConditionDroppedFor(info: ProjectInfo)
    requires info.hasTypeScript == JStr("^5.0.0") && info.projectType == React
    ensures Denote(TypeScriptAndReact, info)
    ensures !ConditionHolds(Print(TypeScriptAndReact), info)
  {
    TypeScriptAndReactHolds(info);
    GateRefusesCaret(info);
  }

  lemma TypeScriptAndReactHolds(info: ProjectInfo)
    requires info.hasTypeScript == JStr("^5.0.0") && info.projectType == React
    ensures Denote(TypeScriptAndReact, info)
  {
    assert Truthy(info.hasTypeScript);
  }

  lemma GateRefusesCaret(info: ProjectInfo)
    requires info.hasTypeScript == JStr("^5.0.0")
    ensures !ConditionHolds(Print(TypeScriptAndReact), info)
  {
    var c := Print(TypeScriptAndReact);
    PrintedNotNamed();
    CaretSurvivesSubstitution(info);
    CaretFailsGate(Substitute(c, info));
    assert EvaluateCondition(c, info) == Some(JBool(false));
  }

  /** The printed compound condition is none of the named conditions. */
  lemma PrintedNotNamed()
    ensures !IsNamed(Print(TypeScriptAndReact))
  {
    var c := Print(TypeScriptAndReact);
    assert c[0] == '(';
  }

  /** A text holding `^` fails the gate. */
  lemma CaretFailsGate(s: string)
    requires '^' in s
    ensures !PassesGate(s)
  {
    var i :| 0 <= i < |s| && s[i] == '^';
    assert !GateChar(s[i]);
  }

  /**
   * As written: the condition is true of the detected project, yet
   * evaluating it returns `false`.
   */
  lemma CompoundConditionDroppedAsWritten()
    ensures Denote(TypeScriptAndReact, Detect(Some(TsReactManifest), ManifestOnly))
    ensures !ConditionHolds(Print(TypeScriptAndReact), Detect(Some(TsReactManifest), ManifestOnly))
  {
    VersionStringFlag();
    DetectedAsReact();
    CompoundConditionDroppedFor(Detect(Some(TsReactManifest), ManifestOnly));
  }

  /** Formulas mean the same on two records that agree on the five facts. */
  lemma {:induction false} DenoteSameFacts(f: Formula, i1: ProjectInfo, i2: ProjectInfo)
    requires forall k :: FactValue(k, i1) == FactValue(k, i2)
    ensures Denote(f, i1) == Denote(f, i2)
  {
    match f
    case FLit(_) =>
    case FFact(_) =>
    case FNot(g) => DenoteSameFacts(g, i1, i2);
    case FBin(_, a, c) => DenoteSameFacts(a, i1, i2); DenoteSameFacts(c, i1, i2);
  }

  /**
   * Corrected: with boolean flags, every compound condition over the five
   * facts holds exactly when it is true of the detected project.
   */
  lemma CompoundConditionKeptWhenFixed(manifest: Option<Json>, present: set<string>, f: Formula)
    requires !f.FFact?
    ensures ConditionHolds(Print(f), DetectFixed(manifest, present)) == Denote(f, Detect(manifest, present))
  {
    var fixed := DetectFixed(manifest, present);
    var d := Detect(manifest, present);
    PrintedConditionMeansFormula(f, fixed);
    assert fixed.projectType == d.projectType by {
      assert fixed.(hasTypeScript := JBool(false), hasTests := JBool(false)).projectType
        == d.(hasTypeScript := JBool(false), hasTests := JBool(false)).projectType;
    }
    DenoteSameFacts(f, fixed, d);
  }

  /** The project of the counterexample keeps the rule under the corrected detection. */
  lemma CompoundConditionKeptExample()
    ensures ConditionHolds(Print(TypeScriptAndReact), DetectFixed(Some(TsReactManifest), ManifestOnly))
  {
    CompoundConditionDroppedAsWritten();
    CompoundConditionKeptWhenFixed(Some(TsReactManifest), ManifestOnly, TypeScriptAndReact);
  }
}
