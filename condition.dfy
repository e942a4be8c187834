/**
 * Rule conditions. Nine names are answered directly from the project facts;
 * any other text has five fact names replaced by `true`/`false`, must then
 * consist only of characters from the gate class, and is evaluated as a
 * JavaScript `return` expression. The JavaScript that can pass the gate is
 * the language of the tokens `true`, `false`, other words over the gate's
 * letters, `!`, `&`, `&&`, `|`, `||` and parentheses; this module gives it a
 * tokenizer, a precedence parser and JavaScript's evaluation rules.
 * Anything that does not parse, or that reads an undefined name, yields
 * `false`.
 */
module Condition {
  import opened Wrappers
  import opened Json
  import opened Text
  import opened Project

  // ---------------------------------------------------------------- the gate

  /** The letters of the gate class `[true|false|&|!|\s()]`. */
  predicate WordChar(c: char)
  {
    c == 't' || c == 'r' || c == 'u' || c == 'e' || c == 'f' || c == 'a' || c == 'l' || c == 's'
  }

  predicate GateChar(c: char)
  {
    WordChar(c) || c == '|' || c == '&' || c == '!' || c == '(' || c == ')' || IsSpace(c)
  }

  /** `/^[true|false|&|!|\s()]+$/.test(s)`. */
  predicate PassesGate(s: string)
  {
    |s| > 0 && forall i :: 0 <= i < |s| ==> GateChar(s[i])
  }

  // ---------------------------------------------------------------- tokens

  datatype Token = TWord(w: string) | TNot | TAmp | TAmpAmp | TBar | TBarBar | TOpen | TClose

  /** A token and whether a line terminator precedes it (what automatic semicolon insertion looks at). */
  datatype Lexeme = Lexeme(token: Token, newlineBefore: bool)

  predicate IsLineTerminator(c: char)
  {
    c == '\n' || c == '\r' || c == '\U{2028}' || c == '\U{2029}'
  }

  /** The length of the identifier at the start of `s` (identifiers here are runs of gate letters). */
  function WordLen(s: string): (n: nat)
    ensures n <= |s|
    ensures s != [] && WordChar(s[0]) ==> n > 0
  {
    if s != [] && WordChar(s[0]) then 1 + WordLen(s[1..]) else 0
  }

  function Cons(t: Lexeme, r: Option<seq<Lexeme>>): Option<seq<Lexeme>>
  {
    if r.Some? then Some([t] + r.value) else None
  }

  /** JavaScript's lexer on gate text; `None` for a character outside it. */
  function Tokenize(s: string): Option<seq<Lexeme>>
  {
    Lex(s, false)
  }

  /** The lexer, `nl` recording a line terminator since the last token. */
  function Lex(s: string, nl: bool): Option<seq<Lexeme>>
    decreases |s|
  {
    if s == [] then Some([])
    else if IsSpace(s[0]) then Lex(s[1..], nl || IsLineTerminator(s[0]))
    else if s[0] == '&' then
      if |s| > 1 && s[1] == '&' then Cons(Lexeme(TAmpAmp, nl), Lex(s[2..], false))
      else Cons(Lexeme(TAmp, nl), Lex(s[1..], false))
    else if s[0] == '|' then
      if |s| > 1 && s[1] == '|' then Cons(Lexeme(TBarBar, nl), Lex(s[2..], false))
      else Cons(Lexeme(TBar, nl), Lex(s[1..], false))
    else if s[0] == '!' then Cons(Lexeme(TNot, nl), Lex(s[1..], false))
    else if s[0] == '(' then Cons(Lexeme(TOpen, nl), Lex(s[1..], false))
    else if s[0] == ')' then Cons(Lexeme(TClose, nl), Lex(s[1..], false))
    else if WordChar(s[0]) then
      var n := WordLen(s);
      Cons(Lexeme(TWord(s[..n]), nl), Lex(s[n..], false))
    else None
  }

  // ---------------------------------------------------------------- syntax

  /** The binary operators, loosest first: `||`, `&&`, `|`, `&`. */
  datatype BinOp = LogicalOr | LogicalAnd | BitwiseOr | BitwiseAnd

  function Level(op: BinOp): (l: nat)
    ensures l < 4
  {
    match op
    case LogicalOr => 0
    case LogicalAnd => 1
    case BitwiseOr => 2
    case BitwiseAnd => 3
  }

  function OpAt(level: nat): (op: BinOp)
    requires level < 4
    ensures Level(op) == level
  {
    if level == 0 then LogicalOr else if level == 1 then LogicalAnd else if level == 2 then BitwiseOr else BitwiseAnd
  }

  function OpToken(op: BinOp): Token
  {
    match op
    case LogicalOr => TBarBar
    case LogicalAnd => TAmpAmp
    case BitwiseOr => TBar
    case BitwiseAnd => TAmp
  }

  /** Expressions over the gate's tokens; `Call` is `callee()` or `callee(arg)`. */
  datatype Expr =
    | Lit(b: bool)
    | Ident(name: string)
    | Not(operand: Expr)
    | Binary(op: BinOp, left: Expr, right: Expr)
    | Call(callee: Expr, arg: Option<Expr>)

  predicate StartsWithToken(t: seq<Lexeme>, tok: Token)
  {
    t != [] && t[0].token == tok
  }

  /**
   * The operators of precedence `level` and tighter, left-associative
   * (level 4 is a unary expression); returns the tree and the tokens left over.
   */
  function ParseLevel(level: nat, t: seq<Lexeme>): (r: Option<(Expr, seq<Lexeme>)>)
    requires level <= 4
    ensures r.Some? ==> |r.value.1| < |t|
    decreases |t|, 10 - level
  {
    if level == 4 then ParseUnary(t)
    else
      match ParseLevel(level + 1, t)
      case None => None
      case Some((left, rest)) => ParseTail(level, left, rest)
  }

  /** `(op operand)*` for the operator of `level`, folded to the left onto `left`. */
  function ParseTail(level: nat, left: Expr, t: seq<Lexeme>): (r: Option<(Expr, seq<Lexeme>)>)
    requires level < 4
    ensures r.Some? ==> |r.value.1| <= |t|
    decreases |t|, 5
  {
    if StartsWithToken(t, OpToken(OpAt(level))) then
      match ParseLevel(level + 1, t[1..])
      case None => None
      case Some((right, rest)) => ParseTail(level, Binary(OpAt(level), left, right), rest)
    else Some((left, t))
  }

  /** `!` expressions, and call expressions. */
  function ParseUnary(t: seq<Lexeme>): (r: Option<(Expr, seq<Lexeme>)>)
    ensures r.Some? ==> |r.value.1| < |t|
    decreases |t|, 5
  {
    if StartsWithToken(t, TNot) then
      match ParseUnary(t[1..])
      case None => None
      case Some((e, rest)) => Some((Not(e), rest))
    else
      match ParsePrimary(t)
      case None => None
      case Some((e, rest)) => ParseCalls(e, rest)
  }

  /** Literals, identifiers and parenthesised expressions. */
  function ParsePrimary(t: seq<Lexeme>): (r: Option<(Expr, seq<Lexeme>)>)
    ensures r.Some? ==> |r.value.1| < |t|
    decreases |t|, 4
  {
    if t == [] then None
    else
      match t[0].token
      case TOpen =>
        (match ParseLevel(0, t[1..])
         case None => None
         case Some((e, rest)) => if StartsWithToken(rest, TClose) then Some((e, rest[1..])) else None)
      case TWord(w) =>
        if w == "true" then Some((Lit(true), t[1..]))
        else if w == "false" then Some((Lit(false), t[1..]))
        else if w == "else" then None  // a reserved word cannot start an expression
        else Some((Ident(w), t[1..]))
      case _ => None
  }

  /** Argument lists after a callee: `()` or `(expr)`, any number of them. */
  function ParseCalls(callee: Expr, t: seq<Lexeme>): (r: Option<(Expr, seq<Lexeme>)>)
    ensures r.Some? ==> |r.value.1| <= |t|
    decreases |t|, 3
  {
    if !StartsWithToken(t, TOpen) then Some((callee, t))
    else if StartsWithToken(t[1..], TClose) then ParseCalls(Call(callee, None), t[2..])
    else
      match ParseLevel(0, t[1..])
      case None => None
      case Some((arg, rest)) =>
        if StartsWithToken(rest, TClose) then ParseCalls(Call(callee, Some(arg)), rest[1..]) else None
  }

  /**
   * Expression statements after the returned one: automatic semicolon
   * insertion ends a statement only before a token on a new line that
   * cannot continue it.
   */
  predicate ParseStatements(t: seq<Lexeme>)
    decreases |t|
  {
    if t == [] then true
    else if !t[0].newlineBefore then false
    else
      match ParseLevel(0, t)
      case None => false
      case Some((_, rest)) => ParseStatements(rest)
  }

  /**
   * The body `return <tokens>`: `Some(None)` when `return` returns
   * `undefined` (nothing follows it on its line), `Some(Some(e))` for
   * `return e`, `None` for a syntax error.
   */
  function ParseReturn(t: seq<Lexeme>): Option<Option<Expr>>
  {
    if t == [] then Some(None)
    else if t[0].newlineBefore then (if ParseStatements(t) then Some(None) else None)
    else
      match ParseLevel(0, t)
      case Some((e, rest)) => if ParseStatements(rest) then Some(Some(e)) else None
      case None => None
  }

  // ---------------------------------------------------------------- evaluation

  /** `ToInt32` of a value these expressions produce (a boolean, 0 or 1). */
  function Bit(v: Json): int
  {
    if Truthy(v) then 1 else 0
  }

  /**
   * JavaScript evaluation; `Err` is the exception: a ReferenceError for an
   * undefined name, a TypeError for calling a boolean or a number.
   */
  function Eval(e: Expr): (r: Result<Json, string>)
    ensures r.Ok? ==> r.value.JBool? || (r.value.JNum? && 0 <= r.value.n <= 1)
  {
    match e
    case Lit(b) => Ok(JBool(b))
    case Ident(name) => Err("ReferenceError: " + name + " is not defined")
    case Not(x) =>
      (match Eval(x)
       case Err(m) => Err(m)
       case Ok(v) => Ok(JBool(!Truthy(v))))
    case Call(f, arg) =>
      (match Eval(f)
       case Err(m) => Err(m)
       case Ok(_) =>
         if arg.None? then Err("TypeError: not a function")
         else
           match Eval(arg.value)
           case Err(m) => Err(m)
           case Ok(_) => Err("TypeError: not a function"))
    case Binary(op, x, y) =>
      match Eval(x)
      case Err(m) => Err(m)
      case Ok(a) =>
        match op
        case LogicalOr => if Truthy(a) then Ok(a) else Eval(y)
        case LogicalAnd => if !Truthy(a) then Ok(a) else Eval(y)
        case BitwiseOr =>
          (match Eval(y)
           case Err(m) => Err(m)
           case Ok(b) => Ok(JNum(if Bit(a) == 1 || Bit(b) == 1 then 1 else 0)))
        case BitwiseAnd =>
          (match Eval(y)
           case Err(m) => Err(m)
           case Ok(b) => Ok(JNum(if Bit(a) == 1 && Bit(b) == 1 then 1 else 0)))
  }

  /**
   * `new Function('return ' + expr)()` behind the gate, inside the `try`:
   * text outside the gate, a syntax error or a thrown exception all end in
   * `false`; `None` is the `undefined` of a `return` with nothing after it.
   */
  function EvaluateExpression(expr: string): (r: Option<Json>)
    ensures !PassesGate(expr) ==> r == Some(JBool(false))
  {
    if !PassesGate(expr) then Some(JBool(false))
    else
      match Tokenize(expr)
      case None => Some(JBool(false))
      case Some(t) =>
        match ParseReturn(t)
        case None => Some(JBool(false))
        case Some(None) => None
        case Some(Some(e)) =>
          match Eval(e)
          case Err(_) => Some(JBool(false))
          case Ok(v) => Some(v)
  }

  // ---------------------------------------------------------------- conditions

  predicate IsNamed(condition: string)
  {
    condition == "hasTypeScript" || condition == "hasTests" || condition == "isReact"
    || condition == "isVue" || condition == "isNode" || condition == "isNext"
    || condition == "isPnpm" || condition == "isYarn" || condition == "isNpm"
  }

  /** `String(value)` of the fact a name stands for. */
  function FactText(k: Fact, info: ProjectInfo): string
  {
    match k
    case HasTypeScript => JsString(info.hasTypeScript)
    case HasTests => JsString(info.hasTests)
    case IsReact => JsString(JBool(info.projectType == React))
    case IsVue => JsString(JBool(info.projectType == Vue))
    case IsNode => JsString(JBool(info.projectType == Node))
  }

  /** One global replacement of a fact's name by its text. */
  function Pass(s: string, k: Fact, info: ProjectInfo): string
  {
    Replace(s, Literal(k.Name()), FactText(k, info))
  }

  /** The five replacements, in the order the source applies them. */
  function Substitute(condition: string, info: ProjectInfo): string
  {
    Pass(Pass(Pass(Pass(Pass(condition, HasTypeScript, info), HasTests, info), IsReact, info), IsVue, info), IsNode, info)
  }

  /**
   * `evaluateCondition`: the value it returns (declared boolean, but the
   * two flags are returned as stored and `&`/`|` give numbers); `None` is
   * `undefined`. Callers read it through truthiness.
   */
  function EvaluateCondition(condition: string, info: ProjectInfo): (r: Option<Json>)
    ensures condition == "hasTypeScript" ==> r == Some(info.hasTypeScript)
    ensures condition == "hasTests" ==> r == Some(info.hasTests)
    ensures IsNamed(condition) && condition != "hasTypeScript" && condition != "hasTests" ==> r.Some? && r.value.JBool?
    ensures !IsNamed(condition) && !PassesGate(Substitute(condition, info)) ==> r == Some(JBool(false))
  {
    if condition == "hasTypeScript" then Some(info.hasTypeScript)
    else if condition == "hasTests" then Some(info.hasTests)
    else if condition == "isReact" then Some(JBool(info.projectType == React || info.framework == Some("react")))
    else if condition == "isVue" then Some(JBool(info.projectType == Vue || info.framework == Some("vue")))
    else if condition == "isNode" then Some(JBool(info.projectType == Node))
    else if condition == "isNext" then Some(JBool(info.projectType == Next || info.framework == Some("next")))
    else if condition == "isPnpm" then Some(JBool(info.packageManager == Pnpm))
    else if condition == "isYarn" then Some(JBool(info.packageManager == Yarn))
    else if condition == "isNpm" then Some(JBool(info.packageManager == Npm))
    else EvaluateExpression(Substitute(condition, info))
  }

  /** Whether a rule with this condition is kept: the truthiness of the returned value. */
  predicate ConditionHolds(condition: string, info: ProjectInfo)
  {
    TruthyOpt(EvaluateCondition(condition, info))
  }

  /**
   * A condition read from a template that is not a string: `.replace` is not
   * a function, the TypeError is caught, and the result is `false`.
   */
  function EvaluateConditionValue(condition: Json, info: ProjectInfo): (r: Option<Json>)
    ensures !condition.JStr? ==> r == Some(JBool(false))
  {
    if condition.JStr? then EvaluateCondition(condition.s, info) else Some(JBool(false))
  }

  /** Each named condition is exactly its project fact. */
  lemma NamedConditions(info: ProjectInfo)
    ensures ConditionHolds("hasTypeScript", info) == Truthy(info.hasTypeScript)
    ensures ConditionHolds("hasTests", info) == Truthy(info.hasTests)
    ensures ConditionHolds("isReact", info) == (info.projectType == React || info.framework == Some("react"))
    ensures ConditionHolds("isVue", info) == (info.projectType == Vue || info.framework == Some("vue"))
    ensures ConditionHolds("isNode", info) == (info.projectType == Node)
    ensures ConditionHolds("isNext", info) == (info.projectType == Next || info.framework == Some("next"))
    ensures ConditionHolds("isPnpm", info) == (info.packageManager == Pnpm)
    ensures ConditionHolds("isYarn", info) == (info.packageManager == Yarn)
    ensures ConditionHolds("isNpm", info) == (info.packageManager == Npm)
  {
  }

  // ---------------------------------------------------------------- formulas

  /** The five facts the expression path substitutes, in substitution order. */
  datatype Fact = HasTypeScript | HasTests | IsReact | IsVue | IsNode
  {
    function Name(): string
    {
      match this
      case HasTypeScript => "hasTypeScript"
      case HasTests => "hasTests"
      case IsReact => "isReact"
      case IsVue => "isVue"
      case IsNode => "isNode"
    }

    function Index(): nat
    {
      match this
      case HasTypeScript => 0
      case HasTests => 1
      case IsReact => 2
      case IsVue => 3
      case IsNode => 4
    }

    /** A letter of this name that no later name, no literal and no operator contains. */
    function Mark(): (c: char)
      ensures c in Name()
    {
      match this
      case HasTypeScript => 'y'
      case HasTests => 'h'
      case IsReact => 'R'
      case IsVue => 'V'
      case IsNode => 'N'
    }
  }

  /** A boolean formula over the facts, as a template author writes a condition. */
  datatype Formula = FLit(b: bool) | FFact(k: Fact) | FNot(g: Formula) | FBin(op: BinOp, a: Formula, c: Formula)

  function BoolText(b: bool): string
  {
    if b then "true" else "false"
  }

  function OpText(op: BinOp): (s: string)
    ensures |s| >= 3 && s[0] == ' ' && s[|s| - 1] == ' '
    ensures forall i :: 0 <= i < |s| ==> s[i] == ' ' || s[i] == '&' || s[i] == '|'
  {
    match op
    case LogicalOr => " || "
    case LogicalAnd => " && "
    case BitwiseOr => " | "
    case BitwiseAnd => " & "
  }

  /** The condition text of a formula, fully parenthesised. */
  function Print(f: Formula): string
  {
    match f
    case FLit(b) => BoolText(b)
    case FFact(k) => k.Name()
    case FNot(g) => "!" + Print(g)
    case FBin(op, a, c) => "(" + Print(a) + OpText(op) + Print(c) + ")"
  }

  function FactValue(k: Fact, info: ProjectInfo): bool
  {
    match k
    case HasTypeScript => Truthy(info.hasTypeScript)
    case HasTests => Truthy(info.hasTests)
    case IsReact => info.projectType == React
    case IsVue => info.projectType == Vue
    case IsNode => info.projectType == Node
  }

  /** What a formula means for a project: `&` and `|` act as `&&` and `||` on truth values. */
  predicate Denote(f: Formula, info: ProjectInfo)
  {
    match f
    case FLit(b) => b
    case FFact(k) => FactValue(k, info)
    case FNot(g) => !Denote(g, info)
    case FBin(op, a, c) =>
      if op == LogicalOr || op == BitwiseOr then Denote(a, info) || Denote(c, info)
      else Denote(a, info) && Denote(c, info)
  }

  predicate Ground(f: Formula)
  {
    match f
    case FLit(_) => true
    case FFact(_) => false
    case FNot(g) => Ground(g)
    case FBin(_, a, c) => Ground(a) && Ground(c)
  }

  /** The formula with every fact replaced by its value for the project. */
  function GroundWith(f: Formula, info: ProjectInfo): (g: Formula)
    ensures Ground(g)
  {
    match f
    case FLit(_) => f
    case FFact(k) => FLit(FactValue(k, info))
    case FNot(g) => FNot(GroundWith(g, info))
    case FBin(op, a, c) => FBin(op, GroundWith(a, info), GroundWith(c, info))
  }

  /** A token on the same line as the one before it. */
  function L(t: Token): Lexeme
  {
    Lexeme(t, false)
  }

  function Tokens(f: Formula): seq<Lexeme>
  {
    match f
    case FLit(b) => [L(TWord(BoolText(b)))]
    case FFact(k) => [L(TWord(k.Name()))]
    case FNot(g) => [L(TNot)] + Tokens(g)
    case FBin(op, a, c) => [L(TOpen)] + Tokens(a) + [L(OpToken(op))] + Tokens(c) + [L(TClose)]
  }

  function ToExpr(f: Formula): Expr
  {
    match f
    case FLit(b) => Lit(b)
    case FFact(k) => Ident(k.Name())
    case FNot(g) => Not(ToExpr(g))
    case FBin(op, a, c) => Binary(op, ToExpr(a), ToExpr(c))
  }

  // ------------------------------------------- substitution on printed formulas

  lemma MarkAbsent(k: Fact, k': Fact)
    requires k'.Index() > k.Index()
    ensures k.Mark() !in k'.Name()
  {
  }

  /** What separates the parts of a printed formula never belongs to a fact name. */
  lemma PunctuationNotInNames(k: Fact)
    ensures '(' !in k.Name() && ')' !in k.Name() && '!' !in k.Name() && ' ' !in k.Name()
    ensures k.Mark() !in "(" && k.Mark() !in ")" && k.Mark() !in "!"
  {
  }

  /** No marker occurs in a boolean literal. */
  lemma MarkNotInLiterals(k: Fact)
    ensures k.Mark() !in "true" && k.Mark() !in "false"
  {
  }

  lemma MarkNotInOp(k: Fact, op: BinOp)
    ensures k.Mark() !in OpText(op)
  {
    var s := OpText(op);
    forall i | 0 <= i < |s| ensures s[i] != k.Mark() {
    }
  }

  /** A leading piece without the pattern's marker, ending outside the pattern, is kept. */
  lemma ReplaceKeepsPrefix(q: string, a: string, p: string, v: string, c: char)
    requires c in p && c !in q && |q| > 0 && q[|q| - 1] !in p
    ensures Replace(q + a, Literal(p), v) == q + Replace(a, Literal(p), v)
  {
    ReplaceAppend(q, a, p, v);
    ReplaceAbsent(q, p, v, c);
  }

  /** A trailing piece without the pattern's marker, starting outside the pattern, is kept. */
  lemma ReplaceKeepsSuffix(a: string, q: string, p: string, v: string, c: char)
    requires c in p && c !in q && |q| > 0 && q[0] !in p
    ensures Replace(a + q, Literal(p), v) == Replace(a, Literal(p), v) + q
  {
    ReplaceAppend(a, q, p, v);
    ReplaceAbsent(q, p, v, c);
  }

  lemma ParenthesisedAssoc(x: string, o: string, y: string)
    ensures "(" + x + o + y + ")" == "(" + (x + (o + (y + ")")))
  {
  }

  lemma BinaryTextAssoc(x: string, o: string, y: string, rest: string)
    ensures "(" + x + o + y + ")" + rest == "(" + (x + (o + (y + (")" + rest))))
  {
  }

  /** Replacing inside `(x o y)` replaces inside `x` and `y` and leaves the punctuation alone. */
  lemma ReplaceInBinary(x: string, o: string, y: string, p: string, v: string, c: char)
    requires c in p && c !in "(" && c !in ")" && c !in o
    requires '(' !in p && ')' !in p && ' ' !in p
    requires |o| > 0 && o[0] == ' ' && o[|o| - 1] == ' '
    ensures Replace("(" + x + o + y + ")", Literal(p), v)
      == "(" + Replace(x, Literal(p), v) + o + Replace(y, Literal(p), v) + ")"
  {
    var a := y + ")";
    var b := o + a;
    var d := x + b;
    ParenthesisedAssoc(x, o, y);
    ParenthesisedAssoc(Replace(x, Literal(p), v), o, Replace(y, Literal(p), v));
    ReplaceKeepsSuffix(y, ")", p, v, c);
    ReplaceKeepsPrefix(o, a, p, v, c);
    assert b[0] == ' ';
    ReplaceAppend(x, b, p, v);
    ReplaceKeepsPrefix("(", d, p, v, c);
  }

  /** Replacing inside `!x` replaces inside `x`. */
  lemma ReplaceInNot(x: string, p: string, v: string, c: char)
    requires c in p && c !in "!" && '!' !in p
    ensures Replace("!" + x, Literal(p), v) == "!" + Replace(x, Literal(p), v)
  {
    ReplaceKeepsPrefix("!", x, p, v, c);
  }

  /** A pass leaves a text without its fact's marker alone. */
  lemma PassAbsent(s: string, k: Fact, info: ProjectInfo)
    requires k.Mark() !in s
    ensures Pass(s, k, info) == s
  {
    ReplaceAbsent(s, k.Name(), FactText(k, info), k.Mark());
  }

  /** A pass works inside `(x o y)` and leaves the punctuation alone. */
  lemma PassInBinary(x: string, op: BinOp, y: string, k: Fact, info: ProjectInfo)
    ensures Pass("(" + x + OpText(op) + y + ")", k, info)
      == "(" + Pass(x, k, info) + OpText(op) + Pass(y, k, info) + ")"
  {
    PunctuationNotInNames(k);
    MarkNotInOp(k, op);
    ReplaceInBinary(x, OpText(op), y, k.Name(), FactText(k, info), k.Mark());
  }

  /** A pass works inside `!x`. */
  lemma PassInNot(x: string, k: Fact, info: ProjectInfo)
    ensures Pass("!" + x, k, info) == "!" + Pass(x, k, info)
  {
    PunctuationNotInNames(k);
    ReplaceInNot(x, k.Name(), FactText(k, info), k.Mark());
  }

  /** The five passes work inside `(x o y)`. */
  lemma SubstituteInBinary(x: string, op: BinOp, y: string, info: ProjectInfo)
    ensures Substitute("(" + x + OpText(op) + y + ")", info)
      == "(" + Substitute(x, info) + OpText(op) + Substitute(y, info) + ")"
  {
    PassInBinary(x, op, y, HasTypeScript, info);
    var x1, y1 := Pass(x, HasTypeScript, info), Pass(y, HasTypeScript, info);
    PassInBinary(x1, op, y1, HasTests, info);
    var x2, y2 := Pass(x1, HasTests, info), Pass(y1, HasTests, info);
    PassInBinary(x2, op, y2, IsReact, info);
    var x3, y3 := Pass(x2, IsReact, info), Pass(y2, IsReact, info);
    PassInBinary(x3, op, y3, IsVue, info);
    var x4, y4 := Pass(x3, IsVue, info), Pass(y3, IsVue, info);
    PassInBinary(x4, op, y4, IsNode, info);
  }

  /** The five passes work inside `!x`. */
  lemma SubstituteInNot(x: string, info: ProjectInfo)
    ensures Substitute("!" + x, info) == "!" + Substitute(x, info)
  {
    PassInNot(x, HasTypeScript, info);
    var x1 := Pass(x, HasTypeScript, info);
    PassInNot(x1, HasTests, info);
    var x2 := Pass(x1, HasTests, info);
    PassInNot(x2, IsReact, info);
    var x3 := Pass(x2, IsReact, info);
    PassInNot(x3, IsVue, info);
    var x4 := Pass(x3, IsVue, info);
    PassInNot(x4, IsNode, info);
  }

  lemma LiteralSurvives(b: bool, k: Fact, info: ProjectInfo)
    ensures Pass(BoolText(b), k, info) == BoolText(b)
  {
    MarkNotInLiterals(k);
    PassAbsent(BoolText(b), k, info);
  }

  /** A pass for an earlier fact leaves a later fact's name alone. */
  lemma NameSurvives(k: Fact, later: Fact, info: ProjectInfo)
    requires later.Index() > k.Index()
    ensures Pass(later.Name(), k, info) == later.Name()
  {
    MarkAbsent(k, later);
    PassAbsent(later.Name(), k, info);
  }

  /** A boolean literal comes through the five passes unchanged. */
  lemma SubstituteLiteral(b: bool, info: ProjectInfo)
    ensures Substitute(BoolText(b), info) == BoolText(b)
  {
    LiteralSurvives(b, HasTypeScript, info);
    LiteralSurvives(b, HasTests, info);
    LiteralSurvives(b, IsReact, info);
    LiteralSurvives(b, IsVue, info);
    LiteralSurvives(b, IsNode, info);
  }

  /** With boolean flags, a fact's name comes out of the five passes as its value. */
  lemma SubstituteFact(k: Fact, info: ProjectInfo)
    requires info.hasTypeScript.JBool? && info.hasTests.JBool?
    ensures Substitute(k.Name(), info) == BoolText(FactValue(k, info))
  {
    var b := FactValue(k, info);
    assert Pass(k.Name(), k, info) == BoolText(b) by {
      FlagText(info.hasTypeScript);
      FlagText(info.hasTests);
      assert FactText(k, info) == BoolText(b);
      ReplaceWhole(k.Name(), FactText(k, info));
    }
    match k
    case HasTypeScript =>
      LiteralSurvives(b, HasTests, info);
      LiteralSurvives(b, IsReact, info);
      LiteralSurvives(b, IsVue, info);
      LiteralSurvives(b, IsNode, info);
    case HasTests =>
      NameSurvives(HasTypeScript, k, info);
      LiteralSurvives(b, IsReact, info);
      LiteralSurvives(b, IsVue, info);
      LiteralSurvives(b, IsNode, info);
    case IsReact =>
      NameSurvives(HasTypeScript, k, info);
      NameSurvives(HasTests, k, info);
      LiteralSurvives(b, IsVue, info);
      LiteralSurvives(b, IsNode, info);
    case IsVue =>
      NameSurvives(HasTypeScript, k, info);
      NameSurvives(HasTests, k, info);
      NameSurvives(IsReact, k, info);
      LiteralSurvives(b, IsNode, info);
    case IsNode =>
      NameSurvives(HasTypeScript, k, info);
      NameSurvives(HasTests, k, info);
      NameSurvives(IsReact, k, info);
      NameSurvives(IsVue, k, info);
  }

  lemma {:induction false} GroundKeepsMeaning(f: Formula, info: ProjectInfo)
    ensures Denote(GroundWith(f, info), info) == Denote(f, info)
  {
    match f
    case FLit(_) =>
    case FFact(_) =>
    case FNot(g) => GroundKeepsMeaning(g, info);
    case FBin(_, a, c) => GroundKeepsMeaning(a, info); GroundKeepsMeaning(c, info);
  }

  /** With boolean flags, the five passes print the formula with its facts filled in. */
  lemma {:induction false} SubstitutePrint(f: Formula, info: ProjectInfo)
    requires info.hasTypeScript.JBool? && info.hasTests.JBool?
    ensures Substitute(Print(f), info) == Print(GroundWith(f, info))
  {
    match f
    case FLit(b) => SubstituteLiteral(b, info);
    case FFact(k) => SubstituteFact(k, info);
    case FNot(g) =>
      SubstitutePrint(g, info);
      SubstituteInNot(Print(g), info);
    case FBin(op, a, c) =>
      SubstitutePrint(a, info);
      SubstitutePrint(c, info);
      SubstituteInBinary(Print(a), op, Print(c), info);
  }

  /** A boolean flag prints as the text of its truthiness. */
  lemma FlagText(flag: Json)
    requires flag.JBool?
    ensures JsString(flag) == BoolText(Truthy(flag))
  {
  }

  // ------------------------------------------- gate, lexing and parsing of printed formulas

  predicate AllGate(s: string)
  {
    forall i :: 0 <= i < |s| ==> GateChar(s[i])
  }

  lemma AllGateConcat(x: string, y: string)
    requires AllGate(x) && AllGate(y)
    ensures AllGate(x + y)
  {
    forall i | 0 <= i < |x + y| ensures GateChar((x + y)[i]) {
      if i < |x| { assert (x + y)[i] == x[i]; } else { assert (x + y)[i] == y[i - |x|]; }
    }
  }

  lemma {:induction false} GatePrint(g: Formula)
    requires Ground(g)
    ensures |Print(g)| > 0 && AllGate(Print(g))
  {
    match g
    case FLit(b) =>
    case FNot(h) =>
      GatePrint(h);
      AllGateConcat("!", Print(h));
    case FBin(op, a, c) =>
      GatePrint(a);
      GatePrint(c);
      var o := OpText(op);
      assert AllGate(o);
      AllGateConcat(o, Print(c) + ")") by { AllGateConcat(Print(c), ")"); }
      AllGateConcat(Print(a), o + (Print(c) + ")"));
      AllGateConcat("(", Print(a) + (o + (Print(c) + ")")));
      ParenthesisedAssoc(Print(a), o, Print(c));
  }

  function Then(ts: seq<Lexeme>, r: Option<seq<Lexeme>>): Option<seq<Lexeme>>
  {
    if r.Some? then Some(ts + r.value) else None
  }

  lemma {:induction false} WordLenStop(w: string, rest: string)
    requires forall i :: 0 <= i < |w| ==> WordChar(w[i])
    requires rest == [] || !WordChar(rest[0])
    ensures WordLen(w + rest) == |w|
    decreases |w|
  {
    if w != [] {
      assert (w + rest)[1..] == w[1..] + rest;
      WordLenStop(w[1..], rest);
    } else {
      assert w + rest == rest;
    }
  }

  /** Skipping one leading space. */
  lemma TokenizeSpace(r: string)
    ensures Tokenize(" " + r) == Tokenize(r)
  {
    assert (" " + r)[0] == ' ' && (" " + r)[1..] == r;
  }

  lemma TokenizeOp(op: BinOp, r: string)
    ensures Tokenize(OpText(op) + r) == Cons(L(OpToken(op)), Tokenize(r))
  {
    var s := OpText(op) + r;
    var sym := OpText(op)[1..|OpText(op)| - 1];
    assert s == " " + (sym + (" " + r));
    TokenizeSpace(sym + (" " + r));
    TokenizeSpace(r);
    var u := sym + (" " + r);
    if |sym| == 2 {
      assert u[2..] == " " + r;
    } else {
      assert u[1..] == " " + r;
    }
  }

  lemma TokenizeBang(r: string)
    ensures Tokenize("!" + r) == Cons(L(TNot), Tokenize(r))
  {
    assert ("!" + r)[1..] == r;
  }

  lemma TokenizeOpen(r: string)
    ensures Tokenize("(" + r) == Cons(L(TOpen), Tokenize(r))
  {
    assert ("(" + r)[1..] == r;
  }

  lemma TokenizeClose(r: string)
    ensures Tokenize(")" + r) == Cons(L(TClose), Tokenize(r))
  {
    assert (")" + r)[1..] == r;
  }

  lemma ConsThen(t: Lexeme, ts: seq<Lexeme>, r: Option<seq<Lexeme>>)
    ensures Cons(t, Then(ts, r)) == Then([t] + ts, r)
  {
    if r.Some? {
      assert [t] + (ts + r.value) == ([t] + ts) + r.value;
    }
  }

  lemma TokensOfBinary(ta: seq<Lexeme>, t: Lexeme, tc: seq<Lexeme>, r: Option<seq<Lexeme>>)
    ensures Cons(L(TOpen), Then(ta, Cons(t, Then(tc, Cons(L(TClose), r)))))
      == Then([L(TOpen)] + ta + [t] + tc + [L(TClose)], r)
  {
    if r.Some? {
      assert [L(TOpen)] + (ta + ([t] + (tc + ([L(TClose)] + r.value))))
        == ([L(TOpen)] + ta + [t] + tc + [L(TClose)]) + r.value;
    }
  }

  lemma TokenizeLiteral(b: bool, rest: string)
    requires rest == [] || rest[0] == ' ' || rest[0] == ')'
    ensures Tokenize(BoolText(b) + rest) == Cons(L(TWord(BoolText(b))), Tokenize(rest))
  {
    var w := BoolText(b);
    WordLenStop(w, rest);
    assert (w + rest)[..|w|] == w && (w + rest)[|w|..] == rest;
  }

  lemma TokenizeNot(h: Formula, rest: string)
    requires Tokenize(Print(h) + rest) == Then(Tokens(h), Tokenize(rest))
    ensures Tokenize(Print(FNot(h)) + rest) == Then(Tokens(FNot(h)), Tokenize(rest))
  {
    var s := Print(h) + rest;
    assert Print(FNot(h)) + rest == "!" + s;
    TokenizeBang(s);
    ConsThen(L(TNot), Tokens(h), Tokenize(rest));
  }

  lemma TokenizeBinary(op: BinOp, a: Formula, c: Formula, rest: string)
    requires Tokenize(Print(a) + (OpText(op) + (Print(c) + (")" + rest))))
      == Then(Tokens(a), Tokenize(OpText(op) + (Print(c) + (")" + rest))))
    requires Tokenize(Print(c) + (")" + rest)) == Then(Tokens(c), Tokenize(")" + rest))
    ensures Tokenize(Print(FBin(op, a, c)) + rest) == Then(Tokens(FBin(op, a, c)), Tokenize(rest))
  {
    var r3 := ")" + rest;
    var r2 := Print(c) + r3;
    var r1 := OpText(op) + r2;
    assert Print(FBin(op, a, c)) + rest == "(" + (Print(a) + r1) by {
      BinaryTextAssoc(Print(a), OpText(op), Print(c), rest);
    }
    TokenizeOpen(Print(a) + r1);
    TokenizeOp(op, r2);
    TokenizeClose(rest);
    TokensOfBinary(Tokens(a), L(OpToken(op)), Tokens(c), Tokenize(rest));
  }

  /** A printed ground formula lexes to its tokens, whatever follows it after a space or `)`. */
  lemma {:induction false} TokenizePrint(g: Formula, rest: string)
    requires Ground(g)
    requires rest == [] || rest[0] == ' ' || rest[0] == ')'
    ensures Tokenize(Print(g) + rest) == Then(Tokens(g), Tokenize(rest))
  {
    match g
    case FLit(b) =>
      TokenizeLiteral(b, rest);
    case FNot(h) =>
      TokenizePrint(h, rest);
      TokenizeNot(h, rest);
    case FBin(op, a, c) =>
      TokenizePrint(a, OpText(op) + (Print(c) + (")" + rest)));
      TokenizePrint(c, ")" + rest);
      TokenizeBinary(op, a, c, rest);
  }

  /** The tokens that end an operand of precedence `level`. */
  predicate Stops(t: seq<Lexeme>, level: nat)
  {
    t == [] || t[0].token == TClose
    || (t[0].token == TBarBar && level > 0) || (t[0].token == TAmpAmp && level > 1)
    || (t[0].token == TBar && level > 2) || (t[0].token == TAmp && level > 3)
  }

  lemma {:induction false} ParsePrint(g: Formula, level: nat, rest: seq<Lexeme>)
    requires Ground(g) && level <= 4 && Stops(rest, level)
    ensures ParseLevel(level, Tokens(g) + rest) == Some((ToExpr(g), rest))
    decreases g, 2, 4 - level
  {
    if level == 4 {
      ParseUnaryPrint(g, rest);
    } else {
      ParsePrint(g, level + 1, rest);
    }
  }

  lemma ParseUnaryLiteral(b: bool, rest: seq<Lexeme>)
    requires !StartsWithToken(rest, TOpen)
    ensures ParseUnary([L(TWord(BoolText(b)))] + rest) == Some((Lit(b), rest))
  {
    var t := [L(TWord(BoolText(b)))] + rest;
    assert t[0].token == TWord(BoolText(b)) && t[1..] == rest;
    assert ParsePrimary(t) == Some((Lit(b), rest));
  }

  lemma ParseUnaryNot(h: Formula, rest: seq<Lexeme>)
    requires ParseUnary(Tokens(h) + rest) == Some((ToExpr(h), rest))
    ensures ParseUnary(Tokens(FNot(h)) + rest) == Some((ToExpr(FNot(h)), rest))
  {
    assert Tokens(FNot(h)) + rest == [L(TNot)] + (Tokens(h) + rest);
    UnaryOfNot(Tokens(h) + rest, ToExpr(h), rest);
  }

  lemma UnaryOfNot(u: seq<Lexeme>, e: Expr, rest: seq<Lexeme>)
    requires ParseUnary(u) == Some((e, rest))
    ensures ParseUnary([L(TNot)] + u) == Some((Not(e), rest))
  {
    assert ([L(TNot)] + u)[1..] == u;
  }

  lemma ParseUnaryParenthesised(op: BinOp, a: Formula, c: Formula, rest: seq<Lexeme>)
    requires !StartsWithToken(rest, TOpen)
    requires ParseLevel(0, Tokens(a) + [L(OpToken(op))] + Tokens(c) + ([L(TClose)] + rest))
      == Some((Binary(op, ToExpr(a), ToExpr(c)), [L(TClose)] + rest))
    ensures ParseUnary(Tokens(FBin(op, a, c)) + rest) == Some((ToExpr(FBin(op, a, c)), rest))
  {
    var after := [L(TClose)] + rest;
    var u := Tokens(a) + [L(OpToken(op))] + Tokens(c) + after;
    assert Tokens(FBin(op, a, c)) + rest == [L(TOpen)] + u;
    UnaryOfParens(u, ToExpr(FBin(op, a, c)), after, rest);
  }

  /** `( ... )` in front of a token other than `(` is a primary with no call after it. */
  lemma UnaryOfParens(u: seq<Lexeme>, e: Expr, after: seq<Lexeme>, rest: seq<Lexeme>)
    requires after == [L(TClose)] + rest && !StartsWithToken(rest, TOpen)
    requires ParseLevel(0, u) == Some((e, after))
    ensures ParseUnary([L(TOpen)] + u) == Some((e, rest))
  {
    var t := [L(TOpen)] + u;
    assert t[1..] == u && after[1..] == rest;
    assert ParsePrimary(t) == Some((e, rest));
  }

  lemma {:induction false} ParseUnaryPrint(g: Formula, rest: seq<Lexeme>)
    requires Ground(g) && !StartsWithToken(rest, TOpen)
    ensures ParseUnary(Tokens(g) + rest) == Some((ToExpr(g), rest))
    decreases g, 1, 0
  {
    match g
    case FLit(b) =>
      ParseUnaryLiteral(b, rest);
    case FNot(h) =>
      ParseUnaryPrint(h, rest);
      ParseUnaryNot(h, rest);
    case FBin(op, a, c) =>
      ParseBinaryPrint(op, a, c, [L(TClose)] + rest, 0);
      ParseUnaryParenthesised(op, a, c, rest);
  }

  lemma {:induction false} ParseBinaryPrint(op: BinOp, a: Formula, c: Formula, after: seq<Lexeme>, level: nat)
    requires Ground(a) && Ground(c) && level <= Level(op)
    requires after != [] && after[0].token == TClose
    ensures ParseLevel(level, Tokens(a) + [L(OpToken(op))] + Tokens(c) + after)
      == Some((Binary(op, ToExpr(a), ToExpr(c)), after))
    decreases FBin(op, a, c), 0, Level(op) - level
  {
    var t := Tokens(a) + [L(OpToken(op))] + Tokens(c) + after;
    var e := Binary(op, ToExpr(a), ToExpr(c));
    if level < Level(op) {
      ParseBinaryPrint(op, a, c, after, level + 1);
      LevelOfTail(level, t, e, after);
      TailStops(level, e, after);
    } else {
      var afterA := [L(OpToken(op))] + Tokens(c) + after;
      assert t == Tokens(a) + afterA;
      ParsePrint(a, level + 1, afterA);
      ParsePrint(c, level + 1, after);
      TailOfBinary(op, ToExpr(a), ToExpr(c), Tokens(c), after);
      LevelOfTail(level, t, ToExpr(a), afterA);
    }
  }

  /** A level parses its next level's operand, then its own operators. */
  lemma LevelOfTail(level: nat, t: seq<Lexeme>, e: Expr, rest: seq<Lexeme>)
    requires level < 4 && ParseLevel(level + 1, t) == Some((e, rest))
    ensures ParseLevel(level, t) == ParseTail(level, e, rest)
  {
  }

  /** A `)` ends every level's operator list. */
  lemma TailStops(level: nat, e: Expr, after: seq<Lexeme>)
    requires level < 4 && after != [] && after[0].token == TClose
    ensures ParseTail(level, e, after) == Some((e, after))
  {
  }

  /** One operator of this level followed by its operand, then a `)`. */
  lemma TailOfBinary(op: BinOp, left: Expr, right: Expr, tc: seq<Lexeme>, after: seq<Lexeme>)
    requires after != [] && after[0].token == TClose
    requires ParseLevel(Level(op) + 1, tc + after) == Some((right, after))
    ensures ParseTail(Level(op), left, [L(OpToken(op))] + tc + after) == Some((Binary(op, left, right), after))
  {
    var level, t := Level(op), [L(OpToken(op))] + tc + after;
    assert OpAt(level) == op;
    assert t[1..] == tc + after;
    TailStops(level, Binary(op, left, right), after);
  }

  lemma {:induction false} EvalPrint(g: Formula, info: ProjectInfo)
    requires Ground(g)
    ensures Eval(ToExpr(g)).Ok? && Truthy(Eval(ToExpr(g)).value) == Denote(g, info)
  {
    match g
    case FLit(_) =>
    case FNot(h) => EvalPrint(h, info);
    case FBin(_, a, c) => EvalPrint(a, info); EvalPrint(c, info);
  }

  /** The gate, the lexer, the parser and the evaluator on a printed ground formula. */
  lemma ExpressionOfPrint(g: Formula, info: ProjectInfo)
    requires Ground(g)
    ensures EvaluateExpression(Print(g)).Some?
    ensures Truthy(EvaluateExpression(Print(g)).value) == Denote(g, info)
  {
    var s, t := Print(g), Tokens(g);
    assert PassesGate(s) by { GatePrint(g); }
    TokenizeWhole(g);
    ParseWhole(g);
    EvalPrint(g, info);
  }

  lemma TokenizeWhole(g: Formula)
    requires Ground(g)
    ensures Tokenize(Print(g)) == Some(Tokens(g))
  {
    TokenizePrint(g, "");
    assert Print(g) + "" == Print(g);
    assert Tokenize("") == Some([]);
    assert Tokens(g) + [] == Tokens(g);
  }

  lemma ParseWhole(g: Formula)
    requires Ground(g)
    ensures ParseReturn(Tokens(g)) == Some(Some(ToExpr(g)))
  {
    ParsePrint(g, 0, []);
    assert Tokens(g) + [] == Tokens(g);
    TokensStartLine(g);
  }

  /** A formula's tokens are not empty and start on the line of the `return`. */
  lemma TokensStartLine(g: Formula)
    ensures Tokens(g) != [] && !Tokens(g)[0].newlineBefore
  {
    match g
    case FLit(_) =>
    case FFact(_) =>
    case FNot(_) =>
    case FBin(_, _, _) =>
  }

  /**
   * Round trip: a condition written as a (non-atomic) formula over the five
   * facts evaluates to the formula's meaning, provided both flags are the
   * booleans `ProjectInfo` declares.
   */
  lemma PrintedConditionMeansFormula(f: Formula, info: ProjectInfo)
    requires !f.FFact?
    requires info.hasTypeScript.JBool? && info.hasTests.JBool?
    ensures ConditionHolds(Print(f), info) == Denote(f, info)
  {
    var g := GroundWith(f, info);
    assert Print(f)[0] != 'h' && Print(f)[0] != 'i';
    assert !IsNamed(Print(f));
    SubstitutePrint(f, info);
    GroundKeepsMeaning(f, info);
    ExpressionOfPrint(g, info);
  }
}
