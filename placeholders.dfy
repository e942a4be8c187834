/**
 * What `processVariables` does to a template as a whole. A template is
 * read as a sequence of pieces: plain text and the three placeholder forms
 * `{{ NAME }}`, `${NAME}` and `%NAME%`. Applying the variable map turns
 * every placeholder whose name the map binds into the value of its first
 * binding, and leaves everything else as it was.
 */
module Placeholders {
  import opened Wrappers
  import opened Json
  import opened Text
  import opened Variables

  /** The characters of a variable name: ASCII letters, digits and `_`. */
  predicate NameChar(c: char)
  {
    'A' <= c <= 'Z' || 'a' <= c <= 'z' || '0' <= c <= '9' || c == '_'
  }

  predicate Name(n: string)
  {
    n != [] && forall c :: c in n ==> NameChar(c)
  }

  predicate AllSpace(b: string)
  {
    forall c :: c in b ==> IsSpace(c)
  }

  /** Text in which no placeholder can start. */
  predicate PlainText(t: string)
  {
    '{' !in t && '$' !in t && '%' !in t
  }

  datatype Piece =
    | Plain(text: string)
    | Braces(before: string, name: string, after: string)
    | Dollar(name: string)
    | Percent(name: string)

  function PieceText(p: Piece): string
  {
    match p
    case Plain(t) => t
    case Braces(b, n, a) => "{{" + b + n + a + "}}"
    case Dollar(n) => "${" + n + "}"
    case Percent(n) => "%" + n + "%"
  }

  function Render(ps: seq<Piece>): string
    decreases |ps|
  {
    if ps == [] then [] else PieceText(ps[0]) + Render(ps[1..])
  }

  predicate GoodPiece(p: Piece)
  {
    match p
    case Plain(t) => PlainText(t)
    case Braces(b, n, a) => AllSpace(b) && Name(n) && AllSpace(a)
    case Dollar(n) => Name(n)
    case Percent(n) => Name(n)
  }

  /**
   * A template: good pieces, and a `%NAME%` placeholder either ends the
   * text or is followed by plain text that does not start with a name
   * character (so that its closing `%` cannot open another one).
   */
  predicate Template(ps: seq<Piece>)
  {
    (forall i :: 0 <= i < |ps| ==> GoodPiece(ps[i]))
    && (forall i :: 0 <= i < |ps| - 1 && ps[i].Percent? ==>
          ps[i + 1].Plain? && ps[i + 1].text != [] && !NameChar(ps[i + 1].text[0]))
  }

  /** The three regular expressions `processVariables` builds for a key. */
  datatype Form = MustacheForm | DollarForm | PercentForm

  function PatternOf(f: Form, k: string): Pattern
  {
    match f
    case MustacheForm => Mustache(k)
    case DollarForm => Literal("${" + k + "}")
    case PercentForm => Literal("%" + k + "%")
  }

  function Opening(f: Form): char
  {
    match f
    case MustacheForm => '{'
    case DollarForm => '$'
    case PercentForm => '%'
  }

  /** `p` is the placeholder for `k` in form `f`. */
  predicate Hit(p: Piece, f: Form, k: string)
  {
    match f
    case MustacheForm => p.Braces? && p.name == k
    case DollarForm => p.Dollar? && p.name == k
    case PercentForm => p.Percent? && p.name == k
  }

  // ---------------------------------------------------------------- matches at one position

  lemma {:induction false} SpaceRunSpaces(b: string, w: string)
    requires AllSpace(b)
    ensures SpaceRun(b + w) == |b| + SpaceRun(w)
    decreases |b|
  {
    if b == [] {
      assert b + w == w;
    } else {
      assert b[0] in b;
      assert (b + w)[0] == b[0];
      assert (b + w)[1..] == b[1..] + w;
      assert AllSpace(b[1..]) by {
        forall c | c in b[1..] ensures IsSpace(c) {
          assert c in b;
        }
      }
      SpaceRunSpaces(b[1..], w);
    }
  }

  /** What a match of form `f` starts with. */
  lemma MatchStart(f: Form, k: string, w: string)
    requires Name(k) && At(MatcherOf(PatternOf(f, k)), w) > 0
    ensures |w| >= 2 && w[0] == Opening(f)
    ensures f == MustacheForm ==> w[1] == '{'
    ensures f == PercentForm ==> NameChar(w[1])
  {
    match f
    case MustacheForm =>
    case DollarForm =>
      var p := "${" + k + "}";
      assert w[..|p|] == p;
      assert w[0] == p[0];
    case PercentForm =>
      var p := "%" + k + "%";
      assert w[..|p|] == p;
      assert w[0] == p[0] && w[1] == p[1] && p[1] == k[0];
      assert k[0] in k;
  }

  /**
   * `OPEN k CLOSE` matches at the start of `OPEN n CLOSE ...` exactly when
   * the names are equal, when names cannot contain the closing character.
   */
  lemma DelimitedAt(open: string, close: char, k: string, n: string, y: string)
    requires Name(k) && Name(n) && !NameChar(close)
    ensures LiteralLen(open + k + [close], open + n + [close] + y)
      == if k == n then |open| + |n| + 1 else 0
  {
    var p := open + k + [close];
    var s := open + n + [close] + y;
    var o := |open|;
    if k == n {
      assert s[..|p|] == p;
    } else if |p| <= |s| {
      var i: nat;
      if |k| < |n| {
        i := o + |k|;
        assert p[i] == close;
        assert s[i] == n[|k|] && n[|k|] in n;
      } else if |k| == |n| {
        var j :| 0 <= j < |k| && k[j] != n[j];
        i := o + j;
        assert p[i] == k[j] && s[i] == n[j];
      } else {
        i := o + |n|;
        assert p[i] == k[|n|] && k[|n|] in k;
        assert s[i] == close;
      }
      assert s[..|p|][i] != p[i];
    }
  }

  /** The text of `{{ n }}` followed by `y`, seen from the first character of the name. */
  lemma BracesName(b: string, n: string, a: string, y: string)
    requires Name(n) && AllSpace(b)
    ensures var s := "{{" + b + n + a + "}}" + y;
      && |s| >= 2 && s[0] == '{' && s[1] == '{'
      && SpaceRun(s[2..]) == |b|
      && s[2 + |b|..] == n + a + "}}" + y
  {
    var s := "{{" + b + n + a + "}}" + y;
    var t := n + a + "}}" + y;
    assert s[2..] == b + t;
    assert n[0] in n;
    assert t[0] == n[0];
    SpaceRunSpaces(b, t);
    assert s[2 + |b|..] == t;
  }

  lemma MustacheSameName(b: string, n: string, a: string, y: string)
    requires Name(n) && AllSpace(b) && AllSpace(a)
    ensures MustacheLen(n, "{{" + b + n + a + "}}" + y) == 4 + |b| + |n| + |a|
  {
    var s := "{{" + b + n + a + "}}" + y;
    BracesName(b, n, a, y);
    var A := 2 + |b|;
    assert s[A..A + |n|] == n;
    var u := a + "}}" + y;
    assert s[A + |n|..] == u;
    assert u == a + ("}}" + y);
    SpaceRunSpaces(a, "}}" + y);
    var B := A + |n| + |a|;
    assert s[B] == '}' && s[B + 1] == '}';
  }

  lemma MustacheOtherName(k: string, b: string, n: string, a: string, y: string)
    requires Name(k) && Name(n) && AllSpace(b) && AllSpace(a) && k != n
    ensures MustacheLen(k, "{{" + b + n + a + "}}" + y) == 0
  {
    var s := "{{" + b + n + a + "}}" + y;
    var t := n + a + "}}" + y;
    BracesName(b, n, a, y);
    var A := 2 + |b|;
    if A + |k| <= |s| {
      assert s[A..A + |k|] == t[..|k|];
      if |k| < |n| {
        assert t[|k|] == n[|k|] && n[|k|] in n;
        assert s[A + |k|..][0] == n[|k|];
        assert SpaceRun(s[A + |k|..]) == 0;
        assert s[A + |k|] == n[|k|];
      } else if |k| == |n| {
        assert t[..|n|] == n;
      } else {
        assert k[|n|] in k;
        if a != [] {
          assert t[|n|] == a[0] && a[0] in a;
        } else {
          assert t[|n|] == '}';
        }
        assert t[..|k|][|n|] != k[|n|];
      }
    }
  }

  /** `{{ k }}` matches at the start of `{{ n }} ...` exactly when the names are equal. */
  lemma MustacheAtBraces(k: string, b: string, n: string, a: string, y: string)
    requires Name(k) && Name(n) && AllSpace(b) && AllSpace(a)
    ensures MustacheLen(k, "{{" + b + n + a + "}}" + y) == if k == n then 4 + |b| + |n| + |a| else 0
  {
    if k == n {
      MustacheSameName(b, n, a, y);
    } else {
      MustacheOtherName(k, b, n, a, y);
    }
  }

  /** Where a text does not start like a match of form `f`, there is none. */
  lemma NoStart(f: Form, k: string, w: string)
    requires Name(k)
    requires w == [] || w[0] != Opening(f)
      || (f == MustacheForm && (|w| < 2 || w[1] != '{'))
      || (f == PercentForm && (|w| < 2 || !NameChar(w[1])))
    ensures At(MatcherOf(PatternOf(f, k)), w) == 0
  {
    if At(MatcherOf(PatternOf(f, k)), w) > 0 {
      MatchStart(f, k, w);
    }
  }

  /** The matches of form `f` in `x + y` at a position `j` inside `x`: only a whole placeholder for `k` at 0. */
  ghost predicate MatchesAt(f: Form, k: string, p: Piece, y: string, j: nat)
    requires j < |PieceText(p)|
  {
    At(MatcherOf(PatternOf(f, k)), (PieceText(p) + y)[j..]) == if j == 0 && Hit(p, f, k) then |PieceText(p)| else 0
  }

  lemma PlainAt(f: Form, k: string, t: string, y: string, j: nat)
    requires Name(k) && PlainText(t) && j < |t|
    ensures MatchesAt(f, k, Plain(t), y, j)
  {
    var w := (t + y)[j..];
    assert w[0] == t[j] && t[j] in t;
    NoStart(f, k, w);
  }

  lemma BracesAt(f: Form, k: string, b: string, n: string, a: string, y: string, j: nat)
    requires Name(k) && GoodPiece(Braces(b, n, a)) && j < |PieceText(Braces(b, n, a))|
    ensures MatchesAt(f, k, Braces(b, n, a), y, j)
  {
    var x := PieceText(Braces(b, n, a));
    var w := (x + y)[j..];
    var inner := b + n + a + "}}";
    assert x[2..] == inner;
    assert forall c :: c in inner ==> IsSpace(c) || NameChar(c) || c == '}';
    if j == 0 {
      assert w == "{{" + b + n + a + "}}" + y;
      if f == MustacheForm {
        MustacheAtBraces(k, b, n, a, y);
      } else {
        NoStart(f, k, w);
      }
    } else if j == 1 {
      assert w[0] == '{' && w[1] == x[2] && x[2] in inner;
      NoStart(f, k, w);
    } else {
      assert w[0] == x[j] && x[j] in inner;
      NoStart(f, k, w);
    }
  }

  lemma DollarAt(f: Form, k: string, n: string, y: string, j: nat)
    requires Name(k) && Name(n) && j < |PieceText(Dollar(n))|
    ensures MatchesAt(f, k, Dollar(n), y, j)
  {
    var x := PieceText(Dollar(n));
    var w := (x + y)[j..];
    assert x[2..] == n + "}";
    if j == 0 {
      assert w == "${" + n + ['}'] + y;
      if f == DollarForm {
        assert "${" + k + "}" == "${" + k + ['}'];
        DelimitedAt("${", '}', k, n, y);
      } else {
        NoStart(f, k, w);
      }
    } else if j == 1 {
      assert w[0] == '{' && w[1] == n[0] && n[0] in n;
      NoStart(f, k, w);
    } else {
      assert w[0] == x[j] && x[j] in n + "}";
      NoStart(f, k, w);
    }
  }

  lemma PercentAt(f: Form, k: string, n: string, y: string, j: nat)
    requires Name(k) && Name(n) && j < |PieceText(Percent(n))|
    requires y == [] || !NameChar(y[0])
    ensures MatchesAt(f, k, Percent(n), y, j)
  {
    var x := PieceText(Percent(n));
    var w := (x + y)[j..];
    if j == 0 {
      assert w == "%" + n + ['%'] + y;
      if f == PercentForm {
        assert "%" + k + "%" == "%" + k + ['%'];
        DelimitedAt("%", '%', k, n, y);
      } else {
        NoStart(f, k, w);
      }
    } else if j < |x| - 1 {
      assert x[1..|x| - 1] == n;
      assert w[0] == x[j] && x[j] in n;
      NoStart(f, k, w);
    } else {
      assert w == "%" + y;
      assert y != [] ==> w[1] == y[0];
      NoStart(f, k, w);
    }
  }

  /** A piece of a template, followed by the rest of it. */
  lemma PieceAt(f: Form, k: string, p: Piece, y: string, j: nat)
    requires Name(k) && GoodPiece(p) && j < |PieceText(p)|
    requires p.Percent? ==> y == [] || !NameChar(y[0])
    ensures MatchesAt(f, k, p, y, j)
  {
    match p
    case Plain(t) => PlainAt(f, k, t, y, j);
    case Braces(b, n, a) => BracesAt(f, k, b, n, a, y, j);
    case Dollar(n) => DollarAt(f, k, n, y, j);
    case Percent(n) => PercentAt(f, k, n, y, j);
  }

  // ---------------------------------------------------------------- one replacement over a template

  function FillPiece(p: Piece, f: Form, k: string, v: string): Piece
  {
    if Hit(p, f, k) then Plain(v) else p
  }

  /** The template after every placeholder for `k` in form `f` became `v`. */
  function Fill(ps: seq<Piece>, f: Form, k: string, v: string): (r: seq<Piece>)
    ensures |r| == |ps|
  {
    seq(|ps|, i requires 0 <= i < |ps| => FillPiece(ps[i], f, k, v))
  }

  lemma PieceNoStraddle(f: Form, k: string, p: Piece, y: string)
    requires Name(k) && GoodPiece(p)
    requires p.Percent? ==> y == [] || !NameChar(y[0])
    ensures NoStraddle(MatcherOf(PatternOf(f, k)), PieceText(p), y)
  {
    var x := PieceText(p);
    assert x + [] == x;
    forall j | 0 <= j < |x|
      ensures At(MatcherOf(PatternOf(f, k)), (x + y)[j..]) == At(MatcherOf(PatternOf(f, k)), x[j..])
    {
      PieceAt(f, k, p, y, j);
      PieceAt(f, k, p, [], j);
    }
  }

  /** Replacing in a piece followed by more text: the piece is filled, the rest replaced on its own. */
  lemma ReplacePiece(f: Form, k: string, v: string, p: Piece, y: string)
    requires Name(k) && GoodPiece(p)
    requires p.Percent? ==> y == [] || !NameChar(y[0])
    ensures ReplaceAll(MatcherOf(PatternOf(f, k)), PieceText(p) + y, v)
      == PieceText(FillPiece(p, f, k, v)) + ReplaceAll(MatcherOf(PatternOf(f, k)), y, v)
  {
    var m := MatcherOf(PatternOf(f, k));
    var x := PieceText(p);
    assert x + [] == x;
    PieceNoStraddle(f, k, p, y);
    ReplaceAllAppend(m, x, y, v);
    if Hit(p, f, k) {
      PieceAt(f, k, p, [], 0);
      assert x[0..] == x;
      ReplaceWholeMatch(m, x, v);
    } else {
      forall j | 0 <= j < |x| ensures At(m, x[j..]) == 0 {
        PieceAt(f, k, p, [], j);
      }
      ReplaceNoMatch(m, x, v);
    }
  }

  lemma TemplateTail(ps: seq<Piece>)
    requires Template(ps) && ps != []
    ensures Template(ps[1..]) && GoodPiece(ps[0])
    ensures ps[0].Percent? ==> Render(ps[1..]) == [] || !NameChar(Render(ps[1..])[0])
  {
    var tail := ps[1..];
    assert forall i :: 0 <= i < |tail| ==> tail[i] == ps[i + 1];
    if |ps| >= 2 && ps[0].Percent? {
      assert tail[0] == ps[1] && tail[1..] == ps[2..];
      var t := ps[1].text;
      assert Render(tail) == t + Render(ps[2..]);
      assert Render(tail)[0] == t[0];
    }
  }

  lemma ReplaceEmpty(m: Matcher, v: string)
    ensures ReplaceAll(m, [], v) == []
  {
    assert FindFrom(m, [], 0) == None;
  }

  lemma FillTail(ps: seq<Piece>, f: Form, k: string, v: string)
    requires ps != []
    ensures Fill(ps, f, k, v)[1..] == Fill(ps[1..], f, k, v)
    ensures Fill(ps, f, k, v)[0] == FillPiece(ps[0], f, k, v)
  {
  }

  /** One `replace` call over a template fills the placeholders it matches and nothing else. */
  lemma {:induction false} ReplaceRender(f: Form, k: string, v: string, ps: seq<Piece>)
    requires Name(k) && Template(ps)
    ensures ReplaceAll(MatcherOf(PatternOf(f, k)), Render(ps), v) == Render(Fill(ps, f, k, v))
    decreases |ps|
  {
    var m := MatcherOf(PatternOf(f, k));
    if ps == [] {
      ReplaceEmpty(m, v);
      assert Fill(ps, f, k, v) == [];
    } else {
      TemplateTail(ps);
      ReplacePiece(f, k, v, ps[0], Render(ps[1..]));
      ReplaceRender(f, k, v, ps[1..]);
      FillTail(ps, f, k, v);
      var r := Fill(ps, f, k, v);
      assert Render(r) == PieceText(r[0]) + Render(r[1..]);
    }
  }

  lemma FillTemplate(ps: seq<Piece>, f: Form, k: string, v: string)
    requires Template(ps) && PlainText(v)
    ensures Template(Fill(ps, f, k, v))
  {
    var r := Fill(ps, f, k, v);
    forall i | 0 <= i < |r| - 1 && r[i].Percent?
      ensures r[i + 1].Plain? && r[i + 1].text != [] && !NameChar(r[i + 1].text[0])
    {
      assert r[i] == ps[i] && ps[i].Percent?;
      assert r[i + 1] == ps[i + 1];
    }
  }

  // ---------------------------------------------------------------- one variable, then the whole map

  /** The template after every placeholder named `k`, in any form, became `v`. */
  function FillName(ps: seq<Piece>, k: string, v: string): (r: seq<Piece>)
    ensures |r| == |ps|
  {
    seq(|ps|, i requires 0 <= i < |ps| => if !ps[i].Plain? && ps[i].name == k then Plain(v) else ps[i])
  }

  /** The three replacements for one variable fill its placeholders in all three forms. */
  lemma ApplyVariableRender(ps: seq<Piece>, k: string, v: string)
    requires Name(k) && PlainText(v) && Template(ps)
    ensures ApplyVariable(Render(ps), k, v) == Render(FillName(ps, k, v))
  {
    var ps1 := Fill(ps, MustacheForm, k, v);
    ReplaceRender(MustacheForm, k, v, ps);
    FillTemplate(ps, MustacheForm, k, v);
    var ps2 := Fill(ps1, DollarForm, k, v);
    ReplaceRender(DollarForm, k, v, ps1);
    FillTemplate(ps1, DollarForm, k, v);
    var ps3 := Fill(ps2, PercentForm, k, v);
    ReplaceRender(PercentForm, k, v, ps2);
    assert ps3 == FillName(ps, k, v);
  }

  /** Every binding's name is a name and its value plain text. */
  predicate Bindings(vs: seq<(string, string)>)
  {
    forall i :: 0 <= i < |vs| ==> Name(vs[i].0) && PlainText(vs[i].1)
  }

  /** A piece, once the whole map is applied: a bound placeholder becomes the first value bound to its name. */
  function ResolvePiece(p: Piece, vs: seq<(string, string)>): Piece
  {
    if !p.Plain? && Lookup(vs, p.name).Some? then Plain(Lookup(vs, p.name).value) else p
  }

  function Resolve(ps: seq<Piece>, vs: seq<(string, string)>): (r: seq<Piece>)
    ensures |r| == |ps|
  {
    seq(|ps|, i requires 0 <= i < |ps| => ResolvePiece(ps[i], vs))
  }

  lemma ResolveTemplate(ps: seq<Piece>, vs: seq<(string, string)>)
    requires Template(ps) && Bindings(vs)
    ensures Template(Resolve(ps, vs))
  {
    var r := Resolve(ps, vs);
    forall i | 0 <= i < |r| ensures GoodPiece(r[i]) {
      if r[i] != ps[i] {
        var name := ps[i].name;
        assert (name, Lookup(vs, name).value) in vs;
      }
    }
    forall i | 0 <= i < |r| - 1 && r[i].Percent?
      ensures r[i + 1].Plain? && r[i + 1].text != [] && !NameChar(r[i + 1].text[0])
    {
      assert r[i] == ps[i] && ps[i].Percent?;
      assert r[i + 1] == ps[i + 1];
    }
  }

  lemma ResolveSnoc(ps: seq<Piece>, vs: seq<(string, string)>, k: string, v: string)
    ensures FillName(Resolve(ps, vs), k, v) == Resolve(ps, vs + [(k, v)])
  {
    forall i | 0 <= i < |ps|
      ensures FillName(Resolve(ps, vs), k, v)[i] == Resolve(ps, vs + [(k, v)])[i]
    {
      if !ps[i].Plain? {
        LookupSnoc(vs, (k, v), ps[i].name);
      }
    }
  }

  /**
   * Applying the whole map to a template turns each placeholder whose name
   * the map binds into the value of the name's first binding, in all three
   * forms and wherever it stands, and leaves all other text as it was.
   */
  lemma {:induction false} ApplyVariablesRender(ps: seq<Piece>, vs: seq<(string, string)>)
    requires Template(ps) && Bindings(vs)
    ensures ApplyVariables(Render(ps), vs) == Render(Resolve(ps, vs))
    decreases |vs|
  {
    if vs == [] {
      assert Resolve(ps, vs) == ps;
    } else {
      var pre := vs[..|vs| - 1];
      var (k, v) := vs[|vs| - 1];
      assert vs == pre + [(k, v)];
      assert Bindings(pre) by {
        forall i | 0 <= i < |pre| ensures Name(pre[i].0) && PlainText(pre[i].1) {
          assert pre[i] == vs[i];
        }
      }
      ApplyVariablesRender(ps, pre);
      ResolveTemplate(ps, pre);
      ApplyVariableRender(Resolve(ps, pre), k, v);
      ResolveSnoc(ps, pre, k, v);
    }
  }

  // ---------------------------------------------------------------- consequences

  /** A template none of whose placeholder names the map binds comes out unchanged. */
  lemma UnboundUnchanged(ps: seq<Piece>, vs: seq<(string, string)>)
    requires Template(ps) && Bindings(vs)
    requires forall i :: 0 <= i < |ps| && !ps[i].Plain? ==> ps[i].name !in Keys(vs)
    ensures ApplyVariables(Render(ps), vs) == Render(ps)
  {
    ApplyVariablesRender(ps, vs);
    assert Resolve(ps, vs) == ps;
  }

  /** The value a placeholder for `k` stands for after the map is applied. */
  function Outcome(vs: seq<(string, string)>, k: string, placeholder: string): string
  {
    if Lookup(vs, k).Some? then Lookup(vs, k).value else placeholder
  }

  lemma RenderThree(p: Piece, q: Piece, r: Piece)
    ensures Render([p, q, r]) == PieceText(p) + PieceText(q) + PieceText(r)
  {
    assert [p, q, r][1..] == [q, r] && [q, r][1..] == [r] && [r][1..] == [];
    assert Render([r]) == PieceText(r) + [];
  }

  lemma RenderTwo(p: Piece, q: Piece)
    ensures Render([p, q]) == PieceText(p) + PieceText(q)
  {
    assert [p, q][1..] == [q] && [q][1..] == [];
    assert Render([q]) == PieceText(q) + [];
  }

  /** The pieces of `x + p + y`, with the plain texts `x` and `y` around the placeholder `p`. */
  function Around(x: string, p: Piece, y: string): seq<Piece>
  {
    if y == [] then [Plain(x), p] else [Plain(x), p, Plain(y)]
  }

  lemma AroundRender(x: string, p: Piece, y: string)
    ensures Render(Around(x, p, y)) == x + PieceText(p) + y
  {
    if y == [] {
      RenderTwo(Plain(x), p);
      assert x + PieceText(p) + y == x + PieceText(p);
    } else {
      RenderThree(Plain(x), p, Plain(y));
    }
  }

  lemma AroundTemplate(x: string, p: Piece, y: string)
    requires PlainText(x) && PlainText(y) && GoodPiece(p)
    requires p.Percent? ==> y == [] || !NameChar(y[0])
    ensures Template(Around(x, p, y))
  {
  }

  /**
   * A placeholder between two plain texts becomes the first value the map
   * binds to its name, and stays when the map does not bind it.
   */
  lemma PlaceholderAround(x: string, p: Piece, y: string, vs: seq<(string, string)>)
    requires PlainText(x) && PlainText(y) && GoodPiece(p) && !p.Plain? && Bindings(vs)
    requires p.Percent? ==> y == [] || !NameChar(y[0])
    ensures ApplyVariables(x + PieceText(p) + y, vs) == x + Outcome(vs, p.name, PieceText(p)) + y
  {
    var ps := Around(x, p, y);
    AroundRender(x, p, y);
    AroundTemplate(x, p, y);
    ApplyVariablesRender(ps, vs);
    var q := ResolvePiece(p, vs);
    assert Resolve(ps, vs) == Around(x, q, y);
    AroundRender(x, q, y);
  }

  /**
   * `{{ KEY }}` between plain texts, with any spaces inside the braces,
   * becomes the first value the map binds to `KEY`, and stays when the map
   * does not bind it.
   */
  lemma MustachePlaceholder(x: string, b: string, k: string, a: string, y: string, vs: seq<(string, string)>)
    requires PlainText(x) && PlainText(y) && AllSpace(b) && AllSpace(a) && Name(k) && Bindings(vs)
    ensures ApplyVariables(x + ("{{" + b + k + a + "}}") + y, vs) == x + Outcome(vs, k, "{{" + b + k + a + "}}") + y
  {
    PlaceholderAround(x, Braces(b, k, a), y, vs);
  }

  /** `${KEY}` between plain texts becomes the first value bound to `KEY`, or stays. */
  lemma DollarPlaceholder(x: string, k: string, y: string, vs: seq<(string, string)>)
    requires PlainText(x) && PlainText(y) && Name(k) && Bindings(vs)
    ensures ApplyVariables(x + ("${" + k + "}") + y, vs) == x + Outcome(vs, k, "${" + k + "}") + y
  {
    PlaceholderAround(x, Dollar(k), y, vs);
  }

  /**
   * `%KEY%` between plain texts becomes the first value bound to `KEY`, or
   * stays, when what follows does not start with a name character.
   */
  lemma PercentPlaceholder(x: string, k: string, y: string, vs: seq<(string, string)>)
    requires PlainText(x) && PlainText(y) && Name(k) && Bindings(vs)
    requires y == [] || !NameChar(y[0])
    ensures ApplyVariables(x + ("%" + k + "%") + y, vs) == x + Outcome(vs, k, "%" + k + "%") + y
  {
    PlaceholderAround(x, Percent(k), y, vs);
  }
}
