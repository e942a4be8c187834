/**
 * String operations the source takes from JavaScript: global regular
 * expression replacement for the placeholder patterns it builds,
 * `String.prototype.split`, `startsWith` and Node's `path.basename`.
 */
module Text {
  import opened Wrappers

  /** JavaScript's `\s` class: white space and line terminators. */
  predicate IsSpace(c: char)
  {
    c == ' ' || c == '\t' || c == '\n' || c == '\U{B}' || c == '\U{C}' || c == '\r'
    || c == '\U{A0}' || c == '\U{1680}' || ('\U{2000}' <= c <= '\U{200A}')
    || c == '\U{2028}' || c == '\U{2029}' || c == '\U{202F}' || c == '\U{205F}'
    || c == '\U{3000}' || c == '\U{FEFF}'
  }

  /** The number of leading `\s` characters of `s` (what a greedy `\s*` consumes). */
  function SpaceRun(s: string): (n: nat)
    ensures n <= |s|
  {
    if s != [] && IsSpace(s[0]) then 1 + SpaceRun(s[1..]) else 0
  }

  predicate StartsWith(s: string, prefix: string)
  {
    |prefix| <= |s| && s[..|prefix|] == prefix
  }

  /**
   * The regular expressions the source builds: a literal text (`\$\{NAME\}`,
   * `%NAME%` and the condition tokens) or the mustache form `\{\{\s*NAME\s*\}\}`.
   */
  datatype Pattern = Literal(text: string) | Mustache(name: string)

  /** The length of the match of a literal at the start of `s`, 0 when there is none. */
  function LiteralLen(p: string, s: string): (n: nat)
    ensures n <= |s|
  {
    if |p| > 0 && StartsWith(s, p) then |p| else 0
  }

  /** `\{\{\s*NAME\s*\}\}` at the start of `s`. */
  function MustacheLen(name: string, s: string): (n: nat)
    ensures n <= |s|
  {
    if |s| >= 2 && s[0] == '{' && s[1] == '{' then
      var a := 2 + SpaceRun(s[2..]);
      if a + |name| <= |s| && s[a..a + |name|] == name then
        var b := a + |name| + SpaceRun(s[a + |name|..]);
        if b + 2 <= |s| && s[b] == '}' && s[b + 1] == '}' then b + 2 else 0
      else 0
    else 0
  }

  /**
   * A matcher gives the length of the match at the start of a text, 0 for
   * none. The scan below is stated for any matcher, so that its proofs never
   * look inside a particular pattern.
   */
  type Matcher = string -> nat

  /** The matcher's answer, cut to what fits in `t`. */
  function At(m: Matcher, t: string): (n: nat)
    ensures n <= |t|
  {
    if m(t) <= |t| then m(t) else 0
  }

  function MatcherOf(pat: Pattern): Matcher
  {
    match pat
    case Literal(p) => t => LiteralLen(p, t)
    case Mustache(name) => t => MustacheLen(name, t)
  }

  /** No match starts at any of the first `n` positions of `s`. */
  ghost predicate NoMatchBefore(m: Matcher, s: string, n: nat)
    requires n <= |s|
  {
    forall j :: 0 <= j < n ==> At(m, s[j..]) == 0
  }

  /** The first match in `s`, as (position, length); `FindLeftmost` shows it is the leftmost. */
  function Find(m: Matcher, s: string): (r: Option<(nat, nat)>)
    ensures r.Some? ==> r.value.0 + r.value.1 <= |s| && r.value.1 > 0
    ensures r.Some? ==> At(m, s[r.value.0..]) == r.value.1
  {
    FindFrom(m, s, 0)
  }

  function FindFrom(m: Matcher, s: string, i: nat): (r: Option<(nat, nat)>)
    requires i <= |s|
    ensures r.Some? ==> i <= r.value.0 && r.value.0 + r.value.1 <= |s| && r.value.1 > 0
    ensures r.Some? ==> At(m, s[r.value.0..]) == r.value.1
    decreases |s| - i
  {
    if i == |s| then None
    else
      var n := At(m, s[i..]);
      if n > 0 then Some((i, n)) else FindFrom(m, s, i + 1)
  }

  /** No match starts before the one `Find` reports, and none at all when it reports none. */
  lemma FindLeftmost(m: Matcher, s: string)
    ensures Find(m, s).None? ==> NoMatchBefore(m, s, |s|)
    ensures Find(m, s).Some? ==> NoMatchBefore(m, s, Find(m, s).value.0)
  {
    FindFromLeftmost(m, s, 0);
  }

  lemma {:induction false} FindFromLeftmost(m: Matcher, s: string, i: nat)
    requires i <= |s| && NoMatchBefore(m, s, i)
    ensures FindFrom(m, s, i).None? ==> NoMatchBefore(m, s, |s|)
    ensures FindFrom(m, s, i).Some? ==> NoMatchBefore(m, s, FindFrom(m, s, i).value.0)
    decreases |s| - i
  {
    if i < |s| && At(m, s[i..]) == 0 {
      FindFromLeftmost(m, s, i + 1);
    }
  }

  /** Every match, scanning left to right from the end of the previous one, becomes `v`. */
  function ReplaceAll(m: Matcher, s: string, v: string): string
    decreases |s|
  {
    match Find(m, s)
    case None => s
    case Some((i, n)) => s[..i] + v + ReplaceAll(m, s[i + n..], v)
  }

  /** The same scan, returning the text between matches and the matches themselves. */
  function SplitAll(m: Matcher, s: string): (r: (seq<string>, seq<string>))
    ensures |r.0| == |r.1| + 1
    decreases |s|
  {
    match Find(m, s)
    case None => ([s], [])
    case Some((i, n)) =>
      var (pieces, matches) := SplitAll(m, s[i + n..]);
      ([s[..i]] + pieces, [s[i..i + n]] + matches)
  }

  /** `s.replace(re, v)` for the global regular expression `re` that `pat` stands for. */
  function Replace(s: string, pat: Pattern, v: string): string
  {
    ReplaceAll(MatcherOf(pat), s, v)
  }

  /** The pieces between matches and the matches; `s.split(sep)` for a literal separator. */
  function Split(s: string, pat: Pattern): (r: (seq<string>, seq<string>))
    ensures |r.0| == |r.1| + 1
  {
    SplitAll(MatcherOf(pat), s)
  }

  /** `pieces[0] + seps[0] + pieces[1] + ...`, the inverse of `Split`. */
  function Interleave(pieces: seq<string>, seps: seq<string>): string
    requires |pieces| == |seps| + 1
  {
    if seps == [] then pieces[0]
    else pieces[0] + seps[0] + Interleave(pieces[1..], seps[1..])
  }

  /** `pieces.join(sep)`. */
  function Join(pieces: seq<string>, sep: string): string
  {
    if pieces == [] then ""
    else if |pieces| == 1 then pieces[0]
    else pieces[0] + sep + Join(pieces[1..], sep)
  }

  function Repeat(v: string, n: nat): (r: seq<string>)
    ensures |r| == n && forall i :: 0 <= i < n ==> r[i] == v
  {
    if n == 0 then [] else [v] + Repeat(v, n - 1)
  }

  /** Putting the matches back between the pieces gives the original text. */
  lemma {:induction false} SplitInterleave(m: Matcher, s: string)
    ensures Interleave(SplitAll(m, s).0, SplitAll(m, s).1) == s
    decreases |s|
  {
    match Find(m, s)
    case None =>
    case Some((i, n)) =>
      SplitInterleave(m, s[i + n..]);
      assert s[..i] + s[i..i + n] + s[i + n..] == s;
  }

  /** Replacement is the pieces joined with the replacement: each match, and nothing else, is replaced. */
  lemma {:induction false} ReplaceIsJoin(m: Matcher, s: string, v: string)
    ensures ReplaceAll(m, s, v) == Join(SplitAll(m, s).0, v)
    decreases |s|
  {
    match Find(m, s)
    case None =>
    case Some((i, n)) =>
      var rest := s[i + n..];
      ReplaceIsJoin(m, rest, v);
      JoinCons(s[..i], SplitAll(m, rest).0, v);
  }

  lemma JoinCons(a: string, pieces: seq<string>, v: string)
    requires pieces != []
    ensures Join([a] + pieces, v) == a + v + Join(pieces, v)
  {
    assert ([a] + pieces)[1..] == pieces;
  }

  /** A match, cut out of its text, is still matched whole. */
  ghost predicate PrefixStable(m: Matcher)
  {
    forall t :: At(m, t) > 0 ==> At(m, t[..At(m, t)]) == At(m, t)
  }

  /** Under a prefix-stable matcher every match the scan reports is a whole, non-empty placeholder. */
  lemma {:induction false} SplitMatches(m: Matcher, s: string)
    requires PrefixStable(m)
    ensures forall x :: x in SplitAll(m, s).1 ==> |x| > 0 && At(m, x) == |x|
    decreases |s|
  {
    match Find(m, s)
    case None =>
    case Some((i, n)) =>
      var rest := s[i + n..];
      SplitMatches(m, rest);
      WholeMatch(m, s, i, n);
      SplitStep(m, s, i, n, rest);
  }

  /** A match the scan reports in `s`, cut out, is matched whole. */
  lemma WholeMatch(m: Matcher, s: string, i: nat, n: nat)
    requires PrefixStable(m) && i + n <= |s| && n > 0 && At(m, s[i..]) == n
    ensures At(m, s[i..i + n]) == n
  {
    assert s[i..][..n] == s[i..i + n];
  }

  lemma SplitStep(m: Matcher, s: string, i: nat, n: nat, rest: string)
    requires Find(m, s) == Some((i, n)) && rest == s[i + n..]
    ensures SplitAll(m, s).1 == [s[i..i + n]] + SplitAll(m, rest).1
  {
  }

  /** Both kinds of pattern are prefix-stable. */
  lemma PatternPrefixStable(pat: Pattern)
    ensures PrefixStable(MatcherOf(pat))
  {
    forall t | At(MatcherOf(pat), t) > 0
      ensures At(MatcherOf(pat), t[..At(MatcherOf(pat), t)]) == At(MatcherOf(pat), t)
    {
      match pat
      case Literal(p) =>
        assert t[..|p|][..|p|] == t[..|p|];
      case Mustache(name) =>
        MustacheWithin(name, t, MustacheLen(name, t));
    }
  }

  /** A mustache placeholder at the start of a text is still matched once the text is cut after it. */
  lemma MustacheWithin(name: string, s: string, n: nat)
    requires 0 < n <= |s| && MustacheLen(name, s) == n
    ensures MustacheLen(name, s[..n]) == n
  {
    var t := s[..n];
    var a := 2 + SpaceRun(s[2..]);
    var k := a + |name|;
    var b := k + SpaceRun(s[k..]);
    assert n == b + 2;
    assert t[2..] == s[2..][..n - 2];
    SpaceRunPrefix(s[2..], n - 2);
    assert t[a..k] == s[a..k];
    assert t[k..] == s[k..][..n - k];
    SpaceRunPrefix(s[k..], n - k);
    assert t[b] == s[b] && t[b + 1] == s[b + 1];
  }

  lemma {:induction false} SpaceRunPrefix(s: string, k: nat)
    requires SpaceRun(s) < k <= |s|
    ensures SpaceRun(s[..k]) == SpaceRun(s)
    decreases |s|
  {
    if s != [] && IsSpace(s[0]) {
      assert s[..k][0] == s[0];
      assert s[..k][1..] == s[1..][..k - 1];
      SpaceRunPrefix(s[1..], k - 1);
    } else {
      assert s[..k] != [] && s[..k][0] == s[0];
    }
  }

  /** Text in which nothing matches is left unchanged. */
  lemma ReplaceNoMatch(m: Matcher, s: string, v: string)
    requires NoMatchBefore(m, s, |s|)
    ensures ReplaceAll(m, s, v) == s
  {
    FindNone(m, s, 0);
  }

  lemma {:induction false} FindNone(m: Matcher, s: string, i: nat)
    requires i <= |s| && NoMatchBefore(m, s, |s|)
    ensures FindFrom(m, s, i) == None
    decreases |s| - i
  {
    if i < |s| {
      assert At(m, s[i..]) == 0;
      FindNone(m, s, i + 1);
    }
  }

  /** A literal pattern with a character that `s` lacks never matches in `s`. */
  lemma LiteralAbsent(s: string, p: string, c: char)
    requires c in p && c !in s
    ensures NoMatchBefore(MatcherOf(Literal(p)), s, |s|)
  {
    var k :| 0 <= k < |p| && p[k] == c;
    forall j | 0 <= j < |s| ensures At(MatcherOf(Literal(p)), s[j..]) == 0 {
      if |p| <= |s[j..]| {
        assert s[j..][..|p|][k] == s[j + k];
        assert s[j..][..|p|] != p;
      }
    }
  }

  /** A literal pattern with a character that `q` lacks leaves `q` unchanged. */
  lemma ReplaceAbsent(q: string, p: string, v: string, c: char)
    requires c in p && c !in q
    ensures Replace(q, Literal(p), v) == q
  {
    LiteralAbsent(q, p, c);
    ReplaceNoMatch(MatcherOf(Literal(p)), q, v);
  }

  /** A text that is exactly the literal is replaced whole. */
  lemma ReplaceWhole(p: string, v: string)
    requires |p| > 0
    ensures Replace(p, Literal(p), v) == v
  {
    var m := MatcherOf(Literal(p));
    assert p[0..] == p && p[..|p|] == p;
    assert Find(m, p) == Some((0, |p|));
    assert p[|p|..] == [] && p[..0] == [];
    assert Find(m, []) == None;
    assert ReplaceAll(m, [], v) == [];
    assert ReplaceAll(m, p, v) == p[..0] + v + ReplaceAll(m, p[|p|..], v);
  }

  /** A text the matcher matches whole is replaced whole. */
  lemma ReplaceWholeMatch(m: Matcher, s: string, v: string)
    requires |s| > 0 && At(m, s) == |s|
    ensures ReplaceAll(m, s, v) == v
  {
    assert s[0..] == s;
    assert Find(m, s) == Some((0, |s|));
    assert s[|s|..] == [] && s[..0] == [];
    assert Find(m, []) == None;
    assert ReplaceAll(m, [], v) == [];
    assert ReplaceAll(m, s, v) == s[..0] + v + ReplaceAll(m, s[|s|..], v);
  }

  /** No two adjacent `{`: where a mustache placeholder cannot start. */
  predicate NoDoubleBrace(s: string)
  {
    forall j :: 0 <= j < |s| - 1 ==> !(s[j] == '{' && s[j + 1] == '{')
  }

  /** Without `{{` there is no mustache placeholder to replace. */
  lemma MustacheAbsent(s: string, name: string, v: string)
    requires NoDoubleBrace(s)
    ensures Replace(s, Mustache(name), v) == s
  {
    var m := MatcherOf(Mustache(name));
    forall j | 0 <= j < |s| ensures At(m, s[j..]) == 0 {
      if |s[j..]| >= 2 {
        assert s[j..][0] == s[j] && s[j..][1] == s[j + 1];
      }
    }
    ReplaceNoMatch(m, s, v);
  }

  /** `{{NAME}}` is a mustache placeholder for `NAME` (a name that does not start with a space). */
  lemma MustacheWhole(name: string, v: string)
    requires name == [] || !IsSpace(name[0])
    ensures Replace("{{" + name + "}}", Mustache(name), v) == v
  {
    var s := "{{" + name + "}}";
    assert s[2..] == name + "}}";
    assert SpaceRun(name + "}}") == 0 by {
      if name == [] { assert name + "}}" == "}}"; }
      else { assert (name + "}}")[0] == name[0]; }
    }
    assert s[2..2 + |name|] == name;
    assert s[2 + |name|..] == "}}";
    assert SpaceRun("}}") == 0;
    assert MustacheLen(name, s) == |s|;
    ReplaceWholeMatch(MatcherOf(Mustache(name)), s, v);
  }

  function Shift(o: Option<(nat, nat)>, d: nat): Option<(nat, nat)>
  {
    match o
    case None => None
    case Some((i, n)) => Some((i + d, n))
  }

  lemma {:induction false} FindFromShift(m: Matcher, x: string, y: string, j: nat)
    requires j <= |y|
    ensures FindFrom(m, x + y, |x| + j) == Shift(FindFrom(m, y, j), |x|)
    decreases |y| - j
  {
    if j < |y| {
      assert (x + y)[|x| + j..] == y[j..];
      FindFromShift(m, x, y, j + 1);
    }
  }

  /** No match of the literal `p` in `x + y` can cross from `x` into `y`. */
  predicate Seam(x: string, y: string, p: string)
  {
    x == [] || x[|x| - 1] !in p || (y != [] && y[0] !in p)
  }

  lemma LiteralAtAppend(p: string, x: string, y: string, j: nat)
    requires Seam(x, y, p) && j < |x|
    ensures LiteralLen(p, (x + y)[j..]) == LiteralLen(p, x[j..])
  {
    var w := (x + y)[j..];
    if j + |p| <= |x| {
      assert w[..|p|] == x[j..][..|p|];
    } else if |p| <= |w| {
      if x[|x| - 1] !in p {
        assert w[..|p|][|x| - 1 - j] == x[|x| - 1];
      } else {
        assert w[..|p|][|x| - j] == y[0];
      }
    }
  }

  /** Matches starting inside `x` are the same whether or not `y` follows. */
  ghost predicate NoStraddle(m: Matcher, x: string, y: string)
  {
    forall j {:trigger At(m, x[j..])} :: 0 <= j < |x| ==> At(m, (x + y)[j..]) == At(m, x[j..])
  }

  /** At a seam, a literal's matches in `x` are not affected by what follows. */
  lemma LiteralNoStraddle(p: string, x: string, y: string)
    requires Seam(x, y, p)
    ensures NoStraddle(MatcherOf(Literal(p)), x, y)
  {
    forall j | 0 <= j < |x|
      ensures At(MatcherOf(Literal(p)), (x + y)[j..]) == At(MatcherOf(Literal(p)), x[j..])
    {
      LiteralAtAppend(p, x, y, j);
    }
  }

  lemma NoStraddleSuffix(m: Matcher, x: string, y: string, k: nat)
    requires NoStraddle(m, x, y) && k <= |x|
    ensures NoStraddle(m, x[k..], y)
  {
    forall j | 0 <= j < |x| - k
      ensures At(m, (x[k..] + y)[j..]) == At(m, x[k..][j..])
    {
      assert (x[k..] + y)[j..] == (x + y)[k + j..];
      assert x[k..][j..] == x[k + j..];
    }
  }

  lemma {:induction false} FindFromAppend(m: Matcher, x: string, y: string, j: nat)
    requires NoStraddle(m, x, y) && j <= |x|
    ensures FindFrom(m, x + y, j) == if FindFrom(m, x, j).Some? then FindFrom(m, x, j) else Shift(FindFrom(m, y, 0), |x|)
    decreases |x| - j
  {
    if j == |x| {
      FindFromShift(m, x, y, 0);
    } else {
      FindFromAppend(m, x, y, j + 1);
    }
  }

  /** Replacing a literal distributes over a concatenation that no match can straddle. */
  lemma ReplaceAppend(x: string, y: string, p: string, v: string)
    requires Seam(x, y, p)
    ensures Replace(x + y, Literal(p), v) == Replace(x, Literal(p), v) + Replace(y, Literal(p), v)
  {
    LiteralNoStraddle(p, x, y);
    ReplaceAllAppend(MatcherOf(Literal(p)), x, y, v);
  }

  lemma {:induction false} ReplaceAllAppend(m: Matcher, x: string, y: string, v: string)
    requires NoStraddle(m, x, y)
    ensures ReplaceAll(m, x + y, v) == ReplaceAll(m, x, v) + ReplaceAll(m, y, v)
    decreases |x|
  {
    FindFromAppend(m, x, y, 0);
    var r := Find(m, x);
    if r.Some? {
      var i, n := r.value.0, r.value.1;
      var x' := x[i + n..];
      NoStraddleSuffix(m, x, y, i + n);
      ReplaceAllAppend(m, x', y, v);
      ReplaceStep(m, x + y, v, i, n, x' + y);
      ReplaceStep(m, x, v, i, n, x');
      assert (x + y)[..i] == x[..i];
    } else {
      ReplaceAfterClear(m, x, y, v);
    }
  }

  /** When `x` holds no match, replacement in `x + y` only touches `y`. */
  lemma ReplaceAfterClear(m: Matcher, x: string, y: string, v: string)
    requires Find(m, x).None? && Find(m, x + y) == Shift(Find(m, y), |x|)
    ensures ReplaceAll(m, x + y, v) == x + ReplaceAll(m, y, v)
  {
    var q := Find(m, y);
    if q.Some? {
      var i, n := q.value.0, q.value.1;
      assert (x + y)[|x| + i + n..] == y[i + n..];
      ReplaceStep(m, x + y, v, |x| + i, n, y[i + n..]);
      ReplaceStep(m, y, v, i, n, y[i + n..]);
      assert (x + y)[..|x| + i] == x + y[..i];
    } else {
      ReplaceNone(m, x + y, v);
      ReplaceNone(m, y, v);
    }
  }

  lemma ReplaceNone(m: Matcher, s: string, v: string)
    requires Find(m, s).None?
    ensures ReplaceAll(m, s, v) == s
  {
  }

  /** One step of the scan: the text before the first match, the replacement, then the rest. */
  lemma ReplaceStep(m: Matcher, s: string, v: string, i: nat, n: nat, rest: string)
    requires Find(m, s) == Some((i, n)) && rest == s[i + n..]
    ensures ReplaceAll(m, s, v) == s[..i] + v + ReplaceAll(m, rest, v)
  {
  }

  /** No match of `m` contains `c`. */
  ghost predicate Avoids(m: Matcher, c: char)
  {
    forall t :: c !in t[..At(m, t)]
  }

  /** A literal pattern's matches are the literal itself. */
  lemma LiteralAvoids(p: string, c: char)
    requires c !in p
    ensures Avoids(MatcherOf(Literal(p)), c)
  {
    forall t ensures c !in t[..At(MatcherOf(Literal(p)), t)] {
      if At(MatcherOf(Literal(p)), t) > 0 {
        assert t[..At(MatcherOf(Literal(p)), t)] == p;
      }
    }
  }

  /** A character no match contains survives replacement. */
  lemma {:induction false} ReplaceKeepsChar(m: Matcher, s: string, v: string, c: char)
    requires c in s && Avoids(m, c)
    ensures c in ReplaceAll(m, s, v)
    decreases |s|
  {
    match Find(m, s)
    case None =>
    case Some((i, n)) =>
      var rest := s[i + n..];
      ReplaceStep(m, s, v, i, n, rest);
      MatchAvoids(m, s, i, n, c);
      CharOutside(s, i, i + n, c);
      if c in rest {
        ReplaceKeepsChar(m, rest, v, c);
      }
  }

  lemma MatchAvoids(m: Matcher, s: string, i: nat, n: nat, c: char)
    requires Avoids(m, c) && i + n <= |s| && At(m, s[i..]) == n
    ensures c !in s[i..i + n]
  {
    assert s[i..][..At(m, s[i..])] == s[i..i + n];
  }

  /** A character of `s` that is not in `s[i..j]` lies before or after it. */
  lemma CharOutside(s: string, i: nat, j: nat, c: char)
    requires c in s && i <= j <= |s| && c !in s[i..j]
    ensures c in s[..i] || c in s[j..]
  {
    assert s == s[..i] + s[i..j] + s[j..];
  }

  // ---------------------------------------------------------------- splitting on one character

  lemma {:induction false} FindFromSkip(m: Matcher, s: string, i: nat, n: nat)
    requires i <= n <= |s| && NoMatchBefore(m, s, n)
    ensures FindFrom(m, s, i) == FindFrom(m, s, n)
    decreases n - i
  {
    if i < n {
      assert At(m, s[i..]) == 0;
      FindFromSkip(m, s, i + 1, n);
    }
  }

  /** `(k + c + rest).split(c)` is `k` followed by the pieces of `rest`, when `k` lacks `c`. */
  lemma SplitAtChar(k: string, c: char, rest: string)
    requires c !in k
    ensures Split(k + [c] + rest, Literal([c]))
      == ([k] + Split(rest, Literal([c])).0, [[c]] + Split(rest, Literal([c])).1)
  {
    var m := MatcherOf(Literal([c]));
    var s := k + [c] + rest;
    forall j | 0 <= j < |k| ensures At(m, s[j..]) == 0 {
      assert s[j] == k[j];
      assert s[j..][..1] == [s[j]];
    }
    FindFromSkip(m, s, 0, |k|);
    assert s[|k|..][..1] == [c];
    assert Find(m, s) == Some((|k|, 1));
    assert s[..|k|] == k && s[|k| + 1..] == rest && s[|k|..|k| + 1] == [c];
  }

  /** A text without `c` splits into itself alone. */
  lemma SplitAbsent(s: string, c: char)
    requires c !in s
    ensures Split(s, Literal([c])) == ([s], [])
  {
    LiteralAbsent(s, [c], c);
    FindNone(MatcherOf(Literal([c])), s, 0);
  }

  /** Splitting undoes joining, for pieces that lack the separator. */
  lemma {:induction false} SplitJoin(pieces: seq<string>, c: char)
    requires pieces != [] && forall i :: 0 <= i < |pieces| ==> c !in pieces[i]
    ensures Split(Join(pieces, [c]), Literal([c])).0 == pieces
    decreases |pieces|
  {
    if |pieces| == 1 {
      SplitAbsent(pieces[0], c);
    } else {
      var rest := pieces[1..];
      assert Join(pieces, [c]) == pieces[0] + [c] + Join(rest, [c]);
      SplitAtChar(pieces[0], c, Join(rest, [c]));
      SplitJoin(rest, c);
      assert [pieces[0]] + rest == pieces;
    }
  }

  /** Node's `path.basename` for POSIX paths: trailing slashes dropped, then the last segment. */
  function Basename(path: string): (r: string)
    ensures '/' !in r
    ensures '/' !in path ==> r == path
  {
    AfterLastSlash(StripTrailingSlashes(path))
  }

  function StripTrailingSlashes(p: string): (r: string)
    ensures '/' !in p ==> r == p
  {
    if p != [] && p[|p| - 1] == '/' then StripTrailingSlashes(p[..|p| - 1]) else p
  }

  function AfterLastSlash(t: string): (r: string)
    ensures '/' !in r
    ensures '/' !in t ==> r == t
  {
    if t == [] then []
    else if t[|t| - 1] == '/' then []
    else
      assert '/' !in t ==> '/' !in t[..|t| - 1];
      assert t == t[..|t| - 1] + [t[|t| - 1]];
      AfterLastSlash(t[..|t| - 1]) + [t[|t| - 1]]
  }
}
