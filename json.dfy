/**
 * JavaScript values as they come out of `JSON.parse`, with the JavaScript
 * coercions the source relies on: truthiness (`!x`, `x || y`), property
 * access, `Object.entries`, object-key assignment and `String(x)`.
 */
module Json {
  import opened Wrappers

  /** A parsed JSON value. Numbers are integers; objects keep insertion order. */
  datatype Json =
    | JNull
    | JBool(b: bool)
    | JNum(n: int)
    | JStr(s: string)
    | JArr(items: seq<Json>)
    | JObj(fields: seq<(string, Json)>)

  /** JavaScript ToBoolean: `null`, `false`, `0` and `""` are falsy; arrays and objects are truthy. */
  predicate Truthy(j: Json)
  {
    match j
    case JNull => false
    case JBool(b) => b
    case JNum(n) => n != 0
    case JStr(s) => s != ""
    case JArr(_) => true
    case JObj(_) => true
  }

  /** Truthiness of a possibly-undefined value. */
  predicate TruthyOpt(v: Option<Json>)
  {
    v.Some? && Truthy(v.value)
  }

  /** JavaScript `a || b`: `a` when it is truthy, otherwise `b`. */
  function Or(a: Option<Json>, b: Json): Json
  {
    if TruthyOpt(a) then a.value else b
  }

  /** The value bound to `k` in an ordered association list (its first binding). */
  function Lookup<V>(kvs: seq<(string, V)>, k: string): (r: Option<V>)
    ensures r.Some? <==> k in Keys(kvs)
    ensures r.Some? ==> (k, r.value) in kvs
  {
    if kvs == [] then None
    else if kvs[0].0 == k then Some(kvs[0].1)
    else Lookup(kvs[1..], k)
  }

  /** The keys of an association list, in order (`Object.keys`). */
  function Keys<V>(kvs: seq<(string, V)>): (ks: seq<string>)
    ensures |ks| == |kvs|
    ensures forall i :: 0 <= i < |kvs| ==> ks[i] == kvs[i].0
  {
    if kvs == [] then [] else [kvs[0].0] + Keys(kvs[1..])
  }

  /**
   * JavaScript `obj[k] = v`: an existing key keeps its position and takes the
   * new value, a new key is appended.
   */
  function Put<V>(kvs: seq<(string, V)>, k: string, v: V): (r: seq<(string, V)>)
    ensures Lookup(r, k) == Some(v)
    ensures forall k' :: k' != k ==> Lookup(r, k') == Lookup(kvs, k')
  {
    if kvs == [] then [(k, v)]
    else if kvs[0].0 == k then
      var r := [(k, v)] + kvs[1..];
      assert r[1..] == kvs[1..];
      r
    else
      var tail := Put(kvs[1..], k, v);
      var r := [kvs[0]] + tail;
      assert r[0] == kvs[0] && r[1..] == tail;
      r
  }

  /** Assigning a key that is not yet present appends it. */
  lemma {:induction false} PutNewKey<V>(kvs: seq<(string, V)>, k: string, v: V)
    requires k !in Keys(kvs)
    ensures Put(kvs, k, v) == kvs + [(k, v)]
  {
    if kvs != [] {
      KeysCons(kvs);
      PutNewKey(kvs[1..], k, v);
      PutCons(kvs, k, v);
      ConsSnoc(kvs, (k, v));
    }
  }

  lemma ConsSnoc<T>(s: seq<T>, x: T)
    requires s != []
    ensures [s[0]] + (s[1..] + [x]) == s + [x]
  {
    assert s == [s[0]] + s[1..];
  }

  lemma KeysCons<V>(kvs: seq<(string, V)>)
    requires kvs != []
    ensures Keys(kvs) == [kvs[0].0] + Keys(kvs[1..])
  {
  }

  lemma PutCons<V>(kvs: seq<(string, V)>, k: string, v: V)
    requires kvs != [] && kvs[0].0 != k
    ensures Put(kvs, k, v) == [kvs[0]] + Put(kvs[1..], k, v)
  {
  }

  /** The value bound to `k` by the last binding of `k`: what survives when bindings are assigned in order. */
  function LastLookup<V>(kvs: seq<(string, V)>, k: string): (r: Option<V>)
    ensures r.Some? <==> k in Keys(kvs)
  {
    if kvs == [] then None
    else
      var later := LastLookup(kvs[1..], k);
      if later.Some? then later
      else if kvs[0].0 == k then Some(kvs[0].1)
      else None
  }

  /** `{...acc, ...kvs}` for the entries `kvs` of a spread source: each binding assigned in order. */
  function Spread<V>(acc: seq<(string, V)>, kvs: seq<(string, V)>): seq<(string, V)>
    decreases |kvs|
  {
    if kvs == [] then acc else Spread(Put(acc, kvs[0].0, kvs[0].1), kvs[1..])
  }

  /** After a spread the last binding of each spread key wins; other keys keep their values. */
  lemma {:induction false} SpreadLookup<V>(acc: seq<(string, V)>, kvs: seq<(string, V)>, k: string)
    ensures Lookup(Spread(acc, kvs), k) == if k in Keys(kvs) then LastLookup(kvs, k) else Lookup(acc, k)
    decreases |kvs|
  {
    if kvs != [] {
      SpreadLookup(Put(acc, kvs[0].0, kvs[0].1), kvs[1..], k);
      assert Keys(kvs) == [kvs[0].0] + Keys(kvs[1..]);
    }
  }

  /** Property access `j.k` on a non-null value: only objects have own properties here. */
  function Field(j: Json, k: string): Option<Json>
  {
    if j.JObj? then Lookup(j.fields, k) else None
  }

  /** The decimal digits of a natural number. */
  function NatToString(n: nat): (s: string)
    ensures |s| > 0
    ensures forall i :: 0 <= i < |s| ==> '0' <= s[i] <= '9'
    decreases n
  {
    if n < 10 then [Digit(n)] else NatToString(n / 10) + [Digit(n % 10)]
  }

  function Digit(d: nat): (c: char)
    requires d < 10
    ensures '0' <= c <= '9'
  {
    ['0', '1', '2', '3', '4', '5', '6', '7', '8', '9'][d]
  }

  function IntToString(i: int): string
  {
    if i < 0 then "-" + NatToString(-i) else NatToString(i)
  }

  /**
   * `Object.entries(j)`: an object's own fields; an array's elements and a
   * string's characters under their decimal indices; nothing for other values.
   */
  function Entries(j: Json): (r: seq<(string, Json)>)
    ensures j.JObj? ==> r == j.fields
    ensures j.JArr? ==> |r| == |j.items| && forall i :: 0 <= i < |r| ==> r[i].1 == j.items[i]
    ensures !j.JObj? && !j.JArr? ==> forall i :: 0 <= i < |r| ==> r[i].1.JStr?
  {
    match j
    case JObj(fields) => fields
    case JArr(items) => seq(|items|, i requires 0 <= i < |items| => (NatToString(i), items[i]))
    case JStr(s) => seq(|s|, i requires 0 <= i < |s| => (NatToString(i), JStr([s[i]])))
    case _ => []
  }

  /** `typeof j === 'object'` (true of `null`, arrays and objects). */
  predicate IsObjectType(j: Json)
  {
    j.JNull? || j.JArr? || j.JObj?
  }

  /** JavaScript `String(v)`; `undefined` is `None`. */
  function ToJsString(v: Option<Json>): string
  {
    if v.None? then "undefined" else JsString(v.value)
  }

  function JsString(j: Json): string
    decreases j
  {
    match j
    case JNull => "null"
    case JBool(b) => if b then "true" else "false"
    case JNum(n) => IntToString(n)
    case JStr(s) => s
    case JArr(items) =>
      // Array.prototype.join(','): null elements become the empty string
      JoinComma(seq(|items|, i requires 0 <= i < |items| => if items[i].JNull? then "" else JsString(items[i])))
    case JObj(_) => "[object Object]"
  }

  function JoinComma(parts: seq<string>): string
  {
    if parts == [] then ""
    else if |parts| == 1 then parts[0]
    else parts[0] + "," + JoinComma(parts[1..])
  }

  /** JavaScript strict equality `a === b`: distinct arrays and objects are never equal. */
  predicate StrictEquals(a: Option<Json>, b: Option<Json>)
  {
    a == b && (a.Some? ==> !a.value.JArr? && !a.value.JObj?)
  }

  /** Some entry's value is `null`. */
  predicate HasNullEntry(entries: seq<(string, Json)>)
  {
    exists i :: 0 <= i < |entries| && entries[i].1.JNull?
  }

  lemma NullEntrySnoc(entries: seq<(string, Json)>)
    requires entries != []
    ensures HasNullEntry(entries) <==> HasNullEntry(entries[..|entries| - 1]) || entries[|entries| - 1].1.JNull?
  {
    var pre := entries[..|entries| - 1];
    if exists i :: 0 <= i < |pre| && pre[i].1.JNull? {
      var i :| 0 <= i < |pre| && pre[i].1.JNull?;
      assert entries[i] == pre[i];
    }
    if exists i :: 0 <= i < |entries| && entries[i].1.JNull? {
      var i :| 0 <= i < |entries| && entries[i].1.JNull?;
      if i < |pre| { assert pre[i] == entries[i]; }
    }
  }
}
