/**
 * Untyped Python values as they reach the modelled code from JSON documents and
 * keyword arguments, with the built-in operations the code applies to them:
 * truthiness, `dict.get`, `key in dict`, `isinstance(x, int)`, `int(x)` and `str(x)`.
 */
module Py {
  import opened Outcomes
  import opened Text

  // Messages of the exceptions raised here.
  const ObjectNotIterableMsg := "' object is not iterable"
  const UnhashableTypeMsg := "unhashable type: '"
  const NoGetAttributeMsg := "' object has no attribute 'get'"

  /**
   * A JSON-like Python value. A `dict` is the list of its entries in insertion
   * order; Python dicts never repeat a key, so lookups take the first entry.
   */
  datatype Json =
    | JNull
    | JBool(b: bool)
    | JInt(i: int)
    | JReal(r: real)
    | JStr(s: string)
    | JList(items: seq<Json>)
    | JObj(fields: seq<(string, Json)>)

  /** `bool(v)`: `None`, `False`, zero, and empty strings and containers are falsy. */
  predicate Truthy(v: Json) {
    match v
    case JNull => false
    case JBool(b) => b
    case JInt(i) => i != 0
    case JReal(r) => r != 0.0
    case JStr(s) => s != ""
    case JList(items) => items != []
    case JObj(fields) => fields != []
  }

  /** `key in d`. */
  predicate HasKey(fields: seq<(string, Json)>, key: string) {
    exists i | 0 <= i < |fields| :: fields[i].0 == key
  }

  /** `d.get(key, default)`. */
  function GetOr(fields: seq<(string, Json)>, key: string, default: Json): (v: Json)
    ensures !HasKey(fields, key) ==> v == default
    ensures HasKey(fields, key) ==> exists i | 0 <= i < |fields| :: fields[i] == (key, v)
  {
    if |fields| == 0 then default
    else if fields[0].0 == key then fields[0].1
    else
      var v := GetOr(fields[1..], key, default);
      assert HasKey(fields, key) ==> HasKey(fields[1..], key) by {
        if HasKey(fields, key) {
          var i :| 0 <= i < |fields| && fields[i].0 == key;
          assert fields[1..][i - 1].0 == key;
        }
      }
      assert HasKey(fields[1..], key) ==> HasKey(fields, key) by {
        if HasKey(fields[1..], key) {
          var i :| 0 <= i < |fields| - 1 && fields[1..][i].0 == key;
          assert fields[i + 1].0 == key;
        }
      }
      assert HasKey(fields, key) ==> exists i | 0 <= i < |fields| :: fields[i] == (key, v) by {
        if HasKey(fields, key) {
          var i :| 0 <= i < |fields| - 1 && fields[1..][i] == (key, v);
          assert fields[i + 1] == (key, v);
        }
      }
      v
  }

  /** `d.get(key)`: `None` when the key is absent. */
  function Get(fields: seq<(string, Json)>, key: string): Json {
    GetOr(fields, key, JNull)
  }

  /** With the key present, the default passed to `.get` does not matter. */
  lemma {:induction false} GetOrPresent(fields: seq<(string, Json)>, key: string, d1: Json, d2: Json)
    requires HasKey(fields, key)
    ensures GetOr(fields, key, d1) == GetOr(fields, key, d2)
  {
    if fields[0].0 != key {
      var i :| 0 <= i < |fields| && fields[i].0 == key;
      assert fields[1..][i - 1].0 == key;
      GetOrPresent(fields[1..], key, d1, d2);
    }
  }

  /** No key occurs twice, as in a dict literal. */
  predicate DistinctKeys(fields: seq<(string, Json)>) {
    forall i, j | 0 <= i < j < |fields| :: fields[i].0 != fields[j].0
  }

  /** In a dict without repeated keys, `.get` finds the entry of that key. */
  lemma {:induction false} GetOrEntry(fields: seq<(string, Json)>, i: int, default: Json)
    requires DistinctKeys(fields) && 0 <= i < |fields|
    ensures GetOr(fields, fields[i].0, default) == fields[i].1
  {
    if i > 0 {
      assert fields[0].0 != fields[i].0;
      assert fields[1..][i - 1] == fields[i];
      GetOrEntry(fields[1..], i - 1, default);
    }
  }

  /** The keys of a dict, in insertion order. */
  function Keys(fields: seq<(string, Json)>): (ks: seq<string>)
    ensures |ks| == |fields|
    ensures forall i :: 0 <= i < |fields| ==> ks[i] == fields[i].0
  {
    seq(|fields|, i requires 0 <= i < |fields| => fields[i].0)
  }

  /** `isinstance(v, int)`: `bool` is a subclass of `int` in Python. */
  predicate IsPyInt(v: Json) {
    v.JInt? || v.JBool?
  }

  /** The integer value of an `int` (a `bool` counts as 0 or 1). */
  function PyIntValue(v: Json): int
    requires IsPyInt(v)
  {
    if v.JInt? then v.i else if v.b then 1 else 0
  }

  /** Lists and dicts cannot be dict keys or set members. */
  predicate Unhashable(v: Json) { v.JList? || v.JObj? }

  /** The TypeError raised when `v` is used as a dict key. */
  function UnhashableError(v: Json): Exc {
    TypeError(UnhashableTypeMsg + TypeName(v) + "'")
  }

  /** The AttributeError raised by `v.get(...)` on a value that is not a dict. */
  function NoGetError(v: Json): Exc {
    AttributeError("'" + TypeName(v) + NoGetAttributeMsg)
  }

  // ---------------------------------------------------------------- ==

  /** `bool`, `int` and `float` compare with one another by value. */
  predicate IsNumber(v: Json) { v.JBool? || v.JInt? || v.JReal? }

  function NumberValue(v: Json): real
    requires IsNumber(v)
  {
    match v
    case JBool(b) => if b then 1.0 else 0.0
    case JInt(i) => i as real
    case JReal(r) => r
  }

  /** The entry at `i` is the first with its key: the one `.get` finds. */
  predicate FirstWithKey(fields: seq<(string, Json)>, i: int) {
    0 <= i < |fields| && forall j | 0 <= j < i :: fields[j].0 != fields[i].0
  }

  /**
   * Python's `a == b`: numbers by value (so `1 == 1.0 == True`), strings by their
   * text, lists item by item, and dicts by their keys and the values under each key,
   * whatever the order of insertion.
   */
  predicate PyEq(a: Json, b: Json)
    decreases a
  {
    match a
    case JNull => b.JNull?
    case JBool(_) => IsNumber(b) && NumberValue(a) == NumberValue(b)
    case JInt(_) => IsNumber(b) && NumberValue(a) == NumberValue(b)
    case JReal(_) => IsNumber(b) && NumberValue(a) == NumberValue(b)
    case JStr(s) => b.JStr? && b.s == s
    case JList(xs) =>
      b.JList? && |xs| == |b.items| && forall i | 0 <= i < |xs| :: PyEq(xs[i], b.items[i])
    case JObj(fs) =>
      && b.JObj?
      && (forall j | 0 <= j < |b.fields| :: HasKey(fs, b.fields[j].0))
      && forall i | 0 <= i < |fs| && FirstWithKey(fs, i) :: HasKey(b.fields, fs[i].0) && PyEq(fs[i].1, Get(b.fields, fs[i].0))
  }

  /** `.get` finds the first entry with the key. */
  lemma {:induction false} GetFirst(fields: seq<(string, Json)>, i: int)
    requires FirstWithKey(fields, i)
    ensures Get(fields, fields[i].0) == fields[i].1
  {
    if i > 0 {
      assert fields[0].0 != fields[i].0;
      assert fields[1..][i - 1] == fields[i];
      GetFirst(fields[1..], i - 1);
    }
  }

  /** Every value equals itself. */
  lemma {:induction false} PyEqReflexive(a: Json)
    ensures PyEq(a, a)
    decreases a
  {
    match a
    case JList(xs) =>
      forall i | 0 <= i < |xs| ensures PyEq(xs[i], xs[i]) {
        PyEqReflexive(xs[i]);
      }
    case JObj(fs) =>
      forall i | 0 <= i < |fs| && FirstWithKey(fs, i) ensures HasKey(fs, fs[i].0) && PyEq(fs[i].1, Get(fs, fs[i].0)) {
        GetFirst(fs, i);
        PyEqReflexive(fs[i].1);
      }
    case _ =>
  }

  /** Dict order, and `1`, `1.0` and `True`, make no difference to `==`. */
  lemma PyEqExamples()
    ensures PyEq(JObj([("a", JInt(1)), ("b", JInt(2))]), JObj([("b", JInt(2)), ("a", JInt(1))]))
    ensures JObj([("a", JInt(1)), ("b", JInt(2))]) != JObj([("b", JInt(2)), ("a", JInt(1))])
    ensures PyEq(JInt(1), JReal(1.0)) && PyEq(JReal(1.0), JBool(true))
    ensures !PyEq(JStr("1"), JInt(1))
  {
    var d1 := [("a", JInt(1)), ("b", JInt(2))];
    var d2 := [("b", JInt(2)), ("a", JInt(1))];
    assert d1[0].0 == "a" && d1[1].0 == "b" && d2[0].0 == "b" && d2[1].0 == "a";
    assert Get(d2, "a") == JInt(1) && Get(d2, "b") == JInt(2);
    assert forall j | 0 <= j < |d2| :: HasKey(d1, d2[j].0);
    assert forall i | 0 <= i < |d1| && FirstWithKey(d1, i) :: HasKey(d2, d1[i].0) && PyEq(d1[i].1, Get(d2, d1[i].0));
  }

  /** `isinstance(v, dict)`. */
  predicate IsDict(v: Json) { v.JObj? }

  /** `int(v)`; `None` where Python raises ValueError or TypeError. */
  function IntOf(v: Json): (r: Option<int>)
    ensures IsPyInt(v) ==> r == Some(PyIntValue(v))
    ensures v.JNull? || v.JList? || v.JObj? ==> r.None?
  {
    match v
    case JInt(i) => Some(i)
    case JBool(b) => Some(if b then 1 else 0)
    case JReal(r) => Some(if r >= 0.0 then r.Floor else -((-r).Floor))
    case JStr(s) => ParseInt(s)
    case _ => None
  }

  /** `type(v).__name__`. */
  function TypeName(v: Json): string {
    match v
    case JNull => "NoneType"
    case JBool(_) => "bool"
    case JInt(_) => "int"
    case JReal(_) => "float"
    case JStr(_) => "str"
    case JList(_) => "list"
    case JObj(_) => "dict"
  }

  /** What iterating over `v` yields: list items, string characters or dict keys. */
  function Elements(v: Json): (r: Result<seq<Json>>)
    ensures v.JList? ==> r == Success(v.items)
    ensures r.Failure? <==> !(v.JList? || v.JStr? || v.JObj?)
    ensures r.Success? && !v.JList? ==> forall k | 0 <= k < |r.value| :: r.value[k].JStr?
  {
    match v
    case JList(items) => Success(items)
    case JStr(s) => Success(seq(|s|, k requires 0 <= k < |s| => JStr([s[k]])))
    case JObj(fields) => Success(seq(|fields|, k requires 0 <= k < |fields| => JStr(fields[k].0)))
    case _ => Failure(TypeError("'" + TypeName(v) + ObjectNotIterableMsg))
  }

  /** `[x for xs in xss for x in xs]`. */
  function Flatten<T>(xss: seq<seq<T>>): (r: seq<T>)
    ensures forall i, j | 0 <= i < |xss| && 0 <= j < |xss[i]| :: xss[i][j] in r
  {
    if |xss| == 0 then [] else xss[0] + Flatten(xss[1..])
  }

  lemma FlattenSnoc<T>(xss: seq<seq<T>>, i: int)
    requires 0 <= i < |xss|
    ensures Flatten(xss[..i + 1]) == Flatten(xss[..i]) + xss[i]
  {
    if i == 0 {
      assert xss[..1][1..] == [];
    } else {
      assert xss[..i + 1][1..] == xss[1..][..i];
      assert xss[..i][1..] == xss[1..][..i - 1];
      FlattenSnoc(xss[1..], i - 1);
    }
  }

  lemma {:induction false} FlattenAppend<T>(a: seq<seq<T>>, b: seq<seq<T>>)
    ensures Flatten(a + b) == Flatten(a) + Flatten(b)
    decreases |a|
  {
    if |a| > 0 {
      assert (a + b)[1..] == a[1..] + b;
      FlattenAppend(a[1..], b);
    } else {
      assert a + b == b;
    }
  }

  /** `xs[j]` is the first element satisfying `p`. */
  predicate FirstWhere<T>(p: T -> bool, xs: seq<T>, j: int) {
    0 <= j < |xs| && p(xs[j]) && forall k | 0 <= k < j :: !p(xs[k])
  }

  /** The first hit in one inner list, after inner lists without hits, is the first hit overall. */
  lemma FirstWhereFlat<T>(p: T -> bool, xss: seq<seq<T>>, i: int, j: int)
    requires 0 <= i < |xss| && FirstWhere(p, xss[i], j)
    requires forall x | x in Flatten(xss[..i]) :: !p(x)
    ensures xss[i][j] in Flatten(xss)
    ensures FirstWhere(p, Flatten(xss), |Flatten(xss[..i])| + j)
    ensures Flatten(xss)[|Flatten(xss[..i])| + j] == xss[i][j]
  {
    var done, rest := Flatten(xss[..i]), Flatten(xss[i + 1..]);
    assert Flatten(xss) == done + xss[i] + rest by {
      FlattenSnoc(xss, i);
      assert xss == xss[..i + 1] + xss[i + 1..];
      FlattenAppend(xss[..i + 1], xss[i + 1..]);
    }
    var all := done + xss[i] + rest;
    forall k | 0 <= k < |done| + j
      ensures !p(all[k])
    {
      if k < |done| {
        assert all[k] == done[k];
      } else {
        assert all[k] == xss[i][k - |done|];
      }
    }
  }

  /** `[y for x in xs for y in f(x)]`: the results of `f`, concatenated in order. */
  function FlatMap<T, U>(f: T -> seq<U>, xs: seq<T>): seq<U> {
    if |xs| == 0 then [] else f(xs[0]) + FlatMap(f, xs[1..])
  }

  lemma {:induction false} FlatMapAppend<T, U>(f: T -> seq<U>, a: seq<T>, b: seq<T>)
    ensures FlatMap(f, a + b) == FlatMap(f, a) + FlatMap(f, b)
  {
    if |a| > 0 {
      assert (a + b)[1..] == a[1..] + b;
      FlatMapAppend(f, a[1..], b);
    } else {
      assert a + b == b;
    }
  }

  lemma FlatMapSnoc<T, U>(f: T -> seq<U>, xs: seq<T>, i: int)
    requires 0 <= i < |xs|
    ensures FlatMap(f, xs[..i + 1]) == FlatMap(f, xs[..i]) + f(xs[i])
  {
    assert xs[..i + 1] == xs[..i] + [xs[i]];
    FlatMapAppend(f, xs[..i], [xs[i]]);
    assert [xs[i]][1..] == [];
  }

  lemma ConcatAssoc<T>(a: seq<T>, b: seq<T>, c: seq<T>)
    ensures (a + b) + c == a + (b + c)
  {
  }

  /**
   * A loop whose every successful step extends the tracked list `get(s)` by `g(x)`
   * ends, when it gets through, with the first list followed by the `g` of every element.
   */
  lemma {:induction false} FoldTracks<S, T, U>(f: (S, T) -> Result<S>, get: S -> seq<U>, g: T -> seq<U>,
                                               s: S, xs: seq<T>)
    requires forall u, x :: f(u, x).Success? ==> get(f(u, x).value) == get(u) + g(x)
    requires FoldResults(f, s, xs).Success?
    ensures get(FoldResults(f, s, xs).value) == get(s) + FlatMap(g, xs)
    decreases |xs|
  {
    if |xs| > 0 {
      var n := |xs| - 1;
      FoldTracks(f, get, g, s, xs[..n]);
      FlatMapSnoc(g, xs, n);
      assert xs[..n + 1] == xs;
      ConcatAssoc(get(s), FlatMap(g, xs[..n]), g(xs[n]));
    }
  }

  /** A value is in the result exactly when one of the elements contributes it. */
  lemma {:induction false} FlatMapMembers<T, U>(f: T -> seq<U>, xs: seq<T>, x: U)
    ensures x in FlatMap(f, xs) <==> exists k | 0 <= k < |xs| :: x in f(xs[k])
  {
    if |xs| > 0 {
      FlatMapMembers(f, xs[1..], x);
      if exists k | 0 <= k < |xs| :: x in f(xs[k]) {
        var k :| 0 <= k < |xs| && x in f(xs[k]);
        if k > 0 {
          assert xs[1..][k - 1] == xs[k];
        }
      }
      if exists k | 0 <= k < |xs| - 1 :: x in f(xs[1..][k]) {
        var k :| 0 <= k < |xs| - 1 && x in f(xs[1..][k]);
        assert xs[k + 1] == xs[1..][k];
      }
    }
  }

  // ---------------------------------------------------------------- str() and repr()

  /** `repr(s)` of a string: single quotes unless only double quotes avoid escaping. */
  function StrRepr(s: string): string {
    var q := if '\'' in s && '"' !in s then '"' else '\'';
    [q] + EscapeRepr(s, q) + [q]
  }

  function EscapeRepr(s: string, q: char): string {
    if |s| == 0 then ""
    else
      var c := s[0];
      var e :=
        if c == '\\' then "\\\\"
        else if c == q then ['\\', q]
        else if c == '\n' then "\\n"
        else if c == '\r' then "\\r"
        else if c == '\t' then "\\t"
        else [c];
      e + EscapeRepr(s[1..], q)
  }

  /** `repr(v)`. */
  function Repr(v: Json): string
    decreases v, 1
  {
    match v
    case JStr(s) => StrRepr(s)
    case _ => PyStr(v)
  }

  /** `str(v)`. */
  function PyStr(v: Json): string
    decreases v, 0
  {
    match v
    case JNull => "None"
    case JBool(b) => if b then "True" else "False"
    case JInt(i) => IntToString(i)
    case JReal(_) => "<float>"
    case JStr(s) => s
    case JList(items) =>
      "[" + Join(seq(|items|, k requires 0 <= k < |items| => Repr(items[k])), ", ") + "]"
    case JObj(fields) =>
      "{" + Join(seq(|fields|, k requires 0 <= k < |fields| =>
                   StrRepr(fields[k].0) + ": " + Repr(fields[k].1)), ", ") + "}"
  }
}
