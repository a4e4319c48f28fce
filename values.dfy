/** Field values as the wire serializer carries them, and the Python notions
    of truthiness and primitive type that the add-on relies on. */
module Values {

  datatype Option<+T> = None | Some(value: T)

  /** A value of a message field or a host-call argument.  Python 2 keeps
      `str` apart from `unicode` and `int` apart from `long`, and the add-on's
      `isinstance` checks tell them apart.  Python floats are not modelled. */
  datatype Value =
    | VNone
    | VBool(b: bool)
    | VInt(i: int)
    | VLong(l: int)
    | VStr(s: string)
    | VUnicode(u: string)
    | VList(items: seq<Value>)
    | VDict(entries: map<string, Value>)

  /** The keyword fields of a message (a Python dict with string keys). */
  type Fields = map<string, Value>

  /** Python's `bool(v)`. */
  predicate Truthy(v: Value) {
    match v
    case VNone => false
    case VBool(b) => b
    case VInt(i) => i != 0
    case VLong(l) => l != 0
    case VStr(s) => s != ""
    case VUnicode(u) => u != ""
    case VList(items) => items != []
    case VDict(entries) => entries != map[]
  }

  /** Python 2's `isinstance(v, (int, str, bool))`: neither `long` nor
      `unicode` is among them. */
  predicate IsPrimitive(v: Value) {
    v.VBool? || v.VInt? || v.VStr?
  }

  /** Text of either string type; Python 2 concatenates and compares the two
      alike for the ASCII names the add-on uses. */
  predicate IsText(v: Value) {
    v.VStr? || v.VUnicode?
  }

  function Text(v: Value): string
    requires IsText(v)
  {
    if v.VStr? then v.s else v.u
  }

  /** The representative Python 2's `==` and dict hashing see: `bool` and
      `long` become `int`, `unicode` becomes `str`, also inside lists and
      dicts.  Two values are equal in Python exactly when their
      representatives are the same. */
  function Canon(v: Value): (c: Value)
    ensures Canonical(c)
    decreases v, 1
  {
    match v
    case VBool(b) => VInt(if b then 1 else 0)
    case VLong(l) => VInt(l)
    case VUnicode(u) => VStr(u)
    case VList(_) => VList(CanonItems(v))
    case VDict(_) => VDict(CanonEntries(v))
    case _ => v
  }

  function CanonItems(v: Value): (r: seq<Value>)
    requires v.VList?
    ensures |r| == |v.items| && forall k :: 0 <= k < |r| ==> r[k] == Canon(v.items[k])
    decreases v, 0
  {
    seq(|v.items|, k requires 0 <= k < |v.items| => Canon(v.items[k]))
  }

  function CanonEntries(v: Value): (r: map<string, Value>)
    requires v.VDict?
    ensures r.Keys == v.entries.Keys && forall key :: key in r ==> r[key] == Canon(v.entries[key])
    decreases v, 0
  {
    map key | key in v.entries :: Canon(v.entries[key])
  }

  /** A value built from `None`, `int`, `str`, lists and dicts only. */
  predicate Canonical(v: Value) {
    match v
    case VBool(_) => false
    case VLong(_) => false
    case VUnicode(_) => false
    case VList(items) => forall k :: 0 <= k < |items| ==> Canonical(items[k])
    case VDict(entries) => forall key :: key in entries ==> Canonical(entries[key])
    case _ => true
  }

  /** A representative is its own representative, so `Canon` is idempotent. */
  lemma {:induction false} CanonFixes(v: Value)
    requires Canonical(v)
    ensures Canon(v) == v
  {
    match v
    case VList(items) =>
      forall k | 0 <= k < |items| ensures Canon(items[k]) == items[k] {
        CanonFixes(items[k]);
      }
      assert Canon(v).items == items;
    case VDict(entries) =>
      forall key | key in entries ensures Canon(entries[key]) == entries[key] {
        CanonFixes(entries[key]);
      }
      assert Canon(v).entries == entries;
    case _ =>
  }

  /** A dict key as Python 2 finds it: a representative. */
  type Key = v: Value | Canonical(v) witness VNone

  /** Python 2's `a == b` (`!=` is its negation). */
  predicate PyEq(a: Value, b: Value) {
    Canon(a) == Canon(b)
  }

  /** `2L == 2`, `True == 1`, `False == 0` and `u'a' == 'a'` hold; a number
      never equals text or `None`, and different numbers differ. */
  lemma PyEqCases(n: int, m: int, s: string)
    ensures PyEq(VLong(n), VInt(n)) && PyEq(VBool(true), VInt(1)) && PyEq(VBool(false), VInt(0))
    ensures PyEq(VUnicode(s), VStr(s))
    ensures !PyEq(VStr(s), VInt(n)) && !PyEq(VNone, VInt(n)) && !PyEq(VNone, VStr(s))
    ensures PyEq(VInt(n), VLong(m)) <==> n == m
  {
  }

  /** Between representatives, Python's `==` is equality of the values. */
  lemma PyEqOnKeys(a: Value, b: Value)
    requires Canonical(a) && Canonical(b)
    ensures PyEq(a, b) <==> a == b
  {
    CanonFixes(a);
    CanonFixes(b);
  }

  /** The number of occurrences of `x` in `s`. */
  function Count<T(==)>(s: seq<T>, x: T): nat {
    if s == [] then 0 else (if s[0] == x then 1 else 0) + Count(s[1..], x)
  }

  lemma {:induction false} CountAppend<T>(s: seq<T>, t: seq<T>, x: T)
    ensures Count(s + t, x) == Count(s, x) + Count(t, x)
  {
    if s == [] {
      assert s + t == t;
    } else {
      assert (s + t)[0] == s[0];
      assert (s + t)[1..] == s[1..] + t;
      CountAppend(s[1..], t, x);
    }
  }

  lemma {:induction false} CountZeroIffAbsent<T>(s: seq<T>, x: T)
    ensures Count(s, x) == 0 <==> x !in s
  {
    if s != [] {
      CountZeroIffAbsent(s[1..], x);
      assert x in s <==> s[0] == x || x in s[1..];
    }
  }

  /** `n` copies of `x`. */
  function Repeat<T>(x: T, n: nat): (r: seq<T>)
    ensures |r| == n
    ensures forall i :: 0 <= i < n ==> r[i] == x
  {
    if n == 0 then [] else Repeat(x, n - 1) + [x]
  }
}
