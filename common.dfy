/** Values shared by every part of the model: an Option type, JavaScript/JSON
    values with JavaScript truthiness, and IEEE-style numbers whose only
    non-finite value of interest is NaN. */
module Common {

  datatype Option<T> = None | Some(value: T)

  /** A JSON value as the TypeScript code sees it after parsing. A key that is
      absent from an object stands for `undefined`. */
  datatype Value =
    | Null
    | Bool(b: bool)
    | Num(n: real)
    | NaN
    | Str(s: string)
    | Arr(elems: seq<Value>)
    | Obj(fields: map<string, Value>)

  /** JavaScript truthiness: null, false, 0, NaN and "" are falsy, every
      object and array is truthy. */
  predicate Truthy(v: Value) {
    match v
    case Null => false
    case Bool(b) => b
    case Num(n) => n != 0.0
    case NaN => false
    case Str(s) => s != ""
    case Arr(_) => true
    case Obj(_) => true
  }

  /** `m[k]`, with `undefined` as None. */
  function Get(m: map<string, Value>, k: string): (r: Option<Value>)
    ensures r.Some? <==> k in m
    ensures r.Some? ==> r.value == m[k]
  {
    if k in m then Some(m[k]) else None
  }

  /** JavaScript's `m[k] || 0`: the field itself when present and truthy,
      the number 0 otherwise. */
  function OrZero(m: map<string, Value>, k: string): (r: Value)
    ensures Truthy(r) ==> k in m && r == m[k]
    ensures !Truthy(r) ==> r == Num(0.0)
    ensures k in m && Truthy(m[k]) ==> r == m[k]
  {
    if k in m && Truthy(m[k]) then m[k] else Num(0.0)
  }

  /** `v.k` on a JSON value that is not null: a field of an object,
      undefined (None) on a number, string, boolean or array. Reading a
      property of null throws, so callers exclude it. */
  function Prop(v: Value, k: string): (r: Option<Value>)
    requires v != Null
    ensures v.Obj? ==> r == Get(v.fields, k)
    ensures !v.Obj? ==> r.None?
  {
    if v.Obj? then Get(v.fields, k) else None
  }

  /** Truthiness of a possibly undefined value. */
  predicate TruthyOpt(o: Option<Value>) {
    o.Some? && Truthy(o.value)
  }

  /** `o || 0` on an optional value (absent = undefined). */
  function OptOrZero(o: Option<Value>): (r: Value)
    ensures o.Some? && Truthy(o.value) ==> r == o.value
    ensures !(o.Some? && Truthy(o.value)) ==> r == Num(0.0)
  {
    if o.Some? && Truthy(o.value) then o.value else Num(0.0)
  }

  /** `param || fallback` on an optional string (a missing query
      parameter is None): an absent or empty string takes the fallback. */
  function StrOr(p: Option<string>, fallback: string): (r: string)
    ensures p.Some? && p.value != "" ==> r == p.value
    ensures p.None? || p.value == "" ==> r == fallback
  {
    if p.Some? && p.value != "" then p.value else fallback
  }

  /** A pandas/Python float: finite or NaN. Every ordered comparison with
      NaN is false. */
  datatype Float = FNaN | Fin(r: real)

  predicate FLt(a: Float, b: Float) { a.Fin? && b.Fin? && a.r < b.r }
  predicate FLe(a: Float, b: Float) { a.Fin? && b.Fin? && a.r <= b.r }
  predicate FGt(a: Float, b: Float) { a.Fin? && b.Fin? && a.r > b.r }
  predicate FGe(a: Float, b: Float) { a.Fin? && b.Fin? && a.r >= b.r }

  /** Python's int() of a float: truncation toward zero. */
  function Trunc(x: real): (r: int)
    ensures x >= 0.0 ==> r as real <= x < r as real + 1.0
    ensures x < 0.0 ==> r as real - 1.0 < x <= r as real
  {
    if x >= 0.0 then x.Floor else -((-x).Floor)
  }

  /** Python's int() of a decoded JSON value; text goes through
      `parseInt`. None is the ValueError or TypeError it raises. */
  function PyInt(v: Value, parseInt: string -> Option<int>): Option<int> {
    match v
    case Num(n) => Some(Trunc(n))
    case Bool(b) => Some(if b then 1 else 0)
    case Str(s) => parseInt(s)
    case _ => None
  }

  /** Python's float() of a decoded JSON value; text goes through
      `parseFloat`. */
  function PyFloat(v: Value, parseFloat: string -> Option<Float>): Option<Float> {
    match v
    case Num(n) => Some(Fin(n))
    case NaN => Some(FNaN)
    case Bool(b) => Some(Fin(if b then 1.0 else 0.0))
    case Str(s) => parseFloat(s)
    case _ => None
  }

  predicate NoDuplicates<T(==)>(s: seq<T>) {
    forall i, j :: 0 <= i < j < |s| ==> s[i] != s[j]
  }

  /** The elements of `s` that satisfy `p`, in order (Array.filter, a list
      comprehension with a condition). */
  function Filter<T>(s: seq<T>, p: T -> bool): (r: seq<T>)
    ensures |r| <= |s|
    ensures forall x :: x in r ==> x in s && p(x)
    ensures forall x :: x in s && p(x) ==> x in r
    ensures (forall x :: x in s ==> p(x)) ==> r == s
  {
    if s == [] then []
    else if p(s[0]) then [s[0]] + Filter(s[1..], p)
    else Filter(s[1..], p)
  }

  /** Filter keeps the order: its result is a subsequence of its input. */
  lemma {:induction false} FilterOfConcat<T>(a: seq<T>, b: seq<T>, p: T -> bool)
    ensures Filter(a + b, p) == Filter(a, p) + Filter(b, p)
  {
    if a == [] {
      assert a + b == b;
    } else {
      assert (a + b)[1..] == a[1..] + b;
      FilterOfConcat(a[1..], b, p);
    }
  }

  lemma FilterSingleton<T>(x: T, p: T -> bool)
    ensures Filter([x], p) == if p(x) then [x] else []
  {
    assert [x][1..] == [];
  }
}
