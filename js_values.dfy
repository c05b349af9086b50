/** JavaScript values as the server handles them: decoded JSON, numbers that
    JS arithmetic produces, and the `||`, `?.` and `.filter` idioms the code
    uses to supply defaults and to select elements. */
module JsValues {

  datatype Option<+T> = None | Some(value: T) {
    function GetOr(default: T): T {
      if Some? then value else default
    }
  }

  /** A value, or the message of the Error a JS function throws. */
  datatype Result<+T> = Success(value: T) | Failure(error: string)

  /** Outcome of a JS function returning `void` that may throw. */
  datatype Outcome = Pass | Fail(error: string)

  /** A JS value. `Num` is a finite number (IEEE rounding is not modelled);
      `NaN` and `Infinity` are the non-finite numbers; `Missing` is
      `undefined`; `Obj` holds an object's own enumerable properties. */
  datatype Value =
    | Missing
    | Null
    | Bool(b: bool)
    | Num(n: real)
    | NaN
    | Infinity(negative: bool)
    | Str(s: string)
    | Arr(items: seq<Value>)
    | Obj(fields: map<string, Value>)

  /** JS truthiness: `undefined`, `null`, `false`, `0`, `NaN` and `""` are falsy. */
  predicate Truthy(v: Value) {
    match v
    case Missing => false
    case Null => false
    case Bool(b) => b
    case Num(n) => n != 0.0
    case NaN => false
    case Infinity(_) => true
    case Str(s) => s != ""
    case Arr(_) => true
    case Obj(_) => true
  }

  /** `a || b` */
  function Or(a: Value, b: Value): Value {
    if Truthy(a) then a else b
  }

  /** `v?.key`: `undefined` on `null` and `undefined`, an object's own
      property, and `undefined` for the keys this program reads on any
      other value (none of them is an inherited property). */
  function OptGet(v: Value, key: string): Value {
    match v
    case Obj(m) => if key in m then m[key] else Missing
    case _ => Missing
  }

  /** `v.key`: like `v?.key`, but reading a property of `null` or
      `undefined` throws a TypeError. */
  function Get(v: Value, key: string): (r: Result<Value>)
    ensures r.Failure? <==> v.Null? || v.Missing?
    ensures r.Success? ==> r.value == OptGet(v, key)
  {
    match v
    case Missing => Failure("Cannot read properties of undefined (reading '" + key + "')")
    case Null => Failure("Cannot read properties of null (reading '" + key + "')")
    case _ => Success(OptGet(v, key))
  }

  /** `Array.prototype.filter`, keeping order. Defined on the last element so
      that a loop appending to its result follows the definition directly. */
  function Filter<T>(s: seq<T>, p: T -> bool): (r: seq<T>)
    ensures |r| <= |s|
  {
    if s == [] then []
    else Filter(s[..|s| - 1], p) + (if p(s[|s| - 1]) then [s[|s| - 1]] else [])
  }

  /** Filtering distributes over concatenation: together with the singleton
      case this determines `Filter` as the order-preserving sublist. */
  lemma {:induction false} FilterConcat<T>(a: seq<T>, b: seq<T>, p: T -> bool)
    ensures Filter(a + b, p) == Filter(a, p) + Filter(b, p)
    decreases |b|
  {
    if b == [] {
      assert a + b == a;
    } else {
      var b' := b[..|b| - 1];
      assert (a + b)[..|a + b| - 1] == a + b';
      assert (a + b)[|a + b| - 1] == b[|b| - 1];
      FilterConcat(a, b', p);
    }
  }

  /** An element is kept exactly when it occurs and satisfies the test. */
  lemma {:induction false} FilterMember<T>(s: seq<T>, p: T -> bool, x: T)
    ensures x in Filter(s, p) <==> x in s && p(x)
  {
    if s != [] {
      FilterMember(s[..|s| - 1], p, x);
      assert s == s[..|s| - 1] + [s[|s| - 1]];
    }
  }

  /** Nothing is removed when every element passes. */
  lemma {:induction false} FilterAll<T>(s: seq<T>, p: T -> bool)
    requires forall i :: 0 <= i < |s| ==> p(s[i])
    ensures Filter(s, p) == s
  {
    if s != [] {
      var init, last := s[..|s| - 1], s[|s| - 1];
      forall i | 0 <= i < |init|
        ensures p(init[i])
      {
        assert init[i] == s[i];
      }
      FilterAll(init, p);
      assert p(last);
      assert Filter(s, p) == Filter(init, p) + [last];
      assert s == init + [last];
    }
  }
}
