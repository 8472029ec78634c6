/**
 * The few JavaScript value semantics the widget depends on: a number
 * property that may be `undefined` or `NaN`, the `++` prefix increment and
 * strict (in)equality on it, the truthiness/callability of an option that is
 * meant to hold a callback, and ASCII lower-casing.
 */
module JsValues {

  /** An optional value: `None` is a key that is absent or holds `undefined`. */
  datatype Option<T> = None | Some(value: T)

  /** A JavaScript number property, as far as the request counter needs. */
  datatype Num = Undefined | NaN | Int(value: int)

  /**
   * `++x`: ToNumber(undefined) is NaN, NaN + 1 is NaN, an integer steps by one.
   * So NaN is absorbing and only an integer counter ever counts.
   */
  function Inc(n: Num): (r: Num)
    ensures r.Int? <==> n.Int?
    ensures n.Int? ==> r.value > n.value
    ensures !n.Int? ==> r == NaN
  {
    match n
    case Int(v) => Int(v + 1)
    case _ => NaN
  }

  /** `a === b`: structural equality, except that NaN equals nothing. */
  function StrictEquals(a: Num, b: Num): (r: bool)
    ensures r <==> a == b && a != NaN
  {
    match (a, b)
    case (Int(x), Int(y)) => x == y
    case (Undefined, Undefined) => true
    case _ => false
  }

  /**
   * The value of a callback option: a falsy value (the default `false`),
   * a function (named, so that calls to it can be logged), or some other
   * truthy value that is not callable.
   */
  datatype Hook = Falsy | Function(name: string) | OtherTruthy

  /** One character of `toLowerCase`, restricted to ASCII. */
  function LowerChar(c: char): char
  {
    if 'A' <= c <= 'Z' then (c as int + 32) as char else c
  }

  /** `String.prototype.toLowerCase`, restricted to ASCII letters. */
  function Lower(s: string): (r: string)
    ensures |r| == |s|
    ensures forall i :: 0 <= i < |s| ==> r[i] == LowerChar(s[i])
    ensures forall i :: 0 <= i < |r| ==> !('A' <= r[i] <= 'Z')
  {
    if s == [] then [] else [LowerChar(s[0])] + Lower(s[1..])
  }
}
