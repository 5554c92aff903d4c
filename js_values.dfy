/** JavaScript values as the route handlers see them in `req.query` and `req.body`,
    with the three operations the handlers apply to them: truthiness (`!x`),
    defaulting (`x || 'default'`) and interpolation into a template literal (`${x}`). */
module JsValues {

  datatype Option<T> = None | Some(value: T)

  /** A value read from a query string or a JSON body. Numbers are the integral ones;
      `Compound` is an array or an object, carried with the text `String(v)` gives for it. */
  datatype Value =
    | Undefined
    | Null
    | Bool(b: bool)
    | Num(n: int)
    | Str(s: string)
    | Compound(text: string)

  /** JavaScript truthiness: `undefined`, `null`, `false`, `0` and `''` are falsy;
      every array and object, even an empty one, is truthy. */
  predicate Truthy(v: Value) {
    match v
    case Undefined => false
    case Null => false
    case Bool(b) => b
    case Num(n) => n != 0
    case Str(s) => s != ""
    case Compound(_) => true
  }

  /** `v || fallback` for a string fallback: the left operand when it is truthy. */
  function Or(v: Value, fallback: string): Value {
    if Truthy(v) then v else Str(fallback)
  }

  function DigitChar(d: nat): char
    requires d < 10
  {
    "0123456789"[d]
  }

  /** Decimal notation of a natural number, without leading zeros. */
  function NatText(n: nat): string
    decreases n
  {
    if n < 10 then [DigitChar(n)] else NatText(n / 10) + [DigitChar(n % 10)]
  }

  /** `String(v)`: the text a template literal interpolates for `v`. */
  function Text(v: Value): string {
    match v
    case Undefined => "undefined"
    case Null => "null"
    case Bool(b) => if b then "true" else "false"
    case Num(n) => if n < 0 then "-" + NatText(-n) else NatText(n)
    case Str(s) => s
    case Compound(t) => t
  }

  /** `t` occurs as a contiguous part of `s`. */
  ghost predicate Infix(t: string, s: string) {
    exists i :: 0 <= i <= |s| && t <= s[i..]
  }

  /** The text of a template literal: its literal pieces and interpolated texts, in order. */
  function Join(parts: seq<string>): string {
    if parts == [] then "" else Join(parts[..|parts| - 1]) + parts[|parts| - 1]
  }

  /** A part of `x` stays a part when `x` is extended on either side. */
  lemma InfixExtend(t: string, x: string, y: string)
    requires Infix(t, x)
    ensures Infix(t, x + y) && Infix(t, y + x)
  {
    var i :| 0 <= i <= |x| && t <= x[i..];
    assert (x + y)[i..] == x[i..] + y;
    assert (y + x)[|y| + i..] == x[i..];
  }

  /** Every piece of a template literal occurs in its text. */
  lemma {:induction false} InfixOfJoin(parts: seq<string>, k: nat)
    requires k < |parts|
    ensures Infix(parts[k], Join(parts))
  {
    var n := |parts| - 1;
    var init := parts[..n];
    if k == n {
      assert parts[k][0..] == parts[k];
      InfixExtend(parts[k], parts[k], Join(init));
    } else {
      assert init[k] == parts[k];
      InfixOfJoin(init, k);
      InfixExtend(parts[k], Join(init), parts[n]);
    }
  }
}
