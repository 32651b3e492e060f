/** JavaScript values as far as the modelled code inspects them, and their truthiness. */
module Js {

  /**
   * A value held by a JavaScript variable or property. Numbers are integers
   * here; objects and arrays are told apart only by an identity.
   */
  datatype JsValue =
    | Undefined
    | Null
    | Bool(b: bool)
    | Num(n: int)
    | Str(s: string)
    | Obj(id: nat)

  /** `!!v`: `undefined`, `null`, `false`, `0` and `""` are falsy, everything else is truthy. */
  predicate Truthy(v: JsValue)
  {
    match v
    case Undefined => false
    case Null => false
    case Bool(b) => b
    case Num(n) => n != 0
    case Str(s) => s != []
    case Obj(_) => true
  }

  /**
   * `a || b`: the first operand when it is truthy, else the second. The result
   * is one of the operands, and it is truthy exactly when either operand is.
   */
  function Or(a: JsValue, b: JsValue): (r: JsValue)
    ensures r == a || r == b
    ensures Truthy(r) <==> Truthy(a) || Truthy(b)
  {
    if Truthy(a) then a else b
  }

  /**
   * `s.length`: JavaScript counts UTF-16 code units, so a character outside the
   * Basic Multilingual Plane (above U+FFFF) counts twice.
   */
  function Utf16Length(s: string): (n: nat)
    ensures |s| <= n <= 2 * |s|
  {
    if s == [] then 0
    else Utf16Length(s[..|s| - 1]) + (if s[|s| - 1] as int > 0xFFFF then 2 else 1)
  }

  /** A string of characters from the Basic Multilingual Plane has one code unit per character. */
  lemma {:induction false} Utf16LengthOfBmp(s: string)
    requires forall i :: 0 <= i < |s| ==> s[i] as int <= 0xFFFF
    ensures Utf16Length(s) == |s|
  {
    if s != [] {
      Utf16LengthOfBmp(s[..|s| - 1]);
    }
  }
}
