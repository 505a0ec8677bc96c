/** The part of JavaScript's value semantics that the handler layer depends on:
    truthiness (`if (v)`), `typeof v === 'object'` and `String.prototype.toUpperCase`. */
module Js {

  /** A JavaScript value. Numbers are integral here; `Obj` stands for every
      object, arrays included, with its own enumerable properties. */
  datatype JsValue =
    | Undefined
    | Null
    | Bool(b: bool)
    | Num(n: int)
    | Str(s: string)
    | Obj(fields: map<string, JsValue>)

  /** JavaScript's ToBoolean conversion, as used by `if (v)`, `!v` and `v ? a : b`. */
  predicate Truthy(v: JsValue) {
    match v
    case Undefined => false
    case Null => false
    case Bool(b) => b
    case Num(n) => n != 0
    case Str(s) => s != ""
    case Obj(_) => true
  }

  /** `typeof v === 'object'`, which also holds for `null`. */
  predicate TypeofIsObject(v: JsValue) {
    v.Null? || v.Obj?
  }

  /** The falsy values are exactly `undefined`, `null`, `false`, `0` and `''`. */
  lemma FalsyValues(v: JsValue)
    ensures !Truthy(v) <==> v in {Undefined, Null, Bool(false), Num(0), Str("")}
  {
  }

  /** `null` is the only value that is an object by `typeof` and still falsy. */
  lemma FalsyObjectIsNull(v: JsValue)
    requires TypeofIsObject(v)
    ensures Truthy(v) <==> v != Null
  {
  }

  predicate IsLowerAscii(c: char) {
    'a' <= c <= 'z'
  }

  /** Upper-cases one character of the ASCII range; every other character is kept. */
  function UpperChar(c: char): (u: char)
    ensures !IsLowerAscii(u)
    ensures IsLowerAscii(c) ==> u as int == c as int - 32
    ensures !IsLowerAscii(c) ==> u == c
  {
    if IsLowerAscii(c) then (c as int - 'a' as int + 'A' as int) as char else c
  }

  /** `s.toUpperCase()`, restricted to the ASCII letters: maps every character independently. */
  function ToUpperCase(s: string): (r: string)
    ensures |r| == |s|
    ensures forall i :: 0 <= i < |s| ==> r[i] == UpperChar(s[i])
  {
    if s == [] then [] else [UpperChar(s[0])] + ToUpperCase(s[1..])
  }

  /** Upper-casing twice is upper-casing once. */
  lemma ToUpperCaseIdempotent(s: string)
    ensures ToUpperCase(ToUpperCase(s)) == ToUpperCase(s)
  {
    var u := ToUpperCase(s);
    assert forall i :: 0 <= i < |u| ==> ToUpperCase(u)[i] == u[i];
  }

  /** Upper-casing keeps the empty string empty and no other string becomes empty,
      so `!s.toUpperCase()` agrees with `!s`. */
  lemma ToUpperCaseEmpty(s: string)
    ensures ToUpperCase(s) == "" <==> s == ""
  {
  }

  /** A string without lower-case ASCII letters is its own upper-case form. */
  lemma {:induction false} ToUpperCaseFixed(s: string)
    requires forall i :: 0 <= i < |s| ==> !IsLowerAscii(s[i])
    ensures ToUpperCase(s) == s
  {
    if s != [] {
      ToUpperCaseFixed(s[1..]);
    }
  }
}
