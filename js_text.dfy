/**
  The few JavaScript string rules the shopping list depends on: the
  truthiness behind `x || fallback`, `String.prototype.trim`, and the line
  terminators that the regular-expression dot `.` refuses to match.
  Strings are sequences of code points.
 */
module JsText {

  datatype Option<T> = None | Some(value: T)

  /** LineTerminator code points of ECMAScript (section 12.3 of ECMA-262). */
  predicate IsLineTerminator(c: char) {
    c == '\n' || c == '\r' || c == '\U{2028}' || c == '\U{2029}'
  }

  /** WhiteSpace (section 12.2 of ECMA-262, with the Zs category written out)
      together with LineTerminator: exactly what `trim()` strips. */
  predicate IsJsWhitespace(c: char) {
    || IsLineTerminator(c)
    || c == '\t' || c == '\U{000B}' || c == '\U{000C}' || c == ' '
    || c == '\U{00A0}' || c == '\U{FEFF}' || c == '\U{1680}'
    || ('\U{2000}' <= c <= '\U{200A}')
    || c == '\U{202F}' || c == '\U{205F}' || c == '\U{3000}'
  }

  /** Every character of `s` is whitespace (the empty string included). */
  predicate IsBlank(s: string) {
    forall i :: 0 <= i < |s| ==> IsJsWhitespace(s[i])
  }

  /** Strips leading whitespace: the result is the suffix of `s` that starts
      at the first non-whitespace character. */
  function TrimStart(s: string): (r: string)
    ensures |r| <= |s| && r == s[|s| - |r|..]
    ensures forall i :: 0 <= i < |s| - |r| ==> IsJsWhitespace(s[i])
    ensures r == [] || !IsJsWhitespace(r[0])
  {
    if |s| == 0 || !IsJsWhitespace(s[0]) then s else TrimStart(s[1..])
  }

  /** Strips trailing whitespace: the result is the prefix of `s` that ends
      at the last non-whitespace character. */
  function TrimEnd(s: string): (r: string)
    ensures |r| <= |s| && r == s[..|r|]
    ensures forall i :: |r| <= i < |s| ==> IsJsWhitespace(s[i])
    ensures r == [] || !IsJsWhitespace(r[|r| - 1])
  {
    if |s| == 0 || !IsJsWhitespace(s[|s| - 1]) then s else TrimEnd(s[..|s| - 1])
  }

  /** `s.trim()` */
  function Trim(s: string): string {
    TrimEnd(TrimStart(s))
  }

  /** `s.trim() === ""` holds exactly when `s` consists of whitespace only. */
  lemma TrimEmptyIffBlank(s: string)
    ensures Trim(s) == "" <==> IsBlank(s)
  {
    var t := TrimStart(s);
    if Trim(s) == "" {
      assert t == [];
    }
  }
  /** The guard `!s.trim()`: true exactly when `s` is whitespace only. */
  method TrimIsEmpty(s: string) returns (empty: bool)
    ensures empty <==> IsBlank(s)
  {
    empty := Trim(s) == "";
    TrimEmptyIffBlank(s);
  }


  /** JavaScript truthiness of an optional string: `undefined` and `""` are falsy. */
  predicate Truthy(s: Option<string>) {
    s.Some? && s.value != ""
  }

  /** `s || fallback` for an optional string. */
  function OrString(s: Option<string>, fallback: string): string {
    if Truthy(s) then s.value else fallback
  }

  /** `x || 0` for an optional number: `undefined` and `0` both give 0. */
  function OrZero(x: Option<real>): real {
    if x.Some? && x.value != 0.0 then x.value else 0.0
  }

  /** A non-empty fallback makes `s || fallback` non-empty. */
  lemma OrStringNeverEmpty(s: Option<string>, fallback: string)
    ensures fallback != "" ==> OrString(s, fallback) != ""
  {
  }

  /** `x || 0` is the supplied number when present (a supplied 0 gives 0
      either way) and 0 when absent. */
  lemma OrZeroIsValueOrZero(x: Option<real>)
    ensures OrZero(x) == (if x.Some? then x.value else 0.0)
  {
  }
}
