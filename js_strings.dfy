/**
 * JavaScript strings as the trip form sees them: sequences of UTF-16 code units.
 * `s.length` is the number of code units and `===` compares code unit by code unit,
 * so the model keeps that representation instead of Dafny's Unicode `string`.
 */
module JsStrings {
  import opened Wrappers

  newtype CodeUnit = x: int | 0 <= x < 0x1_0000

  type JsString = seq<CodeUnit>

  /** The code units of a string literal written with characters of the Basic Multilingual Plane. */
  function Literal(s: string): JsString
    requires forall i :: 0 <= i < |s| ==> s[i] as int < 0x1_0000
  {
    seq(|s|, i requires 0 <= i < |s| => s[i] as int as CodeUnit)
  }

  /**
   * The code units that ECMAScript's String.prototype.trim removes (ECMA-262, productions
   * WhiteSpace and LineTerminator): tab, vertical tab, form feed, space, no-break space,
   * the byte order mark, the other space separators of Unicode category Zs, line feed,
   * carriage return, line separator and paragraph separator.
   */
  predicate IsWhiteSpace(c: CodeUnit) {
    c == 0x09 || c == 0x0B || c == 0x0C || c == 0x20 || c == 0xA0 || c == 0xFEFF
    || c == 0x1680 || (0x2000 <= c <= 0x200A) || c == 0x202F || c == 0x205F || c == 0x3000
    || c == 0x0A || c == 0x0D || c == 0x2028 || c == 0x2029
  }

  /** Every code unit of `s` is white space (the empty string included). */
  predicate Blank(s: JsString) {
    forall i :: 0 <= i < |s| ==> IsWhiteSpace(s[i])
  }

  /** JavaScript truthiness of a string that may be missing: `undefined`, `null` and `""` are falsy. */
  predicate Truthy(v: Option<JsString>) {
    v.Some? && v.value != []
  }

  /** `s.trimStart()`: the suffix of `s` left after its leading white space. */
  function TrimStart(s: JsString): (r: JsString)
    ensures |r| <= |s| && r == s[|s| - |r|..]
    ensures forall i :: 0 <= i < |s| - |r| ==> IsWhiteSpace(s[i])
    ensures r != [] ==> !IsWhiteSpace(r[0])
  {
    if s != [] && IsWhiteSpace(s[0]) then
      var r := TrimStart(s[1..]);
      assert s[1..][|s| - 1 - |r|..] == s[|s| - |r|..];
      r
    else
      s
  }

  /** `s.trimEnd()`: the prefix of `s` left after its trailing white space. */
  function TrimEnd(s: JsString): (r: JsString)
    ensures |r| <= |s| && r == s[..|r|]
    ensures forall i :: |r| <= i < |s| ==> IsWhiteSpace(s[i])
    ensures r != [] ==> !IsWhiteSpace(r[|r| - 1])
  {
    if s != [] && IsWhiteSpace(s[|s| - 1]) then
      var r := TrimEnd(s[..|s| - 1]);
      assert s[..|s| - 1][..|r|] == s[..|r|];
      r
    else
      s
  }

  /**
   * `s.trim()`: `s` without its leading and trailing white space, that is `TrimEnd` applied
   * after `TrimStart`. The result is empty exactly when every code unit of `s` is white space.
   */
  function Trim(s: JsString): (r: JsString)
    ensures r == [] <==> Blank(s)
  {
    TrimEnd(TrimStart(s))
  }
}
