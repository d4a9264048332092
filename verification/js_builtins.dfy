/**
 * The two JavaScript string built-ins the funding handler relies on:
 * `String.prototype.trim` (the input gate) and `String.prototype.includes`
 * (the content-type test). Strings are sequences of code points.
 */
module JsBuiltins {

  /** ECMAScript WhiteSpace and LineTerminator code points: what `trim` strips. */
  predicate IsWhitespace(c: char) {
    var n := c as int;
    n == 0x09 || n == 0x0A || n == 0x0B || n == 0x0C || n == 0x0D || n == 0x20
    || n == 0xA0 || n == 0x1680 || (0x2000 <= n <= 0x200A) || n == 0x2028
    || n == 0x2029 || n == 0x202F || n == 0x205F || n == 0x3000 || n == 0xFEFF
  }

  predicate AllWhitespace(s: string) {
    forall i :: 0 <= i < |s| ==> IsWhitespace(s[i])
  }

  /** Drops leading whitespace: the result is the suffix of `s` that starts at its first non-whitespace character. */
  function TrimStart(s: string): (r: string)
    ensures |r| <= |s| && r == s[|s| - |r|..]
    ensures AllWhitespace(s[..|s| - |r|])
    ensures r == [] || !IsWhitespace(r[0])
    decreases |s|
  {
    if s != [] && IsWhitespace(s[0]) then
      var r := TrimStart(s[1..]);
      assert s[|s| - |r|..] == s[1..][|s| - 1 - |r|..];
      assert s[..|s| - |r|] == [s[0]] + s[1..][..|s| - 1 - |r|];
      r
    else s
  }

  /** Drops trailing whitespace: the result is the prefix of `s` that ends at its last non-whitespace character. */
  function TrimEnd(s: string): (r: string)
    ensures |r| <= |s| && r == s[..|r|]
    ensures AllWhitespace(s[|r|..])
    ensures r == [] || !IsWhitespace(r[|r| - 1])
    decreases |s|
  {
    if s != [] && IsWhitespace(s[|s| - 1]) then
      var r := TrimEnd(s[..|s| - 1]);
      assert s[|r|..] == s[..|s| - 1][|r|..] + [s[|s| - 1]];
      r
    else s
  }

  /**
   * Stripping a whitespace prefix of `s` (leaving `t`) and then a whitespace
   * suffix of `t` (leaving `r`) leaves the infix of `s` between the two runs,
   * it is empty exactly when `s` is whitespace only, and otherwise both of its
   * ends are non-whitespace.
   */
  lemma StrippedInfix(s: string, t: string, r: string)
    requires |t| <= |s| && t == s[|s| - |t|..] && AllWhitespace(s[..|s| - |t|])
    requires t == [] || !IsWhitespace(t[0])
    requires |r| <= |t| && r == t[..|r|] && AllWhitespace(t[|r|..])
    requires r == [] || !IsWhitespace(r[|r| - 1])
    ensures r == [] || (!IsWhitespace(r[0]) && !IsWhitespace(r[|r| - 1]))
    ensures exists i, j :: 0 <= i <= j <= |s| && r == s[i..j] && AllWhitespace(s[..i]) && AllWhitespace(s[j..])
    ensures r == [] <==> AllWhitespace(s)
  {
    var i := |s| - |t|;
    assert r == s[i..i + |r|];
    assert s[i + |r|..] == t[|r|..];
    assert s == s[..i] + t;
  }

  /**
   * `s.trim()`: the infix of `s` between a leading and a trailing run of
   * whitespace; empty exactly when `s` is whitespace only, otherwise bounded
   * by non-whitespace on both ends.
   */
  function Trim(s: string): (r: string)
    ensures exists i, j :: 0 <= i <= j <= |s| && r == s[i..j] && AllWhitespace(s[..i]) && AllWhitespace(s[j..])
    ensures r == [] <==> AllWhitespace(s)
    ensures r == [] || (!IsWhitespace(r[0]) && !IsWhitespace(r[|r| - 1]))
  {
    var t := TrimStart(s);
    var r := TrimEnd(t);
    StrippedInfix(s, t, r);
    r
  }

  /** `search` occurs in `s` starting at index `i`. */
  predicate OccursAt(s: string, search: string, i: int) {
    0 <= i && i + |search| <= |s| && s[i..i + |search|] == search
  }

  /** `!s.trim()`: the string is blank exactly when it holds whitespace only. */
  method IsBlank(s: string) returns (blank: bool)
    ensures blank <==> AllWhitespace(s)
  {
    blank := Trim(s) == [];
  }

  /** When `search` does not start `s`, it occurs in `s` exactly when it occurs in the rest of `s`. */
  lemma OccursInTail(s: string, search: string)
    requires s != [] && !OccursAt(s, search, 0)
    ensures (exists i :: OccursAt(s, search, i)) <==> (exists i :: OccursAt(s[1..], search, i))
  {
    if i :| OccursAt(s, search, i) {
      assert s[1..][i - 1..i - 1 + |search|] == s[i..i + |search|];
      assert OccursAt(s[1..], search, i - 1);
    }
    if i :| OccursAt(s[1..], search, i) {
      assert s[1..][i..i + |search|] == s[i + 1..i + 1 + |search|];
      assert OccursAt(s, search, i + 1);
    }
  }

  /** `s.includes(search)`: `search` occurs somewhere in `s`. */
  function Includes(s: string, search: string): (b: bool)
    ensures b <==> exists i :: OccursAt(s, search, i)
    decreases |s|
  {
    if |search| > |s| then false
    else if s[..|search|] == search then assert OccursAt(s, search, 0); true
    else
      OccursInTail(s, search);
      Includes(s[1..], search)
  }
}
