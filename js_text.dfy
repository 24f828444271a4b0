/**
 * The JavaScript string primitives the client relies on:
 * `String.prototype.trim` (used as the "is this input blank?" test and to
 * normalise the user name) and `toUpperCase` on a single character (the
 * avatar initial).
 */
module JsText {

  /** The code points `trim()` strips: ECMAScript WhiteSpace and LineTerminator. */
  predicate IsWhite(c: char)
  {
    || c == '\t' || c == '\n' || c == '\U{000B}' || c == '\U{000C}' || c == '\r'
    || c == ' ' || c == '\U{00A0}' || c == '\U{1680}'
    || ('\U{2000}' <= c <= '\U{200A}')
    || c == '\U{2028}' || c == '\U{2029}' || c == '\U{202F}' || c == '\U{205F}'
    || c == '\U{3000}' || c == '\U{FEFF}'
  }

  /** A string that is empty or made only of whitespace. */
  predicate IsBlank(s: string)
  {
    forall i :: 0 <= i < |s| ==> IsWhite(s[i])
  }

  /** Drops the whitespace prefix: what is left is a suffix of `s` that starts with a non-white character. */
  function TrimStart(s: string): (r: string)
    ensures |r| <= |s| && r == s[|s| - |r|..]
    ensures forall i :: 0 <= i < |s| - |r| ==> IsWhite(s[i])
    ensures r != [] ==> !IsWhite(r[0])
  {
    if s != [] && IsWhite(s[0]) then TrimStart(s[1..]) else s
  }

  /** Drops the whitespace suffix: what is left is a prefix of `s` that ends with a non-white character. */
  function TrimEnd(s: string): (r: string)
    ensures |r| <= |s| && r == s[..|r|]
    ensures forall i :: |r| <= i < |s| ==> IsWhite(s[i])
    ensures r != [] ==> !IsWhite(r[|r| - 1])
  {
    if s != [] && IsWhite(s[|s| - 1]) then TrimEnd(s[..|s| - 1]) else s
  }

  /** How many whitespace characters `trim()` removes from the front of `s`. */
  function Lead(s: string): (n: nat)
    ensures n <= |s|
  {
    |s| - |TrimStart(s)|
  }

  /**
   * `s.trim()`: the slice of `s` that starts after its whitespace prefix and
   * ends before its whitespace suffix; it neither starts nor ends with
   * whitespace.
   */
  function Trim(s: string): (r: string)
    ensures Lead(s) + |r| <= |s| && r == s[Lead(s)..Lead(s) + |r|]
    ensures forall i :: 0 <= i < Lead(s) ==> IsWhite(s[i])
    ensures forall i :: Lead(s) + |r| <= i < |s| ==> IsWhite(s[i])
    ensures r != [] ==> !IsWhite(r[0]) && !IsWhite(r[|r| - 1])
  {
    var t := TrimStart(s);
    var r := TrimEnd(t);
    assert Lead(s) == |s| - |t|;
    TrimSlices(s, t, r);
    r
  }

  lemma TrimSlices(s: string, t: string, r: string)
    requires |t| <= |s| && t == s[|s| - |t|..]
    requires |r| <= |t| && r == t[..|r|]
    requires forall i :: |r| <= i < |t| ==> IsWhite(t[i])
    ensures |s| - |t| + |r| <= |s| && r == s[|s| - |t|..|s| - |t| + |r|]
    ensures forall i :: |s| - |t| + |r| <= i < |s| ==> IsWhite(s[i])
  {
    var a := |s| - |t|;
    forall i | a + |r| <= i < |s|
      ensures IsWhite(s[i])
    {
      assert s[i] == t[i - a];
    }
  }

  /** `!s.trim()` holds exactly when `s` is blank. */
  lemma {:induction false} BlankIffTrimEmpty(s: string)
    ensures IsBlank(s) <==> Trim(s) == ""
  {
    var t := TrimStart(s);
    if IsBlank(s) {
      BlankTrimStart(s);
    } else {
      var i :| 0 <= i < |s| && !IsWhite(s[i]);
      assert |s| - |t| <= i;
      assert t[i - (|s| - |t|)] == s[i];
      assert !IsBlank(t);
    }
  }

  lemma {:induction false} BlankTrimStart(s: string)
    requires IsBlank(s)
    ensures TrimStart(s) == ""
  {
    if s != [] {
      BlankTrimStart(s[1..]);
    }
  }

  /** `toUpperCase` on one character: ASCII letters are mapped, every other character is kept. */
  function ToUpper(c: char): (u: char)
    ensures 'a' <= c <= 'z' ==> 'A' <= u <= 'Z' && u as int - 'A' as int == c as int - 'a' as int
    ensures !('a' <= c <= 'z') ==> u == c
  {
    if 'a' <= c <= 'z' then (c as int - 'a' as int + 'A' as int) as char else c
  }

  /** Case mapping never turns a visible character into whitespace. */
  lemma ToUpperKeepsNonWhite(c: char)
    requires !IsWhite(c)
    ensures !IsWhite(ToUpper(c))
  {
  }
}
