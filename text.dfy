/** Whitespace trimming as Rust's `str::trim` does it, and the blank-string test
    the user entry points apply to their payloads. */
module Text {

  /** Rust's `char::is_whitespace`: the characters with the Unicode White_Space property. */
  predicate IsWhitespace(c: char) {
    var n := c as int;
    || 0x09 <= n <= 0x0D
    || n == 0x20
    || n == 0x85
    || n == 0xA0
    || n == 0x1680
    || 0x2000 <= n <= 0x200A
    || n == 0x2028
    || n == 0x2029
    || n == 0x202F
    || n == 0x205F
    || n == 0x3000
  }

  /** Every character of `s` is whitespace (the empty string included). */
  predicate IsBlank(s: string) {
    forall i :: 0 <= i < |s| ==> IsWhitespace(s[i])
  }

  /** `s` without its leading whitespace: a suffix of `s`, preceded only by
      whitespace, that is empty or starts with a non-whitespace character. */
  function TrimStart(s: string): (r: string)
    ensures |r| <= |s| && r == s[|s| - |r|..]
    ensures IsBlank(s[..|s| - |r|])
    ensures r == [] || !IsWhitespace(r[0])
  {
    if s != [] && IsWhitespace(s[0]) then
      var r := TrimStart(s[1..]);
      assert s[1..][|s| - 1 - |r|..] == s[|s| - |r|..];
      assert IsBlank(s[..|s| - |r|]) by {
        forall i | 0 <= i < |s| - |r| ensures IsWhitespace(s[i]) {
          if i > 0 {
            assert s[i] == s[1..][..|s| - 1 - |r|][i - 1];
          }
        }
      }
      r
    else
      s
  }

  /** `s` without its trailing whitespace: a prefix of `s`, followed only by
      whitespace, that is empty or ends with a non-whitespace character. */
  function TrimEnd(s: string): (r: string)
    ensures |r| <= |s| && r == s[..|r|]
    ensures IsBlank(s[|r|..])
    ensures r == [] || !IsWhitespace(r[|r| - 1])
  {
    if s != [] && IsWhitespace(s[|s| - 1]) then
      var r := TrimEnd(s[..|s| - 1]);
      assert s[..|s| - 1][..|r|] == s[..|r|];
      assert IsBlank(s[|r|..]) by {
        forall i | |r| <= i < |s| ensures IsWhitespace(s[i]) {
          if i < |s| - 1 {
            assert s[i] == s[..|s| - 1][|r|..][i - |r|];
          }
        }
      }
      r
    else
      s
  }

  /** Rust's `str::trim`. */
  function Trim(s: string): string {
    TrimEnd(TrimStart(s))
  }

  /** `s.trim().is_empty()` holds exactly when `s` consists only of whitespace. */
  lemma TrimIsEmptyIffBlank(s: string)
    ensures Trim(s) == [] <==> IsBlank(s)
  {
    var t := TrimStart(s);
    assert t == [] || t[0] == s[|s| - |t|];
    if Trim(s) == [] {
      assert t[0..] == t;
      assert t == [];
      assert s[..|s|] == s;
    }
  }
}
