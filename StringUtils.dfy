/** StringUtils.cs: IsNullOrWhitespace, which is `string.IsNullOrEmpty(s) || s.Trim().Length == 0`.
    .NET's Trim removes leading and trailing characters for which char.IsWhiteSpace holds. */
module StringUtils {
  import opened Common

  /** char.IsWhiteSpace: the Unicode space, line and paragraph separators,
      U+0009..U+000D and U+0085. */
  predicate IsWhiteSpace(c: char) {
    ('\U{9}' <= c <= '\U{D}') || c == ' ' || c == '\U{85}' || c == '\U{A0}' || c == '\U{1680}'
    || ('\U{2000}' <= c <= '\U{200A}') || c == '\U{2028}' || c == '\U{2029}'
    || c == '\U{202F}' || c == '\U{205F}' || c == '\U{3000}'
  }

  /** Every character of `s` is white space. */
  predicate AllWhiteSpace(s: string) {
    forall i :: 0 <= i < |s| ==> IsWhiteSpace(s[i])
  }

  /** String.TrimStart(): drops the longest white-space prefix. */
  function TrimStart(s: string): (r: string)
    ensures |r| <= |s| && r == s[|s| - |r|..]
    ensures AllWhiteSpace(s[..|s| - |r|])
    ensures r != [] ==> !IsWhiteSpace(r[0])
  {
    if s != [] && IsWhiteSpace(s[0]) then TrimStart(s[1..]) else s
  }

  /** String.TrimEnd(): drops the longest white-space suffix. */
  function TrimEnd(s: string): (r: string)
    ensures |r| <= |s| && r == s[..|r|]
    ensures AllWhiteSpace(s[|r|..])
    ensures r != [] ==> !IsWhiteSpace(r[|r| - 1])
  {
    if s != [] && IsWhiteSpace(s[|s| - 1]) then
      var r := TrimEnd(s[..|s| - 1]);
      assert s[|r|..] == s[..|s| - 1][|r|..] + [s[|s| - 1]];
      r
    else
      s
  }

  /** String.Trim(). */
  function Trim(s: string): (r: string)
    ensures r == [] <==> AllWhiteSpace(s)
  {
    var t := TrimStart(s);
    assert t == [] || !IsWhiteSpace(t[0]);
    TrimEnd(t)
  }

  /** IsNullOrWhitespace: true exactly for null, the empty string and strings made
      only of white space; false as soon as one character is not white space. */
  function IsNullOrWhitespace(s: NullableString): (r: bool)
    ensures r <==> (s.None? || AllWhiteSpace(s.value))
    ensures s == None ==> r
    ensures s == Some("") ==> r
    ensures s.Some? && (exists i :: 0 <= i < |s.value| && !IsWhiteSpace(s.value[i])) ==> !r
  {
    s.None? || |s.value| == 0 || |Trim(s.value)| == 0
  }
}
