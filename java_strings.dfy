/** The parts of java.lang.String and java.lang.Character that the
    validation code relies on. Java's UTF-16 code units are modelled as Dafny
    characters; every comparison used here is against characters of the
    Basic Multilingual Plane, where the two agree. */
module JavaStrings {
  import opened Wrappers

  /** A Java String reference: None is null. */
  type JString = Option<string>

  /** String.trim() strips every character whose code is at most U+0020. */
  predicate IsTrimmable(c: char) {
    c <= ' '
  }

  /** The suffix left after String.trim() skips leading trimmable characters. */
  function TrimStart(s: string): (r: string)
    ensures |r| <= |s| && r == s[|s| - |r|..]
    ensures forall i :: 0 <= i < |s| - |r| ==> IsTrimmable(s[i])
    ensures r != [] ==> !IsTrimmable(r[0])
  {
    if s != [] && IsTrimmable(s[0]) then TrimStart(s[1..]) else s
  }

  /** The prefix left after String.trim() drops trailing trimmable characters. */
  function TrimEnd(s: string): (r: string)
    ensures |r| <= |s| && r == s[..|r|]
    ensures forall i :: |r| <= i < |s| ==> IsTrimmable(s[i])
    ensures r != [] ==> !IsTrimmable(r[|r| - 1])
  {
    if s != [] && IsTrimmable(s[|s| - 1]) then TrimEnd(s[..|s| - 1]) else s
  }

  /** String.trim(): leading trimmable characters first, then trailing ones. */
  function Trim(s: string): (r: string)
  {
    TrimEnd(TrimStart(s))
  }

  /** `s == null || s.trim().isEmpty()`, the test used on email and password:
      null, or made only of characters up to U+0020. */
  predicate IsNullOrBlank(s: JString): (b: bool)
    ensures b <==> s.None? || forall i :: 0 <= i < |s.value| ==> IsTrimmable(s.value[i])
  {
    if s.None? then true
    else
      TrimEmptyIff(s.value);
      Trim(s.value) == ""
  }

  /** A string trims to "" exactly when every character in it is trimmable. */
  lemma TrimEmptyIff(s: string)
    ensures Trim(s) == "" <==> forall i :: 0 <= i < |s| ==> IsTrimmable(s[i])
  {
    var t := TrimStart(s);
    if t != "" {
      assert !IsTrimmable(t[0]);
      assert s[|s| - |t|] == t[0];
    }
  }

  /** Character.isWhitespace: the space, line and paragraph separators except
      the three no-break spaces, plus U+0009..U+000D and U+001C..U+001F. */
  predicate IsJavaWhitespace(c: char) {
    || '\U{0009}' <= c <= '\U{000D}'
    || '\U{001C}' <= c <= '\U{0020}'
    || c == '\U{1680}'
    || '\U{2000}' <= c <= '\U{2006}'
    || '\U{2008}' <= c <= '\U{200A}'
    || c == '\U{2028}' || c == '\U{2029}' || c == '\U{205F}' || c == '\U{3000}'
  }

  /** The "has text" test of the token parser: non-null and holding a
      character that is not whitespace. */
  predicate HasText(s: JString) {
    s.Some? && exists i :: 0 <= i < |s.value| && !IsJavaWhitespace(s.value[i])
  }
}
