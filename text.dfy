/**
 * The Java string operations the core relies on, over strings of Unicode
 * scalar values: `trim`, `isBlank`, ASCII case mapping with `Locale.ROOT`,
 * and the two regular-expression clean-ups used to normalise phone numbers.
 */
module Text {

  import opened Wrappers

  /** One of the ASCII digits, the regular-expression class `[0-9]`. */
  predicate IsDigit(c: char) {
    '0' <= c <= '9'
  }

  predicate AllDigits(s: string) {
    forall i :: 0 <= i < |s| ==> IsDigit(s[i])
  }

  predicate NoDigits(s: string) {
    forall i :: 0 <= i < |s| ==> !IsDigit(s[i])
  }

  /** The characters `String.trim` strips from both ends: code points up to U+0020. */
  predicate IsTrimmable(c: char) {
    c <= ' '
  }

  /** Java's regular-expression class `\s` (no UNICODE_CHARACTER_CLASS): `[ \t\n\x0B\f\r]`. */
  predicate IsRegexSpace(c: char) {
    c == ' ' || '\t' <= c <= '\r'
  }

  /**
   * `Character.isWhitespace`: the Unicode space, line and paragraph separators
   * other than the non-breaking ones (U+00A0, U+2007, U+202F), and the
   * controls U+0009-U+000D and U+001C-U+001F.
   */
  predicate IsJavaWhitespace(c: char) {
    || '\t' <= c <= '\r'
    || '\U{1C}' <= c <= ' '
    || c == '\U{1680}'
    || '\U{2000}' <= c <= '\U{2006}'
    || '\U{2008}' <= c <= '\U{200A}'
    || c == '\U{2028}' || c == '\U{2029}'
    || c == '\U{205F}' || c == '\U{3000}'
  }

  /** `String.isBlank`: empty, or white space only. */
  predicate IsBlank(s: string) {
    forall i :: 0 <= i < |s| ==> IsJavaWhitespace(s[i])
  }

  /** A Java reference that is `null` or blank; `None` stands for `null`. */
  predicate NullOrBlank(s: Option<string>) {
    s.None? || IsBlank(s.value)
  }

  /** Drops the trimmable characters at the front. */
  function TrimStart(s: string): (r: string)
    ensures |r| <= |s|
    ensures r == [] || !IsTrimmable(r[0])
    ensures forall i :: 0 <= i < |s| - |r| ==> IsTrimmable(s[i])
  {
    if s != [] && IsTrimmable(s[0]) then TrimStart(s[1..]) else s
  }

  /** Drops the trimmable characters at the back. */
  function TrimEnd(s: string): (r: string)
    ensures |r| <= |s|
    ensures r == [] || !IsTrimmable(r[|r| - 1])
    ensures forall i :: |r| <= i < |s| ==> IsTrimmable(s[i])
  {
    if s != [] && IsTrimmable(s[|s| - 1]) then TrimEnd(s[..|s| - 1]) else s
  }

  /** What `TrimStart` keeps is a suffix of its input. */
  lemma {:induction false} TrimStartIsSuffix(s: string)
    ensures TrimStart(s) == s[|s| - |TrimStart(s)|..]
  {
    if s != [] && IsTrimmable(s[0]) {
      TrimStartIsSuffix(s[1..]);
    }
  }

  /** What `TrimEnd` keeps is a prefix of its input. */
  lemma {:induction false} TrimEndIsPrefix(s: string)
    ensures TrimEnd(s) == s[..|TrimEnd(s)|]
  {
    if s != [] && IsTrimmable(s[|s| - 1]) {
      TrimEndIsPrefix(s[..|s| - 1]);
    }
  }

  /** `String.trim`: drops the trimmable characters at both ends. */
  function Trim(s: string): string {
    TrimEnd(TrimStart(s))
  }

  /** A string with no trimmable character at either end is its own trim. */
  lemma TrimNoop(s: string)
    requires s == [] || (!IsTrimmable(s[0]) && !IsTrimmable(s[|s| - 1]))
    ensures Trim(s) == s
  {
    assert TrimStart(s) == s;
  }

  function LowerChar(c: char): char {
    if 'A' <= c <= 'Z' then (c as int - 'A' as int + 'a' as int) as char else c
  }

  /**
   * Besides the ASCII letters, the dotless i and the long s are the only
   * single characters Java upper-cases to an ASCII letter.
   */
  function UpperChar(c: char): char {
    if 'a' <= c <= 'z' then (c as int - 'a' as int + 'A' as int) as char
    else if c == '\U{131}' then 'I'
    else if c == '\U{17F}' then 'S'
    else c
  }

  /** `toLowerCase(Locale.ROOT)` on the ASCII letters; every other character is kept. */
  function ToLower(s: string): (r: string)
    ensures |r| == |s|
    ensures forall i :: 0 <= i < |s| ==> r[i] == LowerChar(s[i])
  {
    if s == [] then [] else [LowerChar(s[0])] + ToLower(s[1..])
  }

  /**
   * `toUpperCase(Locale.ROOT)` one character at a time. Java's expansions
   * into several letters (the sharp s to "SS", the ligatures to "FF", "FI",
   * "FL", "ST") are not modelled; none of those pairs occurs in the enum
   * names this model compares against.
   */
  function ToUpper(s: string): (r: string)
    ensures |r| == |s|
    ensures forall i :: 0 <= i < |s| ==> r[i] == UpperChar(s[i])
  {
    if s == [] then [] else [UpperChar(s[0])] + ToUpper(s[1..])
  }

  /** Lower-casing commutes with taking a prefix. */
  lemma ToLowerPrefix(s: string, n: nat)
    requires n <= |s|
    ensures ToLower(s)[..n] == ToLower(s[..n])
  {
  }

  /** Lower-casing distributes over concatenation. */
  lemma ToLowerAppend(a: string, b: string)
    ensures ToLower(a + b) == ToLower(a) + ToLower(b)
  {
    var ab := a + b;
    var l, la, lb := ToLower(ab), ToLower(a), ToLower(b);
    assert |l| == |la + lb|;
    forall i | 0 <= i < |a|
      ensures l[i] == (la + lb)[i]
    {
      assert ab[i] == a[i];
    }
    forall i | |a| <= i < |ab|
      ensures l[i] == (la + lb)[i]
    {
      assert ab[i] == b[i - |a|];
    }
  }

  /** A string without upper-case ASCII letters is its own lower-case form. */
  lemma ToLowerNoop(s: string)
    requires forall i :: 0 <= i < |s| ==> !('A' <= s[i] <= 'Z')
    ensures ToLower(s) == s
  {
  }

  /** A string every character of which is its own upper-case form is its own upper-case form. */
  lemma ToUpperNoop(s: string)
    requires forall i :: 0 <= i < |s| ==> UpperChar(s[i]) == s[i]
    ensures ToUpper(s) == s
  {
  }

  predicate StartsWith(s: string, prefix: string) {
    |prefix| <= |s| && s[..|prefix|] == prefix
  }

  predicate EndsWith(s: string, suffix: string) {
    |suffix| <= |s| && s[|s| - |suffix|..] == suffix
  }

  /** `replaceAll("[^0-9]", "")`: the digits of `s`, in order. */
  function KeepDigits(s: string): (r: string)
    ensures AllDigits(r) && |r| <= |s|
  {
    if s == [] then [] else (if IsDigit(s[0]) then [s[0]] else []) + KeepDigits(s[1..])
  }

  /** `replaceAll("\\s+", "")`: `s` without its regular-expression white space. */
  function RemoveRegexSpaces(s: string): (r: string)
    ensures forall i :: 0 <= i < |r| ==> !IsRegexSpace(r[i])
    ensures |r| <= |s|
  {
    if s == [] then [] else (if IsRegexSpace(s[0]) then [] else [s[0]]) + RemoveRegexSpaces(s[1..])
  }

  lemma {:induction false} KeepDigitsAppend(a: string, b: string)
    ensures KeepDigits(a + b) == KeepDigits(a) + KeepDigits(b)
  {
    if a == [] {
      assert a + b == b;
    } else {
      assert (a + b)[0] == a[0];
      assert (a + b)[1..] == a[1..] + b;
      KeepDigitsAppend(a[1..], b);
    }
  }

  lemma {:induction false} KeepDigitsOfNoDigits(s: string)
    requires NoDigits(s)
    ensures KeepDigits(s) == []
  {
    if s != [] {
      KeepDigitsOfNoDigits(s[1..]);
    }
  }

  lemma {:induction false} KeepDigitsOfDigits(s: string)
    requires AllDigits(s)
    ensures KeepDigits(s) == s
  {
    if s != [] {
      KeepDigitsOfDigits(s[1..]);
    }
  }

  /** Removing white space first does not change which digits remain. */
  lemma {:induction false} KeepDigitsIgnoresSpaces(s: string)
    ensures KeepDigits(RemoveRegexSpaces(s)) == KeepDigits(s)
  {
    if s != [] {
      var head := if IsRegexSpace(s[0]) then [] else [s[0]];
      KeepDigitsAppend(head, RemoveRegexSpaces(s[1..]));
      KeepDigitsIgnoresSpaces(s[1..]);
      if head != [] {
        assert head[1..] == [];
      }
    }
  }

  lemma {:induction false} KeepDigitsIgnoresTrimStart(s: string)
    ensures KeepDigits(TrimStart(s)) == KeepDigits(s)
  {
    if s != [] && IsTrimmable(s[0]) {
      KeepDigitsIgnoresTrimStart(s[1..]);
    }
  }

  lemma {:induction false} KeepDigitsIgnoresTrimEnd(s: string)
    ensures KeepDigits(TrimEnd(s)) == KeepDigits(s)
  {
    if s != [] && IsTrimmable(s[|s| - 1]) {
      var init, last := s[..|s| - 1], s[|s| - 1..];
      assert s == init + last;
      KeepDigitsAppend(init, last);
      KeepDigitsOfNoDigits(last);
      KeepDigitsIgnoresTrimEnd(init);
    }
  }

  /** Trimming first does not change which digits remain. */
  lemma KeepDigitsIgnoresTrim(s: string)
    ensures KeepDigits(Trim(s)) == KeepDigits(s)
  {
    KeepDigitsIgnoresTrimEnd(TrimStart(s));
    KeepDigitsIgnoresTrimStart(s);
  }
}
