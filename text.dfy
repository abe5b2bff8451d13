/** The .NET string operations the provider relies on:
    `string.IsNullOrWhiteSpace` and `string.Equals(_, StringComparison.OrdinalIgnoreCase)`. */
module Text {
  import opened Wrappers

  /** `char.IsWhiteSpace`: the Unicode space, line and paragraph separators,
      the control characters U+0009 to U+000D, and U+0085. */
  predicate IsWhiteSpace(c: char) {
    || ('\U{0009}' <= c <= '\U{000D}')
    || c == ' ' || c == '\U{0085}' || c == '\U{00A0}' || c == '\U{1680}'
    || ('\U{2000}' <= c <= '\U{200A}')
    || c == '\U{2028}' || c == '\U{2029}' || c == '\U{202F}' || c == '\U{205F}' || c == '\U{3000}'
  }

  /** The 25 white-space characters of .NET, listed one by one. */
  const WhiteSpaceChars: set<char> := {
    '\U{0009}', '\U{000A}', '\U{000B}', '\U{000C}', '\U{000D}',
    ' ', '\U{0085}', '\U{00A0}', '\U{1680}',
    '\U{2000}', '\U{2001}', '\U{2002}', '\U{2003}', '\U{2004}', '\U{2005}',
    '\U{2006}', '\U{2007}', '\U{2008}', '\U{2009}', '\U{200A}',
    '\U{2028}', '\U{2029}', '\U{202F}', '\U{205F}', '\U{3000}'}

  /** `IsWhiteSpace` holds of exactly the 25 listed characters: the control
      characters U+0009 to U+000D, U+0085, the space separators (category Zs),
      and the line and paragraph separators U+2028 and U+2029. */
  lemma WhiteSpaceIsListed(c: char)
    ensures IsWhiteSpace(c) <==> c in WhiteSpaceChars
  {
  }

  /** True when every character of `s` is white space, scanned from the front. */
  function AllWhiteSpace(s: string): (r: bool)
    ensures r <==> forall i :: 0 <= i < |s| ==> IsWhiteSpace(s[i])
  {
    if s == [] then true else IsWhiteSpace(s[0]) && AllWhiteSpace(s[1..])
  }

  /** `string.IsNullOrWhiteSpace`: null, empty, or white space only. */
  function IsNullOrWhiteSpace(s: Option<string>): (r: bool)
    ensures !r <==> s.Some? && exists i :: 0 <= i < |s.value| && !IsWhiteSpace(s.value[i])
  {
    match s
    case None => true
    case Some(t) => AllWhiteSpace(t)
  }

  /** The ordinal upper-case mapping, on the ASCII letters. */
  function ToUpperOrdinal(c: char): (u: char)
    ensures 'a' <= c <= 'z' ==> u as int == c as int - 32
    ensures !('a' <= c <= 'z') ==> u == c
  {
    if 'a' <= c <= 'z' then (c as int - 32) as char else c
  }

  /** `a.Equals(b, StringComparison.OrdinalIgnoreCase)`: same length and the same
      characters after upper-casing each one, compared pairwise from the front. */
  function EqualsOrdinalIgnoreCase(a: string, b: string): (r: bool)
    ensures r <==> |a| == |b| && forall i :: 0 <= i < |a| ==> ToUpperOrdinal(a[i]) == ToUpperOrdinal(b[i])
  {
    if |a| != |b| then false
    else if a == [] then true
    else ToUpperOrdinal(a[0]) == ToUpperOrdinal(b[0]) && EqualsOrdinalIgnoreCase(a[1..], b[1..])
  }

  /** Each character of the string is an upper-case ASCII letter. */
  predicate IsUpperAsciiWord(w: string) {
    forall i :: 0 <= i < |w| ==> 'A' <= w[i] <= 'Z'
  }

  /** The lower-case form of an upper-case ASCII letter. */
  function LowerOf(c: char): char
    requires 'A' <= c <= 'Z'
  {
    (c as int + 32) as char
  }

  /** Against an upper-case ASCII word, the ignore-case comparison accepts exactly
      the spellings that put each letter in either case, and nothing else. */
  lemma EqualsUpperWordSpellings(s: string, w: string)
    requires IsUpperAsciiWord(w)
    ensures EqualsOrdinalIgnoreCase(s, w) <==>
              |s| == |w| && forall i :: 0 <= i < |s| ==> s[i] == w[i] || s[i] == LowerOf(w[i])
  {
  }

  /** A string equal, ignoring case, to a word with a letter in it is never
      blank: the ignore-case test on a country code subsumes the blank test. */
  lemma EqualsWordIsNotBlank(s: string, w: string)
    requires IsUpperAsciiWord(w) && |w| > 0
    requires EqualsOrdinalIgnoreCase(s, w)
    ensures !IsNullOrWhiteSpace(Some(s))
  {
  }
}
