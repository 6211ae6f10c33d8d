/** ASCII-only character and string helpers used by the type mapper and
    the identifier deriver. Characters outside `A`..`Z` / `a`..`z` are left
    unchanged by the case mappings. */
module Ascii {

  predicate IsUpper(c: char) { 'A' <= c <= 'Z' }

  predicate IsLower(c: char) { 'a' <= c <= 'z' }

  /** ASCII lower-case mapping of one character. */
  function LowerChar(c: char): (r: char)
    ensures !IsUpper(r)
    ensures IsUpper(c) ==> IsLower(r) && r as int == c as int + 32
    ensures !IsUpper(c) ==> r == c
  {
    if IsUpper(c) then (c as int + 32) as char else c
  }

  /** ASCII upper-case mapping of one character. */
  function UpperChar(c: char): (r: char)
    ensures !IsLower(r)
    ensures IsLower(c) ==> IsUpper(r) && LowerChar(r) == c
    ensures !IsLower(c) ==> r == c
  {
    if IsLower(c) then (c as int - 32) as char else c
  }

  /** Lower-cases every character of `s`, keeping its length. */
  function ToLower(s: string): (r: string)
    ensures |r| == |s|
    ensures forall i :: 0 <= i < |r| ==> !IsUpper(r[i])
    ensures forall i :: 0 <= i < |s| && !IsUpper(s[i]) ==> r[i] == s[i]
    ensures forall i :: 0 <= i < |s| && IsUpper(s[i]) ==> IsLower(r[i]) && UpperChar(r[i]) == s[i]
  {
    seq(|s|, i requires 0 <= i < |s| => LowerChar(s[i]))
  }

  /** Lower-casing a string twice is the same as lower-casing it once. */
  lemma ToLowerIdempotent(s: string)
    ensures ToLower(ToLower(s)) == ToLower(s)
  {
  }

  /** Character-by-character string equality; the same as `==` (see
      `SameTextIsEquality`), written so that comparing with a literal stops
      at the first differing character. */
  predicate SameText(s: string, t: string)
    decreases |s|
  {
    |s| == |t| && (|s| == 0 || (s[0] == t[0] && SameText(s[1..], t[1..])))
  }

  lemma {:induction false} SameTextIsEquality(s: string, t: string)
    ensures SameText(s, t) <==> s == t
    decreases |s|
  {
    if |s| > 0 && |s| == |t| {
      SameTextIsEquality(s[1..], t[1..]);
      assert s == [s[0]] + s[1..];
      assert t == [t[0]] + t[1..];
    }
  }

  /** `s` begins with `prefix`, compared character by character. */
  predicate StartsWith(s: string, prefix: string)
    decreases prefix
  {
    |prefix| == 0 || (|s| > 0 && s[0] == prefix[0] && StartsWith(s[1..], prefix[1..]))
  }

  /** `s` ends with `suffix`, compared character by character from the end. */
  predicate EndsWith(s: string, suffix: string)
    decreases suffix
  {
    |suffix| == 0
    || (|s| > 0 && s[|s| - 1] == suffix[|suffix| - 1] && EndsWith(s[..|s| - 1], suffix[..|suffix| - 1]))
  }

  /** Any text starts with itself followed by anything. */
  lemma {:induction false} StartsWithConcat(prefix: string, rest: string)
    ensures StartsWith(prefix + rest, prefix)
    decreases |prefix|
  {
    if |prefix| > 0 {
      StartsWithConcat(prefix[1..], rest);
      assert (prefix + rest)[1..] == prefix[1..] + rest;
    }
  }

  /** Any text ends with whatever was appended to it. */
  lemma {:induction false} EndsWithConcat(init: string, suffix: string)
    ensures EndsWith(init + suffix, suffix)
    decreases |suffix|
  {
    if |suffix| > 0 {
      EndsWithConcat(init, suffix[..|suffix| - 1]);
      assert (init + suffix)[..|init + suffix| - 1] == init + suffix[..|suffix| - 1];
    }
  }
}
