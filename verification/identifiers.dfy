/** Identifier derivation: `to_pascal_case`, which turns a snake_case table
    name into the struct name of the generated code. */
module Identifiers {
  import opened Ascii

  /** Splits `s` at every `sep` (Rust's `str::split` on a char): always at
      least one piece, empty pieces kept, `""` gives `[""]`. */
  function SplitOn(s: string, sep: char): (r: seq<string>)
    ensures |r| >= 1
    ensures forall i :: 0 <= i < |r| ==> sep !in r[i]
  {
    if |s| == 0 then [""]
    else if s[0] == sep then [""] + SplitOn(s[1..], sep)
    else
      var rest := SplitOn(s[1..], sep);
      [[s[0]] + rest[0]] + rest[1..]
  }

  /** Joins pieces with `sep` between neighbours; the inverse of `SplitOn`. */
  function JoinWith(parts: seq<string>, sep: char): string
    requires |parts| >= 1
  {
    if |parts| == 1 then parts[0] else parts[0] + [sep] + JoinWith(parts[1..], sep)
  }

  /** Splitting and re-joining gives back the original text, so no character is lost. */
  lemma {:induction false} SplitJoinRoundTrip(s: string, sep: char)
    ensures JoinWith(SplitOn(s, sep), sep) == s
  {
    if |s| == 0 {
    } else if s[0] == sep {
      SplitJoinRoundTrip(s[1..], sep);
      assert s == [sep] + s[1..];
    } else {
      SplitJoinRoundTrip(s[1..], sep);
      var rest := SplitOn(s[1..], sep);
      if |rest| == 1 {
        assert s == [s[0]] + s[1..];
      } else {
        assert rest == [rest[0]] + rest[1..];
        assert s == [s[0]] + s[1..];
      }
    }
  }

  /** Keeps the non-empty pieces, in order (the `filter(|part| !part.is_empty())` step). */
  function NonEmpty(parts: seq<string>): seq<string>
  {
    if |parts| == 0 then []
    else if |parts[0]| == 0 then NonEmpty(parts[1..])
    else [parts[0]] + NonEmpty(parts[1..])
  }

  /** Upper-cases the first character of a piece and keeps the rest unchanged. */
  function Capitalize(part: string): (r: string)
    ensures |r| == |part|
    ensures |part| > 0 ==> r[0] == UpperChar(part[0]) && r[1..] == part[1..]
  {
    if |part| == 0 then "" else [UpperChar(part[0])] + part[1..]
  }

  /** Capitalizes every piece and concatenates them (the `map(..).collect::<String>()` step). */
  function ConcatCapitalized(parts: seq<string>): string {
    if |parts| == 0 then "" else Capitalize(parts[0]) + ConcatCapitalized(parts[1..])
  }

  /** `to_pascal_case`: split on `_`, drop empty segments, capitalize each, concatenate. */
  function ToPascalCase(s: string): string {
    ConcatCapitalized(NonEmpty(SplitOn(s, '_')))
  }

  /** A one-pass reference definition of PascalCase: drop every `_`, and
      upper-case a character exactly when it starts a segment (it comes first
      or right after a `_`). */
  function PascalScan(s: string, atStart: bool): (r: string)
    ensures '_' !in r
    ensures |r| <= |s|
  {
    if |s| == 0 then ""
    else if s[0] == '_' then PascalScan(s[1..], true)
    else [if atStart then UpperChar(s[0]) else s[0]] + PascalScan(s[1..], false)
  }

  /** The scan from a segment start renders the same text as `ToPascalCase`. */
  predicate ScanMatchesAtStart(t: string) {
    PascalScan(t, true) == ConcatCapitalized(NonEmpty(SplitOn(t, '_')))
  }

  /** The scan inside a segment copies the rest of that segment unchanged,
      then renders the later segments as `ToPascalCase` would. */
  predicate ScanMatchesInside(t: string) {
    var parts := SplitOn(t, '_');
    PascalScan(t, false) == parts[0] + ConcatCapitalized(NonEmpty(parts[1..]))
  }

  /** A leading `_` opens an empty segment, which is dropped. */
  lemma ScanUnderscoreStep(t: string)
    requires |t| > 0 && t[0] == '_'
    requires ScanMatchesAtStart(t[1..])
    ensures ScanMatchesAtStart(t) && ScanMatchesInside(t)
  {
    var rest := SplitOn(t[1..], '_');
    assert SplitOn(t, '_') == [""] + rest;
    assert NonEmpty([""] + rest) == NonEmpty(rest);
    assert ([""] + rest)[1..] == rest;
  }

  /** A leading ordinary character joins the first segment of the rest. */
  lemma ScanCharStep(t: string)
    requires |t| > 0 && t[0] != '_'
    requires ScanMatchesInside(t[1..])
    ensures ScanMatchesAtStart(t) && ScanMatchesInside(t)
  {
    var rest := SplitOn(t[1..], '_');
    var head := [t[0]] + rest[0];
    assert SplitOn(t, '_') == [head] + rest[1..];
    ScanCharInside(t, rest, head);
    ScanCharAtStart(t, rest, head);
  }

  lemma ScanCharInside(t: string, rest: seq<string>, head: string)
    requires |t| > 0 && t[0] != '_' && rest == SplitOn(t[1..], '_') && head == [t[0]] + rest[0]
    requires SplitOn(t, '_') == [head] + rest[1..]
    requires ScanMatchesInside(t[1..])
    ensures ScanMatchesInside(t)
  {
    var tail := ConcatCapitalized(NonEmpty(rest[1..]));
    var parts := SplitOn(t, '_');
    assert parts[0] == head && parts[1..] == rest[1..];
    assert PascalScan(t, false) == [t[0]] + PascalScan(t[1..], false);
    assert PascalScan(t[1..], false) == rest[0] + tail;
    ConsAssoc(t[0], rest[0], tail);
  }

  lemma ConsAssoc(c: char, a: string, b: string)
    ensures [c] + (a + b) == ([c] + a) + b
  {
  }

  lemma ScanCharAtStart(t: string, rest: seq<string>, head: string)
    requires |t| > 0 && t[0] != '_' && rest == SplitOn(t[1..], '_') && head == [t[0]] + rest[0]
    requires SplitOn(t, '_') == [head] + rest[1..]
    requires ScanMatchesInside(t[1..])
    ensures ScanMatchesAtStart(t)
  {
    var tail := ConcatCapitalized(NonEmpty(rest[1..]));
    var parts := SplitOn(t, '_');
    assert parts[0] == head && parts[1..] == rest[1..];
    assert head[1..] == rest[0];
    calc {
      PascalScan(t, true);
      [UpperChar(t[0])] + PascalScan(t[1..], false);
      [UpperChar(t[0])] + (rest[0] + tail);
      { CapitalizeCons(t[0], rest[0], tail); }
      Capitalize(head) + tail;
      ConcatCapitalized([head] + NonEmpty(rest[1..]));
      ConcatCapitalized(NonEmpty(parts));
    }
  }

  lemma CapitalizeCons(c: char, a: string, b: string)
    ensures Capitalize([c] + a) + b == [UpperChar(c)] + (a + b)
  {
    assert ([c] + a)[1..] == a;
  }

  /** Both views agree on every suffix, by induction on the text. */
  lemma {:induction false} PascalScanSplit(t: string)
    ensures ScanMatchesAtStart(t) && ScanMatchesInside(t)
    decreases |t|
  {
    if |t| == 0 {
    } else if t[0] == '_' {
      PascalScanSplit(t[1..]);
      ScanUnderscoreStep(t);
    } else {
      PascalScanSplit(t[1..]);
      ScanCharStep(t);
    }
  }

  /** `ToPascalCase` agrees with the one-pass reference definition on every input. */
  lemma ToPascalCaseMatchesScan(s: string)
    ensures ToPascalCase(s) == PascalScan(s, true)
  {
    PascalScanSplit(s);
  }

  /** An `_` starts a new segment whatever came before it, so the scan of a
      text joined at an `_` is the scans of the two sides. */
  lemma {:induction false} ScanUnderscoreSplit(a: string, b: string, atStart: bool)
    ensures PascalScan(a + ("_" + b), atStart) == PascalScan(a, atStart) + PascalScan(b, true)
    decreases |a|
  {
    if |a| == 0 {
      assert a + ("_" + b) == "_" + b;
      assert ("_" + b)[1..] == b;
    } else {
      var t := a + ("_" + b);
      assert t[0] == a[0] && t[1..] == a[1..] + ("_" + b);
      if a[0] == '_' {
        ScanUnderscoreSplit(a[1..], b, true);
      } else {
        ScanUnderscoreSplit(a[1..], b, false);
      }
    }
  }

  /** Names joined by `_` convert piece by piece: the struct name of
      `a_b` is the struct name of `a` followed by that of `b`. */
  lemma ToPascalCaseJoin(a: string, b: string)
    ensures ToPascalCase(a + "_" + b) == ToPascalCase(a) + ToPascalCase(b)
  {
    assert a + "_" + b == a + ("_" + b);
    ToPascalCaseMatchesScan(a + "_" + b);
    ToPascalCaseMatchesScan(a);
    ToPascalCaseMatchesScan(b);
    ScanUnderscoreSplit(a, b, true);
  }

  /** The struct name never contains `_`, is never longer than the table
      name, and the empty name stays empty. */
  lemma ToPascalCaseShape(s: string)
    ensures '_' !in ToPascalCase(s)
    ensures |ToPascalCase(s)| <= |s|
    ensures s == "" ==> ToPascalCase(s) == ""
  {
    ToPascalCaseMatchesScan(s);
  }
}
