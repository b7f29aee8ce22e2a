/** The bounded-memory package-name normaliser refines the obvious unbounded one. */
module PackageName {

  const MAXIMUM_LENGTH := 214
  const FALLBACK := "agenc-project"

  predicate Allowed(c: char) {
    'a' <= c <= 'z' || '0' <= c <= '9' || c == '-' || c == '.' || c == '_' || c == '~'
  }

  /** Allowed, but not in first position. */
  predicate NotFirst(c: char) {
    c == '-' || c == '.' || c == '_'
  }

  // ---------------------------------------------------------------- the simple normaliser

  /** Drop everything before the first character a name may start with. */
  function DropPrefix(s: string): (r: string) {
    if s == "" then ""
    else if Allowed(s[0]) && !NotFirst(s[0]) then s
    else DropPrefix(s[1..])
  }

  /** Replace each maximal run of disallowed characters by one hyphen. */
  function Collapse(s: string, inRun: bool): (r: string) {
    if s == "" then ""
    else if Allowed(s[0]) then [s[0]] + Collapse(s[1..], false)
    else if inRun then Collapse(s[1..], true)
    else "-" + Collapse(s[1..], true)
  }

  function StripHyphens(s: string): (r: string) {
    if s != "" && s[|s| - 1] == '-' then StripHyphens(s[..|s| - 1]) else s
  }

  function Truncate(s: string): (r: string) {
    if |s| > MAXIMUM_LENGTH then s[..MAXIMUM_LENGTH] else s
  }

  function Fallback(s: string): (r: string) {
    if s == "" then FALLBACK else s
  }

  /** Build the whole normalised string, strip every trailing hyphen, truncate, and fall back. */
  function Normalised(lower: string): (r: string) {
    Fallback(Truncate(StripHyphens(Collapse(DropPrefix(lower), false))))
  }

  // ---------------------------------------------------------------- the simple normaliser, one character later

  /** Does the run at the end of `s` already have its hyphen? */
  predicate EndsInRun(s: string, inRun: bool) {
    if s == "" then inRun else !Allowed(s[|s| - 1])
  }

  lemma {:induction false} CollapseSnoc(s: string, c: char, inRun: bool)
    ensures Collapse(s + [c], inRun) ==
            Collapse(s, inRun) + (if Allowed(c) then [c] else if EndsInRun(s, inRun) then "" else "-")
  {
    if s == "" {
      assert s + [c] == [c];
    } else {
      assert (s + [c])[1..] == s[1..] + [c];
      CollapseSnoc(s[1..], c, !Allowed(s[0]));
    }
  }

  lemma {:induction false} DropPrefixSnoc(s: string, c: char)
    ensures DropPrefix(s + [c]) ==
            if DropPrefix(s) != "" then DropPrefix(s) + [c]
            else if Allowed(c) && !NotFirst(c) then [c] else ""
  {
    if s == "" {
      assert s + [c] == [c];
    } else {
      assert (s + [c])[1..] == s[1..] + [c];
      DropPrefixSnoc(s[1..], c);
    }
  }

  lemma {:induction false} DropPrefixEnd(s: string)
    ensures DropPrefix(s) != "" ==> s != "" && DropPrefix(s)[|DropPrefix(s)| - 1] == s[|s| - 1]
  {
    if s != "" && !(Allowed(s[0]) && !NotFirst(s[0])) {
      DropPrefixEnd(s[1..]);
    }
  }

  lemma StripSnoc(s: string, c: char)
    ensures StripHyphens(s + [c]) == if c == '-' then StripHyphens(s) else s + [c]
  {
    assert (s + [c])[..|s + [c]| - 1] == s;
  }

  lemma {:induction false} StripIsPrefix(s: string)
    ensures |StripHyphens(s)| <= |s| && StripHyphens(s) == s[..|StripHyphens(s)|]
    ensures StripHyphens(s) != "" ==> StripHyphens(s)[|StripHyphens(s)| - 1] != '-'
  {
    if s != "" && s[|s| - 1] == '-' {
      StripIsPrefix(s[..|s| - 1]);
    }
  }

  // ---------------------------------------------------------------- the streaming normaliser

  /** The variables of the loop, against the unbounded string `full` they stand for. */
  ghost predicate Tracks(full: string, cleaned: string, normalizedLength: nat, lastNonHyphenEnd: nat) {
    && cleaned == Truncate(full)
    && normalizedLength == |full|
    && lastNonHyphenEnd == |StripHyphens(full)|
  }

  method Append(ghost full: string, cleaned: string, normalizedLength: nat, lastNonHyphenEnd: nat, c: char)
      returns (cleaned': string, normalizedLength': nat, lastNonHyphenEnd': nat)
    requires Tracks(full, cleaned, normalizedLength, lastNonHyphenEnd)
    ensures Tracks(full + [c], cleaned', normalizedLength', lastNonHyphenEnd')
  {
    cleaned', normalizedLength', lastNonHyphenEnd' := cleaned, normalizedLength, lastNonHyphenEnd;
    if |cleaned| < MAXIMUM_LENGTH { cleaned' := cleaned + [c]; }
    normalizedLength' := normalizedLength + 1;
    if c != '-' { lastNonHyphenEnd' := normalizedLength'; }
    StripSnoc(full, c);
  }

  /** `npmPackageName` on a lower-cased name, keeping at most 214 characters in memory. */
  method NpmPackageName(lower: string) returns (name: string)
    ensures name == Normalised(lower)
  {
    var cleaned := "";
    var normalizedLength: nat, lastNonHyphenEnd: nat := 0, 0;
    var started, pendingSeparator := false, false;
    ghost var full := "";
    for i := 0 to |lower|
      invariant Tracks(full, cleaned, normalizedLength, lastNonHyphenEnd)
      invariant |cleaned| <= MAXIMUM_LENGTH
      invariant started <==> DropPrefix(lower[..i]) != ""
      invariant pendingSeparator <==> started && !Allowed(lower[i - 1])
      invariant Collapse(DropPrefix(lower[..i]), false) == full + if pendingSeparator then "-" else ""
    {
      var c := lower[i];
      ghost var before := DropPrefix(lower[..i]);
      assert lower[..i + 1] == lower[..i] + [c];
      DropPrefixSnoc(lower[..i], c);
      DropPrefixEnd(lower[..i]);
      CollapseSnoc(before, c, false);
      if !Allowed(c) {
        if started { pendingSeparator := true; }
        continue;
      }
      if !started && NotFirst(c) { continue; }
      if pendingSeparator {
        cleaned, normalizedLength, lastNonHyphenEnd := Append(full, cleaned, normalizedLength, lastNonHyphenEnd, '-');
        full := full + "-";
      }
      pendingSeparator := false;
      started := true;
      cleaned, normalizedLength, lastNonHyphenEnd := Append(full, cleaned, normalizedLength, lastNonHyphenEnd, c);
      full := full + [c];
    }
    assert lower[..|lower|] == lower;
    StripIsPrefix(full);
    assert StripHyphens(Collapse(DropPrefix(lower), false)) == StripHyphens(full) by {
      if pendingSeparator { StripSnoc(full, '-'); } else { assert full + "" == full; }
    }
    assert Truncate(full[..lastNonHyphenEnd]) ==
           cleaned[..if lastNonHyphenEnd < MAXIMUM_LENGTH then lastNonHyphenEnd else MAXIMUM_LENGTH];
    cleaned := cleaned[..if lastNonHyphenEnd < MAXIMUM_LENGTH then lastNonHyphenEnd else MAXIMUM_LENGTH];
    name := if cleaned == "" then FALLBACK else cleaned;
  }

  // ---------------------------------------------------------------- what a normalised name is

  predicate AllAllowed(s: string) {
    forall i :: 0 <= i < |s| ==> Allowed(s[i])
  }

  lemma {:induction false} CollapseAllowed(s: string, inRun: bool)
    ensures AllAllowed(Collapse(s, inRun))
    ensures AllAllowed(s) ==> Collapse(s, inRun) == s
  {
    if s != "" {
      CollapseAllowed(s[1..], !Allowed(s[0]));
    }
  }

  lemma {:induction false} DropPrefixStart(s: string)
    ensures DropPrefix(s) != "" ==> Allowed(DropPrefix(s)[0]) && !NotFirst(DropPrefix(s)[0])
  {
    if s != "" && !(Allowed(s[0]) && !NotFirst(s[0])) {
      DropPrefixStart(s[1..]);
    }
  }

  /** Every result is a non-empty name of 1 to 214 allowed characters with an allowed first one. */
  lemma NormalisedShape(lower: string)
    ensures var r := Normalised(lower);
            0 < |r| <= MAXIMUM_LENGTH && AllAllowed(r) && !NotFirst(r[0])
  {
    DropPrefixStart(lower);
    CollapseAllowed(DropPrefix(lower), false);
    StripIsPrefix(Collapse(DropPrefix(lower), false));
  }

  /** Stripping precedes truncation, so normalising again changes a name exactly when truncation exposed a hyphen. */
  lemma NormalisingAgain(lower: string)
    ensures var r := Normalised(lower);
            Normalised(r) == r <==> r[|r| - 1] != '-'
  {
    var r := Normalised(lower);
    NormalisedShape(lower);
    CollapseAllowed(r, false);
    assert Collapse(DropPrefix(r), false) == r;
    if r[|r| - 1] == '-' {
      StripIsPrefix(r[..|r| - 1]);
      assert |StripHyphens(r)| < |r|;
      if StripHyphens(r) == "" {
        assert FALLBACK[|FALLBACK| - 1] == 't';
      }
    }
  }

  /** 213 letters, a hyphen and a letter: truncation ends the name in a hyphen. */
  lemma TruncationCanExposeAHyphen()
    ensures var lower := seq(213, _ => 'a') + "-a";
            Normalised(lower)[|Normalised(lower)| - 1] == '-' && Normalised(Normalised(lower)) != Normalised(lower)
  {
    var lower := seq(213, _ => 'a') + "-a";
    CollapseAllowed(lower, false);
    assert lower[0] == 'a' && lower[|lower| - 1] == 'a';
    assert Normalised(lower) == lower[..214];
    NormalisingAgain(lower);
  }
}
