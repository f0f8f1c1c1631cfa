/** Texts: characters, ends, stripping and searching, as Ruby, Python and JavaScript share them. */
module Texts {
  import opened Common

  predicate HexDigit(c: char) {
    '0' <= c <= '9' || 'a' <= c <= 'f'
  }

  /** `n` lower-case hexadecimal digits and nothing else. */
  predicate HexText(s: string, n: nat) {
    |s| == n && forall i :: 0 <= i < |s| ==> HexDigit(s[i])
  }

  predicate StartsWith(s: string, prefix: string) {
    |prefix| <= |s| && s[..|prefix|] == prefix
  }

  predicate EndsWith(s: string, suffix: string) {
    |suffix| <= |s| && s[|s| - |suffix|..] == suffix
  }

  predicate Blank(c: char) {
    c in {' ', '\t', '\r', '\n'} || c as int == 11 || c as int == 12
  }

  /** What `strip` removes: the blanks and the null character. */
  predicate Space(c: char) {
    Blank(c) || c as int == 0
  }

  predicate AllSpace(s: string) {
    forall i :: 0 <= i < |s| ==> Space(s[i])
  }

  function Strip(s: string): string {
    if s != "" && Space(s[0]) then Strip(s[1..])
    else if s != "" && Space(s[|s| - 1]) then Strip(s[..|s| - 1])
    else s
  }

  lemma SpaceIff(c: char)
    ensures Space(c) <==> c as int in {0, 9, 10, 11, 12, 13, 32}
  {
    assert ' ' as int == 32 && '\t' as int == 9 && '\r' as int == 13 && '\n' as int == 10;
  }

  lemma {:induction false} Stripped(s: string) returns (lead: string, trail: string)
    ensures s == lead + Strip(s) + trail && AllSpace(lead) && AllSpace(trail)
    ensures Strip(s) != "" ==> !Space(Strip(s)[0]) && !Space(Strip(s)[|Strip(s)| - 1])
    decreases |s|
  {
    hide Space;
    lead, trail := "", "";
    if s != "" && Space(s[0]) {
      lead, trail := Stripped(s[1..]);
      assert s == [s[0]] + s[1..];
      lead := [s[0]] + lead;
    } else if s != "" && Space(s[|s| - 1]) {
      lead, trail := Stripped(s[..|s| - 1]);
      assert s == s[..|s| - 1] + [s[|s| - 1]];
      trail := trail + [s[|s| - 1]];
    }
  }

  /** Stripping takes spaces and nulls off both ends, and all of them. */
  lemma StripIs(s: string) returns (lead: string, trail: string)
    ensures s == lead + Strip(s) + trail && AllSpace(lead) && AllSpace(trail)
    ensures forall i :: 0 <= i < |lead| ==> lead[i] as int in {0, 9, 10, 11, 12, 13, 32}
    ensures forall i :: 0 <= i < |trail| ==> trail[i] as int in {0, 9, 10, 11, 12, 13, 32}
    ensures Strip(s) != "" ==>
              Strip(s)[0] as int !in {0, 9, 10, 11, 12, 13, 32} &&
              Strip(s)[|Strip(s)| - 1] as int !in {0, 9, 10, 11, 12, 13, 32}
  {
    hide Space, Strip;
    lead, trail := Stripped(s);
    forall c ensures Space(c) <==> c as int in {0, 9, 10, 11, 12, 13, 32} { SpaceIff(c); }
  }

  predicate OccursAt(s: string, part: string, i: int) {
    0 <= i && i + |part| <= |s| && s[i..i + |part|] == part
  }

  /** The first place at or after `from` where the part occurs. */
  function FindFrom(s: string, part: string, from: nat): (r: Option<nat>)
    ensures r.Some? ==> from <= r.value <= |s| - |part|
    decreases |s| - from
  {
    if from + |part| > |s| then None
    else if OccursAt(s, part, from) then Some(from)
    else FindFrom(s, part, from + 1)
  }

  lemma {:induction false} FindFromIs(s: string, part: string, from: nat)
    ensures var r := FindFrom(s, part, from);
            && (r.Some? ==> OccursAt(s, part, r.value) && forall i :: from <= i < r.value ==> !OccursAt(s, part, i))
            && (r.None? ==> forall i :: from <= i ==> !OccursAt(s, part, i))
    decreases |s| - from
  {
    if from + |part| <= |s| && !OccursAt(s, part, from) { FindFromIs(s, part, from + 1); }
  }

  predicate Contains(s: string, part: string) {
    FindFrom(s, part, 0).Some?
  }
}
