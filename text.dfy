/**
 * The two string operations the vehicle search uses: `toLowerCase` and
 * `includes`. Lower-casing is modelled on ASCII letters only.
 */
module Text {

  /** ASCII lower-casing of one character; every other character is kept. */
  function LowerChar(c: char): char
  {
    if 'A' <= c <= 'Z' then (c as int + 32) as char else c
  }

  predicate IsUpper(c: char)
  {
    'A' <= c <= 'Z'
  }

  /**
   * `s.toLowerCase()`: same length, each capital becomes the letter 32 code
   * points later (its lower-case form), every other character is kept.
   */
  function Lower(s: string): (r: string)
    ensures |r| == |s|
    ensures forall i :: 0 <= i < |s| && IsUpper(s[i]) ==> r[i] == (s[i] as int + 32) as char
    ensures forall i :: 0 <= i < |s| && !IsUpper(s[i]) ==> r[i] == s[i]
    ensures forall i :: 0 <= i < |r| ==> !IsUpper(r[i])
  {
    seq(|s|, i requires 0 <= i < |s| => LowerChar(s[i]))
  }

  predicate IsPrefix(p: string, s: string)
  {
    |p| <= |s| && s[..|p|] == p
  }

  /**
   * `s.includes(needle)`, scanning the start positions from left to right:
   * a needle at the start is found, and a needle longer than `s` never is.
   */
  function Includes(s: string, needle: string): (b: bool)
    ensures IsPrefix(needle, s) ==> b
    ensures b ==> |needle| <= |s|
    decreases |s|
  {
    if IsPrefix(needle, s) then true
    else if |s| == 0 then false
    else Includes(s[1..], needle)
  }

  /** Reference meaning: `needle` occurs in `s` starting at position `i`. */
  ghost predicate OccursAt(s: string, needle: string, i: int)
  {
    0 <= i && i + |needle| <= |s| && s[i..i + |needle|] == needle
  }

  /** `Includes` holds exactly when the needle occurs somewhere in `s`. */
  lemma {:induction false} IncludesIffOccurs(s: string, needle: string)
    ensures Includes(s, needle) <==> exists i :: OccursAt(s, needle, i)
    decreases |s|
  {
    assert OccursAt(s, needle, 0) <==> IsPrefix(needle, s);
    if !IsPrefix(needle, s) && |s| > 0 {
      IncludesIffOccurs(s[1..], needle);
      forall j | OccursAt(s[1..], needle, j)
        ensures OccursAt(s, needle, j + 1)
      {
        assert s[1..][j..j + |needle|] == s[j + 1..j + 1 + |needle|];
      }
      forall i | OccursAt(s, needle, i)
        ensures OccursAt(s[1..], needle, i - 1)
      {
        assert s[1..][i - 1..i - 1 + |needle|] == s[i..i + |needle|];
      }
    }
  }

  /** The empty search string is found in every name. */
  lemma IncludesEmpty(s: string)
    ensures Includes(s, "")
  {
    assert IsPrefix("", s);
  }
}
