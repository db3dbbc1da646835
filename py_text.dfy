/**
 * The Python string operations the signal pipeline relies on: `str.find`,
 * `str.rfind`, slicing, the `in` substring test, `str.upper`, `str.lower` and
 * `str.capitalize`. Case mapping is modelled on ASCII letters only.
 */
module PyText {

  /** `s.find(c)` for a one-character needle: the first index of `c`, or -1. */
  function Find(s: string, c: char): (i: int)
    ensures -1 <= i < |s|
    ensures i == -1 <==> c !in s
    ensures 0 <= i ==> s[i] == c && c !in s[..i]
  {
    if s == [] then -1
    else if s[0] == c then 0
    else
      var j := Find(s[1..], c);
      assert s == [s[0]] + s[1..];
      if j == -1 then -1
      else
        assert s[..j + 1] == [s[0]] + s[1..][..j];
        j + 1
  }

  /** `s.rfind(c)` for a one-character needle: the last index of `c`, or -1. */
  function RFind(s: string, c: char): (i: int)
    ensures -1 <= i < |s|
    ensures i == -1 <==> c !in s
    ensures 0 <= i ==> s[i] == c && c !in s[i + 1..]
  {
    if s == [] then -1
    else if s[|s| - 1] == c then |s| - 1
    else
      var init := s[..|s| - 1];
      var j := RFind(init, c);
      assert s == init + [s[|s| - 1]];
      if j == -1 then -1
      else
        assert s[j + 1..] == init[j + 1..] + [s[|s| - 1]];
        j
  }

  /** Python's `s[lo:hi]` for indices inside the string: empty when `hi <= lo`. */
  function Slice(s: string, lo: nat, hi: nat): (r: string)
    requires lo <= |s| && hi <= |s|
    ensures lo < hi ==> r == s[lo..hi]
    ensures hi <= lo ==> r == []
  {
    if lo < hi then s[lo..hi] else []
  }

  /** `sub` occurs in `s` starting at index `i`. */
  predicate OccursAt(s: string, sub: string, i: int) {
    0 <= i <= |s| - |sub| && s[i..i + |sub|] == sub
  }

  /** Python's `sub in s` on strings: `sub` occurs as a contiguous piece of `s`. */
  function Contains(s: string, sub: string): (r: bool)
    ensures r <==> exists i :: OccursAt(s, sub, i)
    decreases |s|
  {
    if |s| < |sub| then false
    else if s[..|sub|] == sub then
      assert OccursAt(s, sub, 0);
      true
    else
      var r' := Contains(s[1..], sub);
      if r' then
        var i :| OccursAt(s[1..], sub, i);
        assert OccursAt(s, sub, i + 1);
        true
      else
        assert forall i :: OccursAt(s, sub, i) ==> i > 0 && OccursAt(s[1..], sub, i - 1);
        false
  }

  function UpperChar(c: char): char {
    if 'a' <= c <= 'z' then (c as int - 32) as char else c
  }

  function LowerChar(c: char): char {
    if 'A' <= c <= 'Z' then (c as int + 32) as char else c
  }

  /** `s.upper()`, for ASCII letters. */
  function Upper(s: string): (r: string)
    ensures |r| == |s|
    ensures forall i :: 0 <= i < |s| ==> r[i] == UpperChar(s[i])
  {
    seq(|s|, i requires 0 <= i < |s| => UpperChar(s[i]))
  }

  /** `s.lower()`, for ASCII letters. */
  function Lower(s: string): (r: string)
    ensures |r| == |s|
    ensures forall i :: 0 <= i < |s| ==> r[i] == LowerChar(s[i])
  {
    seq(|s|, i requires 0 <= i < |s| => LowerChar(s[i]))
  }

  /** `s.capitalize()`: the first character upper-cased, the rest lower-cased (ASCII letters). */
  function Capitalize(s: string): (r: string)
    ensures |r| == |s|
    ensures |s| > 0 ==> r[0] == UpperChar(s[0])
    ensures forall i :: 0 < i < |s| ==> r[i] == LowerChar(s[i])
  {
    if s == [] then [] else [UpperChar(s[0])] + Lower(s[1..])
  }

  /** A word spelled as `capitalize()` leaves it: one upper-case ASCII letter, then lower-case ones. */
  predicate IsCapitalizedWord(w: string) {
    && |w| > 0
    && 'A' <= w[0] <= 'Z'
    && forall i :: 0 < i < |w| ==> 'a' <= w[i] <= 'z'
  }

  /**
   * Comparing `s.capitalize()` with a capitalized word is a case-insensitive
   * comparison: it succeeds for exactly the spellings of the word in any casing.
   */
  lemma {:induction false} CapitalizeMatchesIgnoringCase(s: string, w: string)
    requires IsCapitalizedWord(w)
    ensures Capitalize(s) == w <==> Lower(s) == Lower(w)
  {
    if Capitalize(s) == w {
      forall i | 0 <= i < |s| ensures Lower(s)[i] == Lower(w)[i] {
        if i == 0 {
          UpperCharMatch(s[0], w[0]);
        }
      }
    }
    if Lower(s) == Lower(w) {
      forall i | 0 <= i < |s| ensures Capitalize(s)[i] == w[i] {
        assert Lower(s)[i] == Lower(w)[i];
        if i == 0 {
          UpperCharMatch(s[0], w[0]);
        }
      }
    }
  }

  /** For an upper-case letter `c`, `a.upper() == c` exactly when `a.lower() == c.lower()`. */
  lemma UpperCharMatch(a: char, c: char)
    requires 'A' <= c <= 'Z'
    ensures UpperChar(a) == c <==> LowerChar(a) == LowerChar(c)
  {
  }
}
