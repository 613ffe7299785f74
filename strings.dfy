/**
 * The JavaScript string operations the core relies on: `toLowerCase` (ASCII letters only),
 * `includes` and `indexOf` of a single character.
 */
module Strings {

  /** Lower-cases one ASCII letter; every other character is left as it is. */
  function LowerChar(c: char): (d: char)
    ensures 'A' <= c <= 'Z' ==> 'a' <= d <= 'z' && d as int - c as int == 32
    ensures !('A' <= c <= 'Z') ==> d == c
  {
    if 'A' <= c <= 'Z' then (c as int + 32) as char else c
  }

  /** `s.toLowerCase()`, restricted to ASCII case mapping. */
  function ToLower(s: string): (t: string)
    ensures |t| == |s|
    ensures forall i :: 0 <= i < |s| ==> t[i] == LowerChar(s[i])
  {
    if s == [] then [] else [LowerChar(s[0])] + ToLower(s[1..])
  }

  /** A string without upper-case ASCII letters is its own lower-case form. */
  lemma ToLowerKeepsLowercase(s: string)
    requires forall i :: 0 <= i < |s| ==> !('A' <= s[i] <= 'Z')
    ensures ToLower(s) == s
  {
  }

  /** Two strings that differ at most in the case of ASCII letters. */
  predicate SameIgnoringCase(s: string, t: string)
  {
    |s| == |t| && forall i :: 0 <= i < |s| ==> LowerChar(s[i]) == LowerChar(t[i])
  }

  lemma ToLowerIgnoresCase(s: string, t: string)
    requires SameIgnoringCase(s, t)
    ensures ToLower(s) == ToLower(t)
  {
    var ls, lt := ToLower(s), ToLower(t);
    assert forall i :: 0 <= i < |ls| ==> ls[i] == lt[i];
  }

  /** `p` occurs in `s` starting at index `i`. */
  predicate OccursAt(s: string, p: string, i: nat)
  {
    i + |p| <= |s| && s[i..i + |p|] == p
  }

  /** `p` is a substring of `s`. */
  ghost predicate OccursIn(s: string, p: string)
  {
    exists i: nat :: OccursAt(s, p, i)
  }

  /** `s.includes(p)`: a search for `p` at every position of `s`, left to right. */
  predicate Includes(s: string, p: string)
    ensures Includes(s, p) ==> |p| <= |s|
    ensures p == [] ==> Includes(s, p)
    decreases |s|
  {
    p <= s || (|s| > 0 && Includes(s[1..], p))
  }

  /** `includes` finds exactly the substrings: `s.includes(p)` iff `p` occurs somewhere in `s`. */
  lemma {:induction false} IncludesIffOccurs(s: string, p: string)
    ensures Includes(s, p) <==> OccursIn(s, p)
    decreases |s|
  {
    if p <= s {
      assert OccursAt(s, p, 0);
    } else if |s| == 0 {
      assert !OccursAt(s, p, 0);
    } else {
      IncludesIffOccurs(s[1..], p);
      forall j: nat ensures OccursAt(s[1..], p, j) <==> OccursAt(s, p, j + 1) {
        if j + |p| <= |s[1..]| {
          assert s[1..][j..j + |p|] == s[j + 1..j + 1 + |p|];
        }
      }
      assert !OccursAt(s, p, 0);
      if exists i: nat :: OccursAt(s, p, i) {
        var i: nat :| OccursAt(s, p, i);
        assert OccursAt(s[1..], p, i - 1);
      }
    }
  }

  /** Every character of an included pattern occurs in the string. */
  lemma IncludedCharsOccur(s: string, p: string, k: nat)
    requires k < |p|
    ensures Includes(s, p) ==> p[k] in s
  {
    IncludesIffOccurs(s, p);
    if Includes(s, p) {
      var i: nat :| OccursAt(s, p, i);
      assert s[i..i + |p|][k] == s[i + k];
    }
  }

  /** An occurrence at a known position makes `includes` true. */
  lemma OccurrenceIncludes(s: string, p: string, i: nat)
    requires OccursAt(s, p, i)
    ensures Includes(s, p)
  {
    IncludesIffOccurs(s, p);
  }

  /**
   * `s.indexOf(c)`: the index of the first `c` in `s`, or -1 when `s` holds no `c`.
   */
  function IndexOf(s: string, c: char): (k: int)
    ensures -1 <= k < |s|
    ensures k == -1 <==> c !in s
    ensures 0 <= k ==> s[k] == c && c !in s[..k]
  {
    if s == [] then -1
    else if s[0] == c then 0
    else
      var k := IndexOf(s[1..], c);
      if k == -1 then -1
      else
        assert s[..k + 1] == [s[0]] + s[1..][..k];
        k + 1
  }

  /** The first `c` of `prefix + [c] + rest` is the one right after a `c`-free prefix. */
  lemma {:induction false} IndexOfAfterPrefix(prefix: string, c: char, rest: string)
    requires c !in prefix
    ensures IndexOf(prefix + [c] + rest, c) == |prefix|
  {
    var s := prefix + [c] + rest;
    assert s[|prefix|] == c;
    assert s[..|prefix|] == prefix;
  }
}
