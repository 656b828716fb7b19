/** Substring search and counting as Python's `w in s` and `s.count(w)` do
    them, and `" ".join(verses)`. */
module Substrings {

  /** w occurs in s starting at position p. */
  predicate OccursAt(s: string, w: string, p: int) {
    0 <= p && p + |w| <= |s| && s[p..p + |w|] == w
  }

  /** `w in s`; the empty string occurs in every string. */
  predicate Contains(s: string, w: string) {
    exists p :: 0 <= p <= |s| - |w| && OccursAt(s, w, p)
  }

  /** `s.count(w)`: the occurrences of w found scanning s from the left, each
      search resuming right after the previous match. For the empty w Python
      answers `len(s) + 1`. */
  function Count(s: string, w: string): (r: nat)
    ensures |w| > 0 ==> r * |w| <= |s|
    decreases |s|
  {
    if |w| == 0 then |s| + 1
    else if |s| < |w| then 0
    else if s[..|w|] == w then
      var c := Count(s[|w|..], w);
      assert (1 + c) * |w| == |w| + c * |w|;
      1 + c
    else Count(s[1..], w)
  }

  /** P lists occurrences of w in s in increasing order, no two overlapping. */
  predicate NonOverlapping(s: string, w: string, P: seq<int>) {
    (forall i :: 0 <= i < |P| ==> OccursAt(s, w, P[i])) &&
    (forall i, j :: 0 <= i < j < |P| ==> P[i] + |w| <= P[j])
  }

  function Shift(P: seq<int>, d: int): (Q: seq<int>)
    ensures |Q| == |P| && forall i :: 0 <= i < |P| ==> Q[i] == P[i] + d
  {
    seq(|P|, i requires 0 <= i < |P| => P[i] + d)
  }

  lemma OccursInSuffix(s: string, w: string, d: nat, p: int)
    requires d <= |s|
    ensures OccursAt(s[d..], w, p) <==> (0 <= p && OccursAt(s, w, p + d))
  {
    if 0 <= p && p + |w| <= |s| - d {
      assert s[d..][p..p + |w|] == s[p + d..p + d + |w|];
    }
  }

  lemma OccursInPrefix(a: string, b: string, w: string, p: int)
    requires OccursAt(a, w, p)
    ensures OccursAt(a + b, w, p)
  {
    assert (a + b)[p..p + |w|] == a[p..p + |w|];
  }

  /** Occurrences found in a suffix of s are occurrences in s, moved right by
      the length of what was cut off. */
  lemma NonOverlappingInSuffix(s: string, w: string, d: nat, P: seq<int>)
    requires d <= |s| && NonOverlapping(s[d..], w, P)
    ensures NonOverlapping(s, w, Shift(P, d))
    ensures forall i :: 0 <= i < |P| ==> d <= Shift(P, d)[i]
  {
    forall i | 0 <= i < |P| ensures OccursAt(s, w, P[i] + d) {
      OccursInSuffix(s, w, d, P[i]);
    }
  }

  /** The positions `str.count` matches, in order. */
  function Occurrences(s: string, w: string): (P: seq<int>)
    requires |w| > 0
    ensures NonOverlapping(s, w, P)
    ensures |P| == Count(s, w)
    decreases |s|
  {
    if |s| < |w| then []
    else if s[..|w|] == w then
      var rest := Occurrences(s[|w|..], w);
      NonOverlappingInSuffix(s, w, |w|, rest);
      assert OccursAt(s, w, 0);
      [0] + Shift(rest, |w|)
    else
      var rest := Occurrences(s[1..], w);
      NonOverlappingInSuffix(s, w, 1, rest);
      Shift(rest, 1)
  }

  /** No list of non-overlapping occurrences is longer than `Count`: the
      left-to-right scan finds as many occurrences as can be found at all. */
  lemma {:induction false} CountIsMaximal(s: string, w: string, P: seq<int>)
    requires |w| > 0 && NonOverlapping(s, w, P)
    ensures |P| <= Count(s, w)
    decreases |s|
  {
    if |P| > 0 {
      assert OccursAt(s, w, P[0]);
      if s[..|w|] == w {
        var tail := P[1..];
        assert forall i :: 0 <= i < |tail| ==> tail[i] == P[i + 1] && P[0] + |w| <= P[i + 1];
        NonOverlappingFromSuffix(s, w, |w|, tail);
        CountIsMaximal(s[|w|..], w, Shift(tail, -|w|));
      } else {
        assert s[0..0 + |w|] == s[..|w|];
        assert !OccursAt(s, w, 0);
        assert forall i :: 0 < i < |P| ==> P[0] + |w| <= P[i];
        NonOverlappingFromSuffix(s, w, 1, P);
        CountIsMaximal(s[1..], w, Shift(P, -1));
      }
    }
  }

  /** Occurrences that all lie at or after position d are occurrences in the
      suffix of s from d, moved left by d. */
  lemma NonOverlappingFromSuffix(s: string, w: string, d: nat, P: seq<int>)
    requires d <= |s| && NonOverlapping(s, w, P)
    requires forall i :: 0 <= i < |P| ==> d <= P[i]
    ensures NonOverlapping(s[d..], w, Shift(P, -(d as int)))
  {
    var Q := Shift(P, -(d as int));
    forall i | 0 <= i < |Q| ensures OccursAt(s[d..], w, Q[i]) {
      OccursInSuffix(s, w, d, Q[i]);
    }
  }

  /** For a non-empty word, `s.count(w)` is zero exactly when `w not in s`. */
  lemma CountZeroIff(s: string, w: string)
    requires |w| > 0
    ensures Count(s, w) == 0 <==> !Contains(s, w)
  {
    if Contains(s, w) {
      var p :| OccursAt(s, w, p);
      CountIsMaximal(s, w, [p]);
    }
    if Count(s, w) > 0 {
      var P := Occurrences(s, w);
      assert OccursAt(s, w, P[0]);
    }
  }

  /** `w in s` holds exactly when w is empty or `s.count(w)` finds it. */
  lemma ContainsByCount(s: string, w: string)
    ensures Contains(s, w) <==> (|w| == 0 || Count(s, w) > 0)
  {
    if |w| == 0 {
      assert OccursAt(s, w, 0);
    } else {
      CountZeroIff(s, w);
    }
  }

  /** Counting in a concatenation finds at least the occurrences of both
      parts, and possibly more that straddle the seam. */
  lemma CountConcat(a: string, b: string, w: string)
    requires |w| > 0
    ensures Count(a, w) + Count(b, w) <= Count(a + b, w)
  {
    var Pa := Occurrences(a, w);
    var Pb := Occurrences(b, w);
    assert (a + b)[|a|..] == b;
    NonOverlappingInSuffix(a + b, w, |a|, Pb);
    var P := Pa + Shift(Pb, |a|);
    forall i | 0 <= i < |Pa| ensures OccursAt(a + b, w, Pa[i]) {
      OccursInPrefix(a, b, w, Pa[i]);
    }
    assert NonOverlapping(a + b, w, P);
    CountIsMaximal(a + b, w, P);
  }

  /** The summed lengths of the verses. */
  function Lengths(verses: seq<string>): nat {
    if |verses| == 0 then 0 else |verses[0]| + Lengths(verses[1..])
  }

  /** `" ".join(verses)`: the verses in order, one space between neighbours. */
  function Join(verses: seq<string>): (r: string)
    ensures |verses| > 0 ==> |r| == Lengths(verses) + |verses| - 1
    ensures |verses| > 0 ==> r[..|verses[0]|] == verses[0]
  {
    if |verses| == 0 then ""
    else if |verses| == 1 then verses[0]
    else verses[0] + " " + Join(verses[1..])
  }

  /** The occurrences of w counted verse by verse. */
  function CountEach(verses: seq<string>, w: string): nat {
    if |verses| == 0 then 0 else Count(verses[0], w) + CountEach(verses[1..], w)
  }

  /** Counting in the joined verses finds every occurrence inside a verse,
      and may find more that span the space between two verses. */
  lemma {:induction false} JoinCountsEachVerse(verses: seq<string>, w: string)
    requires |w| > 0
    ensures CountEach(verses, w) <= Count(Join(verses), w)
  {
    if |verses| == 1 {
      assert CountEach(verses, w) == Count(verses[0], w) + CountEach([], w);
    } else if |verses| > 1 {
      JoinCountsEachVerse(verses[1..], w);
      CountConcat(verses[0] + " ", Join(verses[1..]), w);
      CountConcat(verses[0], " ", w);
    }
  }

  /** A word inside one of the verses is found in the joined verses. */
  lemma ContainsInJoin(verses: seq<string>, i: nat, w: string)
    requires i < |verses| && Contains(verses[i], w)
    ensures Contains(Join(verses), w)
  {
    if |w| == 0 {
      assert OccursAt(Join(verses), w, 0);
    } else {
      CountZeroIff(verses[i], w);
      CountEachPositive(verses, i, w);
      JoinCountsEachVerse(verses, w);
      CountZeroIff(Join(verses), w);
    }
  }

  lemma {:induction false} CountEachPositive(verses: seq<string>, i: nat, w: string)
    requires i < |verses| && Count(verses[i], w) > 0
    ensures CountEach(verses, w) > 0
  {
    if i > 0 {
      CountEachPositive(verses[1..], i - 1, w);
    }
  }
}
