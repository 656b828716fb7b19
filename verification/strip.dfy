/** Removing a set of characters from both ends of a string, as Python's
    `str.strip(chars)` does; the set is given by its membership test. */
module Stripping {

  /** How many characters at the front of s satisfy excluded. */
  function LeadingCount(s: string, excluded: char -> bool): (n: nat)
    ensures n <= |s|
    ensures forall k :: 0 <= k < n ==> excluded(s[k])
    ensures n < |s| ==> !excluded(s[n])
  {
    if |s| > 0 && excluded(s[0]) then 1 + LeadingCount(s[1..], excluded) else 0
  }

  /** How many characters at the back of s satisfy excluded. */
  function TrailingCount(s: string, excluded: char -> bool): (n: nat)
    ensures n <= |s|
    ensures forall k :: |s| - n <= k < |s| ==> excluded(s[k])
    ensures n < |s| ==> !excluded(s[|s| - 1 - n])
  {
    if |s| > 0 && excluded(s[|s| - 1]) then 1 + TrailingCount(s[..|s| - 1], excluded) else 0
  }

  /** The leading run of removable characters ends exactly at the first
      character that is not removable. */
  lemma {:induction false} LeadingCountIs(s: string, excluded: char -> bool, a: nat)
    requires a <= |s|
    requires forall k :: 0 <= k < a ==> excluded(s[k])
    requires a == |s| || !excluded(s[a])
    ensures LeadingCount(s, excluded) == a
  {
    if a > 0 {
      assert excluded(s[0]);
      LeadingCountIs(s[1..], excluded, a - 1);
    }
  }

  /** The trailing run of removable characters starts right after the last
      character that is not removable. */
  lemma {:induction false} TrailingCountIs(s: string, excluded: char -> bool, a: nat)
    requires a <= |s|
    requires forall k :: |s| - a <= k < |s| ==> excluded(s[k])
    requires a == |s| || !excluded(s[|s| - 1 - a])
    ensures TrailingCount(s, excluded) == a
  {
    if a > 0 {
      assert excluded(s[|s| - 1]);
      var s' := s[..|s| - 1];
      assert forall k :: |s'| - (a - 1) <= k < |s'| ==> s'[k] == s[k];
      TrailingCountIs(s', excluded, a - 1);
    }
  }

  /** `s.strip(chars)`: what is left of s after the characters of the set
      are removed from both ends. */
  function Strip(s: string, excluded: char -> bool): (r: string)
    ensures |r| <= |s|
    ensures r == [] || (!excluded(r[0]) && !excluded(r[|r| - 1]))
  {
    var rest := s[LeadingCount(s, excluded)..];
    rest[..|rest| - TrailingCount(rest, excluded)]
  }

  /** The stripped string is a contiguous piece of s; everything before and
      after it is removable, and it neither starts nor ends with a removable
      character. */
  lemma StripShape(s: string, excluded: char -> bool)
    ensures LeadingCount(s, excluded) + |Strip(s, excluded)| <= |s|
    ensures Strip(s, excluded) == s[LeadingCount(s, excluded)..LeadingCount(s, excluded) + |Strip(s, excluded)|]
    ensures forall k :: 0 <= k < LeadingCount(s, excluded) ==> excluded(s[k])
    ensures forall k :: LeadingCount(s, excluded) + |Strip(s, excluded)| <= k < |s| ==> excluded(s[k])
    ensures Strip(s, excluded) == [] ||
      (!excluded(Strip(s, excluded)[0]) && !excluded(Strip(s, excluded)[|Strip(s, excluded)| - 1]))
  {
    var n := LeadingCount(s, excluded);
    var rest := s[n..];
    var t := TrailingCount(rest, excluded);
    var r := rest[..|rest| - t];
    assert r == Strip(s, excluded);
    assert r == s[n..n + |r|];
    forall k | n + |r| <= k < |s| ensures excluded(s[k]) {
      assert s[k] == rest[k - n];
    }
    if r != [] {
      assert r[0] == s[n];
      assert r[|r| - 1] == rest[|rest| - 1 - t];
    }
  }

  /** Strip is pinned down by its contract: whenever s is a removable prefix,
      a middle part and a removable suffix, and the middle part is empty or
      neither begins nor ends with a removable character, Strip returns exactly
      that middle part. Interior characters are never removed. */
  lemma StripUnique(p: string, m: string, q: string, excluded: char -> bool)
    requires forall k :: 0 <= k < |p| ==> excluded(p[k])
    requires forall k :: 0 <= k < |q| ==> excluded(q[k])
    requires m == [] || (!excluded(m[0]) && !excluded(m[|m| - 1]))
    ensures Strip(p + m + q, excluded) == m
  {
    var s := p + m + q;
    if m == [] {
      forall k | 0 <= k < |s| ensures excluded(s[k]) {
        if k < |p| { assert s[k] == p[k]; } else { assert s[k] == q[k - |p|]; }
      }
      LeadingCountIs(s, excluded, |s|);
    } else {
      assert forall k :: 0 <= k < |p| ==> s[k] == p[k];
      assert s[|p|] == m[0];
      LeadingCountIs(s, excluded, |p|);
      var rest := s[|p|..];
      assert rest == m + q;
      assert forall k :: |rest| - |q| <= k < |rest| ==> rest[k] == q[k - |m|];
      assert rest[|rest| - 1 - |q|] == m[|m| - 1];
      TrailingCountIs(rest, excluded, |q|);
      assert rest[..|rest| - |q|] == m;
    }
  }

  /** Stripping an already stripped string changes nothing. */
  lemma StripIdempotent(s: string, excluded: char -> bool)
    ensures Strip(Strip(s, excluded), excluded) == Strip(s, excluded)
  {
    var m := Strip(s, excluded);
    StripShape(s, excluded);
    StripUnique([], m, [], excluded);
    assert [] + m + [] == m;
  }
}
