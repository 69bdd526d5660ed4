/** String helpers: `split(sep)[0]` and ISO 8601 timestamps. */
module Strings {

  /**
   * `s.split(sep)[0]` for a one-character separator: the part of `s` before
   * the first `sep`, or all of `s` when `sep` does not occur in it.
   */
  function PrefixBefore(s: string, sep: char): (p: string)
    ensures p <= s
    ensures sep !in p
    ensures |p| < |s| ==> s[|p|] == sep
  {
    if s == [] || s[0] == sep then [] else [s[0]] + PrefixBefore(s[1..], sep)
  }

  /** The three postconditions of PrefixBefore determine its result. */
  lemma {:induction false} PrefixBeforeUnique(s: string, sep: char, p: string)
    requires p <= s && sep !in p
    requires |p| < |s| ==> s[|p|] == sep
    ensures PrefixBefore(s, sep) == p
  {
    var q := PrefixBefore(s, sep);
    // a shorter one would stop at a `sep` inside the longer one
    assert |q| == |p|;
    assert q == s[..|q|] && p == s[..|p|];
  }

  predicate IsDigit(c: char) { '0' <= c <= '9' }

  /**
   * The shape of an ISO 8601 calendar date in extended format with a
   * four-digit year, YYYY-MM-DD: digits and two dashes. Month and day
   * ranges are not checked.
   */
  predicate IsCalendarDate(d: string)
  {
    |d| == 10 && d[4] == '-' && d[7] == '-' &&
    forall i :: 0 <= i < 10 && i != 4 && i != 7 ==> IsDigit(d[i])
  }

  /**
   * The shape of `Date.prototype.toISOString()` for years 0 through 9999:
   * a calendar date, the designator 'T', then the time of day.
   */
  predicate IsIsoTimestamp(s: string)
  {
    |s| > 10 && IsCalendarDate(s[..10]) && s[10] == 'T'
  }

  /** Splitting an ISO timestamp at its first 'T' gives back its calendar date. */
  lemma {:induction false} DateOfIsoTimestamp(s: string)
    requires IsIsoTimestamp(s)
    ensures PrefixBefore(s, 'T') == s[..10]
    ensures IsCalendarDate(PrefixBefore(s, 'T'))
  {
    var d := s[..10];
    forall i | 0 <= i < 10 ensures d[i] != 'T' {
      if i != 4 && i != 7 { assert IsDigit(d[i]); }
    }
    PrefixBeforeUnique(s, 'T', d);
  }
}
