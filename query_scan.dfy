/**
 * Two ways of reading a query text back: the numbers of its positional
 * placeholders (`$1`, `$2`, ...) in the order they appear, and how often a
 * keyword occurs in it.
 */
module QueryScan {
  import opened Decimal

  /**
   * The numbers written after each `$` of `s`, left to right. A `$` followed
   * by no digit reads as 0.
   */
  function Placeholders(s: string): seq<nat>
    decreases |s|
  {
    if s == [] then []
    else if s[0] == '$' then
      var d := DigitRun(s[1..]);
      [ParseNat(d)] + Placeholders(s[1 + |d|..])
    else Placeholders(s[1..])
  }

  /** How many times `w` occurs in `s`, overlapping occurrences included. */
  function Occurrences(s: string, w: string): nat
    decreases |s|
  {
    if s == [] then 0 else (if w <= s then 1 else 0) + Occurrences(s[1..], w)
  }

  /** Text without a `$` adds no placeholder. */
  lemma {:induction false} PlaceholdersSkip(s: string, t: string)
    requires '$' !in s
    ensures Placeholders(s + t) == Placeholders(t)
  {
    if s != [] {
      assert (s + t)[1..] == s[1..] + t;
      PlaceholdersSkip(s[1..], t);
    } else {
      assert s + t == t;
    }
  }

  /** A `$` followed by a run of digits, then by a non-digit or nothing, reads as the number those digits spell. */
  lemma PlaceholdersAt(d: string, t: string)
    requires AllDigits(d)
    requires t == [] || !IsDigit(t[0])
    ensures Placeholders("$" + (d + t)) == [ParseNat(d)] + Placeholders(t)
  {
    var s := "$" + (d + t);
    assert s[1..] == d + t;
    DigitRunStopsAtNonDigit(d, t);
    assert s[1 + |d|..] == t;
  }

  /** `$n`, followed by anything that does not start with a digit, reads as the placeholder `n`. */
  lemma PlaceholdersMarker(n: nat, t: string)
    requires t == [] || !IsDigit(t[0])
    ensures Placeholders("$" + (NatText(n) + t)) == [n] + Placeholders(t)
  {
    PlaceholdersAt(NatText(n), t);
    ParseNatText(n);
  }

  /** Text without a `$` holds no placeholder. */
  lemma PlaceholdersNone(s: string)
    requires '$' !in s
    ensures Placeholders(s) == []
  {
    assert s + [] == s;
    PlaceholdersSkip(s, []);
  }

  /** Text without the first letter of `w` holds no occurrence of `w`, even one running on into what follows. */
  lemma {:induction false} OccurrencesSkip(s: string, t: string, w: string)
    requires w != [] && w[0] !in s
    ensures Occurrences(s + t, w) == Occurrences(t, w)
  {
    if s != [] {
      assert !(w <= s + t) by {
        assert (s + t)[0] == s[0];
      }
      assert (s + t)[1..] == s[1..] + t;
      OccurrencesSkip(s[1..], t, w);
    } else {
      assert s + t == t;
    }
  }

  /** Text without the first letter of `w` holds no occurrence of `w`. */
  lemma OccurrencesNone(s: string, w: string)
    requires w != [] && w[0] !in s
    ensures Occurrences(s, w) == 0
  {
    assert s + [] == s;
    OccurrencesSkip(s, [], w);
  }

  /** A word whose first letter does not recur in it occurs once at the head of `w + t`. */
  lemma OccurrencesWord(w: string, t: string)
    requires w != [] && w[0] !in w[1..]
    ensures Occurrences(w + t, w) == 1 + Occurrences(t, w)
  {
    assert w <= w + t;
    assert (w + t)[1..] == w[1..] + t;
    OccurrencesSkip(w[1..], t, w);
  }
}
