/**
 * Calendar dates written as `YYYY-MM-DD` strings.
 *
 * The ledger compares dates by parsing them (`new Date(s)`), so a date is
 * modelled by ParseDate, which gives a calendar key for a well-formed date
 * and None (an invalid date, whose time value is NaN) for anything else.
 * The lemma DateLeIsStringOrder shows that on well-formed dates this
 * comparison is the same as comparing the strings character by character.
 */
module Dates {
  import opened Wrappers

  predicate IsDigit(c: char) { '0' <= c <= '9' }

  predicate AllDigits(s: string) { forall i :: 0 <= i < |s| ==> IsDigit(s[i]) }

  function DigitValue(c: char): (v: nat)
    requires IsDigit(c)
    ensures v <= 9
  {
    (c as int) - ('0' as int)
  }

  /** The number a string of decimal digits denotes, most significant digit first. */
  function Num(s: string): nat
    requires AllDigits(s)
    decreases |s|
  {
    if s == [] then 0 else 10 * Num(s[..|s| - 1]) + DigitValue(s[|s| - 1])
  }

  /** `YYYY-MM-DD` with a month in 1..12 and a day in 1..31. */
  predicate IsDate(s: string) {
    |s| == 10 && s[4] == '-' && s[7] == '-' &&
    AllDigits(s[..4]) && AllDigits(s[5..7]) && AllDigits(s[8..]) &&
    1 <= Num(s[5..7]) <= 12 && 1 <= Num(s[8..]) <= 31
  }

  /**
   * A number that orders well-formed dates as the calendar does: the year,
   * then the month, then the day.
   */
  function CalendarKey(s: string): nat
    requires IsDate(s)
  {
    10000 * Num(s[..4]) + 100 * Num(s[5..7]) + Num(s[8..])
  }

  /** `new Date(s)`: a point on the calendar, or None for an invalid date. */
  function ParseDate(s: string): (d: Option<nat>)
    ensures d.Some? <==> IsDate(s)
  {
    if IsDate(s) then Some(CalendarKey(s)) else None
  }

  /**
   * `new Date(a) <= new Date(b)`: false as soon as either side is invalid,
   * because every comparison with NaN is false.
   */
  predicate DateLe(a: string, b: string) {
    var da, db := ParseDate(a), ParseDate(b);
    da.Some? && db.Some? && da.value <= db.value
  }

  /**
   * Lexicographic comparison of two strings of the same length: -1, 0 or 1
   * as `a` comes before, equals or comes after `b`. The first position where
   * they differ decides, so the comparison of a prefix, when it is not 0,
   * is the result.
   */
  function Compare(a: string, b: string): (c: int)
    requires |a| == |b|
    ensures -1 <= c <= 1
    decreases |a|
  {
    if a == [] then 0
    else
      var c := Compare(a[..|a| - 1], b[..|b| - 1]);
      if c != 0 then c
      else if a[|a| - 1] < b[|b| - 1] then -1
      else if a[|a| - 1] == b[|b| - 1] then 0
      else 1
  }

  function Sign(x: int): int { if x < 0 then -1 else if x == 0 then 0 else 1 }

  /** Strings compare as 0 exactly when they are equal. */
  lemma {:induction false} CompareZero(a: string, b: string)
    requires |a| == |b|
    ensures Compare(a, b) == 0 <==> a == b
    decreases |a|
  {
    if a != [] {
      var n := |a| - 1;
      CompareZero(a[..n], b[..n]);
      assert a == a[..n] + [a[n]] && b == b[..n] + [b[n]];
    }
  }

  /** Comparing concatenations: the first parts decide unless they are equal. */
  lemma {:induction false} CompareAppend(p: string, q: string, x: string, y: string)
    requires |p| == |q| && |x| == |y|
    ensures Compare(p + x, q + y) == if Compare(p, q) != 0 then Compare(p, q) else Compare(x, y)
    decreases |x|
  {
    if x == [] {
      assert p + x == p && q + y == q;
    } else {
      var n := |x| - 1;
      CompareAppend(p, q, x[..n], y[..n]);
      assert (p + x)[..|p + x| - 1] == p + x[..n];
      assert (q + y)[..|q + y| - 1] == q + y[..n];
    }
  }

  /** On digit strings of one length, string order is numeric order. */
  lemma {:induction false} CompareDigits(a: string, b: string)
    requires |a| == |b| && AllDigits(a) && AllDigits(b)
    ensures Compare(a, b) == Sign(Num(a) - Num(b))
    decreases |a|
  {
    if a != [] {
      var n := |a| - 1;
      assert AllDigits(a[..n]) && AllDigits(b[..n]);
      CompareDigits(a[..n], b[..n]);
    }
  }

  /** A well-formed date split at its two dashes. */
  lemma {:induction false} DateParts(s: string)
    requires IsDate(s)
    ensures s == s[..4] + "-" + s[5..7] + "-" + s[8..]
  {
  }

  /**
   * For well-formed dates, comparing them on the calendar is comparing the
   * strings: `new Date(a) <= new Date(b)` exactly when `a` is not after `b`
   * in string order.
   */
  lemma {:induction false} DateLeIsStringOrder(a: string, b: string)
    requires IsDate(a) && IsDate(b)
    ensures DateLe(a, b) <==> Compare(a, b) <= 0
  {
    DateParts(a);
    DateParts(b);
    var ya, ma, da := a[..4], a[5..7], a[8..];
    var yb, mb, db := b[..4], b[5..7], b[8..];
    CompareAppend(ya + "-" + ma + "-", yb + "-" + mb + "-", da, db);
    CompareAppend(ya + "-" + ma, yb + "-" + mb, "-", "-");
    CompareAppend(ya + "-", yb + "-", ma, mb);
    CompareAppend(ya, yb, "-", "-");
    assert Compare("-", "-") == 0 by { CompareZero("-", "-"); }
    CompareDigits(ya, yb);
    CompareDigits(ma, mb);
    CompareDigits(da, db);
  }

  /** Two well-formed dates are each no later than the other exactly when they are the same string. */
  lemma {:induction false} SameDay(a: string, b: string)
    requires IsDate(a)
    ensures DateLe(a, b) && DateLe(b, a) <==> a == b
  {
    if IsDate(b) {
      DateLeIsStringOrder(a, b);
      DateLeIsStringOrder(b, a);
      CompareZero(a, b);
      CompareAntisymmetric(a, b);
    }
  }

  /** Distinct well-formed dates parse to distinct points on the calendar. */
  lemma {:induction false} ParseDateDistinct(a: string, b: string)
    requires IsDate(a) && IsDate(b)
    ensures ParseDate(a) == ParseDate(b) <==> a == b
  {
    if ParseDate(a) == ParseDate(b) {
      assert DateLe(a, b) && DateLe(b, a);
      SameDay(a, b);
    }
  }

  lemma {:induction false} CompareAntisymmetric(a: string, b: string)
    requires |a| == |b|
    ensures Compare(a, b) == -Compare(b, a)
    decreases |a|
  {
    if a != [] {
      CompareAntisymmetric(a[..|a| - 1], b[..|b| - 1]);
    }
  }
}
