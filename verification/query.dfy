/**
 * Listing expenses: an optional category filter followed by an optional
 * inclusive date-range filter, each an order-preserving `filter` over the
 * ledger.
 */
module Query {
  import opened Wrappers
  import opened Expenses
  import opened Dates

  /** `s.filter(keep)`: the elements of `s` that satisfy `keep`, in their original order. */
  function Filter(s: seq<Expense>, keep: Expense -> bool): (r: seq<Expense>)
    ensures |r| <= |s|
    ensures forall e :: e in r <==> e in s && keep(e)
    decreases |s|
  {
    if s == [] then []
    else
      var last := s[|s| - 1];
      assert s == s[..|s| - 1] + [last];
      Filter(s[..|s| - 1], keep) + (if keep(last) then [last] else [])
  }

  /** The date-range test: not before `startDate` and not after `endDate`, each only when given. */
  predicate InRange(e: Expense, startDate: Option<string>, endDate: Option<string>) {
    (!Given(startDate) || DateLe(startDate.value, e.date)) &&
    (!Given(endDate) || DateLe(e.date, endDate.value))
  }

  /** Whether a record satisfies every given filter. */
  predicate Matches(e: Expense, category: Option<string>, startDate: Option<string>, endDate: Option<string>) {
    (!Given(category) || e.category == category.value) && InRange(e, startDate, endDate)
  }

  /** Matches as a test to filter by. */
  function Matcher(category: Option<string>, startDate: Option<string>, endDate: Option<string>): Expense -> bool {
    e => Matches(e, category, startDate, endDate)
  }

  /**
   * GET /expenses: filter by category when given, then by date range when
   * either bound is given. The result holds exactly the ledger's records
   * that satisfy every given filter.
   */
  function Find(s: seq<Expense>, category: Option<string>, startDate: Option<string>, endDate: Option<string>): (r: seq<Expense>)
    ensures |r| <= |s|
    ensures forall e :: e in r <==> e in s && Matches(e, category, startDate, endDate)
  {
    var byCategory := if Given(category) then var c := category.value; Filter(s, (e: Expense) => e.category == c) else s;
    if Given(startDate) || Given(endDate) then Filter(byCategory, e => InRange(e, startDate, endDate))
    else byCategory
  }

  /** Filtering twice is filtering once by both tests. */
  lemma {:induction false} FilterTwice(s: seq<Expense>, p: Expense -> bool, q: Expense -> bool, both: Expense -> bool)
    requires forall e :: both(e) == (p(e) && q(e))
    ensures Filter(Filter(s, p), q) == Filter(s, both)
    decreases |s|
  {
    if s != [] {
      var n := |s| - 1;
      var x := s[n];
      FilterTwice(s[..n], p, q, both);
      var inner := Filter(s[..n], p);
      assert Filter(s, both) == Filter(s[..n], both) + (if both(x) then [x] else []);
      if p(x) {
        assert Filter(s, p) == inner + [x];
        assert (inner + [x])[..|inner|] == inner;
        assert Filter(inner + [x], q) == Filter(inner, q) + (if q(x) then [x] else []);
      } else {
        assert Filter(s, p) == inner + [];
        assert inner + [] == inner;
      }
    }
  }

  /** A test that every element passes keeps the whole sequence. */
  lemma {:induction false} FilterKeepsAll(s: seq<Expense>, keep: Expense -> bool)
    requires forall e :: e in s ==> keep(e)
    ensures Filter(s, keep) == s
    decreases |s|
  {
    if s != [] {
      var n := |s| - 1;
      FilterKeepsAll(s[..n], keep);
      assert s == s[..n] + [s[n]];
    }
  }

  /**
   * The two chained filters are one conjunctive filter: the result is the
   * ledger's records that satisfy every given filter, in ledger order.
   */
  lemma {:induction false} FindIsOneFilter(s: seq<Expense>, category: Option<string>, startDate: Option<string>, endDate: Option<string>)
    ensures Find(s, category, startDate, endDate) == Filter(s, Matcher(category, startDate, endDate))
  {
    var all := Matcher(category, startDate, endDate);
    var range := (e: Expense) => InRange(e, startDate, endDate);
    var dated := Given(startDate) || Given(endDate);
    if Given(category) {
      var c := category.value;
      var byCategory := (e: Expense) => e.category == c;
      if dated {
        FilterTwice(s, byCategory, range, all);
      } else {
        FilterTwice(s, byCategory, (e: Expense) => true, all);
        FilterKeepsAll(Filter(s, byCategory), (e: Expense) => true);
      }
    } else {
      if dated {
        FilterTwice(s, (e: Expense) => true, range, all);
        FilterKeepsAll(s, (e: Expense) => true);
      } else {
        FilterKeepsAll(s, all);
      }
    }
  }

  /** With no filter given the whole ledger comes back. */
  lemma {:induction false} FindNoFilter(s: seq<Expense>, category: Option<string>, startDate: Option<string>, endDate: Option<string>)
    requires !Given(category) && !Given(startDate) && !Given(endDate)
    ensures Find(s, category, startDate, endDate) == s
  {
  }

  /** Ids rise strictly along the sequence. */
  predicate IncreasingIds(s: seq<Expense>) {
    forall i, j :: 0 <= i < j < |s| ==> s[i].id < s[j].id
  }

  lemma {:induction false} FilterKeepsIncreasingIds(s: seq<Expense>, keep: Expense -> bool)
    requires IncreasingIds(s)
    ensures IncreasingIds(Filter(s, keep))
    decreases |s|
  {
    if s != [] {
      var n := |s| - 1;
      assert IncreasingIds(s[..n]);
      FilterKeepsIncreasingIds(s[..n], keep);
      var r := Filter(s[..n], keep);
      forall i | 0 <= i < |r| ensures r[i].id < s[n].id {
        assert r[i] in s[..n];
      }
    }
  }

  /**
   * `r` is an order-preserving selection from ledger `s`: each of its
   * records is the ledger's record at index id - 1, and ids rise along `r`.
   */
  predicate SelectsInOrder(r: seq<Expense>, s: seq<Expense>) {
    IncreasingIds(r) && forall j :: 0 <= j < |r| ==> 1 <= r[j].id <= |s| && r[j] == s[r[j].id - 1]
  }

  /** On a well-formed ledger a filter picks records out by index: record j of the result is the ledger's record id - 1. */
  lemma {:induction false} FilterSelects(s: seq<Expense>, keep: Expense -> bool)
    requires WellFormed(s)
    ensures SelectsInOrder(Filter(s, keep), s)
  {
    FilterKeepsIncreasingIds(s, keep);
    var r := Filter(s, keep);
    forall j | 0 <= j < |r| ensures 1 <= r[j].id <= |s| && r[j] == s[r[j].id - 1] {
      assert r[j] in s;
      var i :| 0 <= i < |s| && s[i] == r[j];
    }
  }

  /** On a well-formed ledger the result of a query is an order-preserving selection from it. */
  lemma {:induction false} FindPreservesOrder(s: seq<Expense>, category: Option<string>, startDate: Option<string>, endDate: Option<string>)
    requires WellFormed(s)
    ensures SelectsInOrder(Find(s, category, startDate, endDate), s)
  {
    FindIsOneFilter(s, category, startDate, endDate);
    FilterSelects(s, Matcher(category, startDate, endDate));
  }
}
