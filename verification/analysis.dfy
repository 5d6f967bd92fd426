/**
 * The spending analysis and the daily summary: left folds over the ledger.
 *
 * The service accumulates per-category and per-month totals into plain
 * JavaScript objects, which keep their keys in insertion order. Such an
 * object is modelled as a sequence of entries with distinct keys: adding to
 * an existing key updates its entry in place, a new key is appended.
 */
module Analysis {
  import opened Wrappers
  import opened Expenses
  import opened Dates
  import opened Query

  /** `expenses.reduce((sum, e) => sum + e.amount, 0)`. */
  function Total(s: seq<Expense>): int
    decreases |s|
  {
    if s == [] then 0 else Total(s[..|s| - 1]) + s[|s| - 1].amount
  }

  /** The sum of the amounts of the records whose key is `k`. */
  function SumWhere(s: seq<Expense>, key: Expense -> string, k: string): int
    decreases |s|
  {
    if s == [] then 0
    else SumWhere(s[..|s| - 1], key, k) + (if key(s[|s| - 1]) == k then s[|s| - 1].amount else 0)
  }

  /** Whether some record of `s` has key `k`. */
  predicate Occurs(s: seq<Expense>, key: Expense -> string, k: string) {
    exists i :: 0 <= i < |s| && key(s[i]) == k
  }

  function CategoryOf(e: Expense): string { e.category }

  /** `e.date.slice(0, 7)`: the `YYYY-MM` part of a date, or the whole string when it is shorter. */
  function MonthKey(date: string): (m: string)
    ensures m <= date
    ensures |m| == if |date| >= 7 then 7 else |date|
  {
    if |date| >= 7 then date[..7] else date
  }

  function MonthOf(e: Expense): string { MonthKey(e.date) }

  function DateOf(e: Expense): string { e.date }

  /** One key of an accumulator object with its running total. */
  datatype Entry = Entry(key: string, total: int)

  /** The keys of an accumulator, in order. */
  function Keys(t: seq<Entry>): (ks: seq<string>)
    ensures |ks| == |t| && forall i :: 0 <= i < |t| ==> ks[i] == t[i].key
    decreases |t|
  {
    if t == [] then [] else [t[0].key] + Keys(t[1..])
  }

  predicate Distinct(ks: seq<string>) {
    forall i, j :: 0 <= i < j < |ks| ==> ks[i] != ks[j]
  }

  /** `acc[k]`: the total stored under `k`, if any. */
  function Get(t: seq<Entry>, k: string): Option<int>
    decreases |t|
  {
    if t == [] then None else if t[0].key == k then Some(t[0].total) else Get(t[1..], k)
  }

  /** `acc[k] || 0`. */
  function ValueOr0(t: seq<Entry>, k: string): int {
    var v := Get(t, k);
    if v.Some? then v.value else 0
  }

  /** The sum of all stored totals. */
  function SumTotals(t: seq<Entry>): int
    decreases |t|
  {
    if t == [] then 0 else t[0].total + SumTotals(t[1..])
  }

  /** `acc[k] = (acc[k] || 0) + amount`: an existing key keeps its place, a new key goes last. */
  function Bump(t: seq<Entry>, k: string, amount: int): seq<Entry>
    decreases |t|
  {
    if t == [] then [Entry(k, amount)]
    else if t[0].key == k then [Entry(k, t[0].total + amount)] + t[1..]
    else [t[0]] + Bump(t[1..], k, amount)
  }

  /** `expenses.reduce((acc, e) => { acc[key(e)] = (acc[key(e)] || 0) + e.amount; return acc; }, {})`. */
  function Tally(s: seq<Expense>, key: Expense -> string): seq<Entry>
    decreases |s|
  {
    if s == [] then [] else Bump(Tally(s[..|s| - 1], key), key(s[|s| - 1]), s[|s| - 1].amount)
  }

  /** `categoryTotals`. */
  function CategoryTotals(s: seq<Expense>): seq<Entry> { Tally(s, CategoryOf) }

  /** `monthlyTotals`. */
  function MonthlyTotals(s: seq<Expense>): seq<Entry> { Tally(s, MonthOf) }

  /** Places `x` after every entry whose total is at least its own. */
  function Insert(x: Entry, sorted: seq<Entry>): (r: seq<Entry>)
    ensures |r| == |sorted| + 1
    ensures multiset(r) == multiset(sorted) + multiset{x}
    ensures r[0] == x || (sorted != [] && r[0] == sorted[0])
    decreases |sorted|
  {
    if sorted == [] then [x]
    else if x.total > sorted[0].total then [x] + sorted
    else
      assert sorted == [sorted[0]] + sorted[1..];
      [sorted[0]] + Insert(x, sorted[1..])
  }

  /** Each entry's total is at most the one before it. */
  predicate Descending(t: seq<Entry>) {
    forall i :: 0 < i < |t| ==> t[i - 1].total >= t[i].total
  }

  lemma {:induction false} InsertDescending(x: Entry, sorted: seq<Entry>)
    requires Descending(sorted)
    ensures Descending(Insert(x, sorted))
    decreases |sorted|
  {
    if sorted != [] && x.total <= sorted[0].total {
      var rest := Insert(x, sorted[1..]);
      InsertDescending(x, sorted[1..]);
      assert rest[0].total <= sorted[0].total;
      var r := [sorted[0]] + rest;
      forall i | 0 < i < |r| ensures r[i - 1].total >= r[i].total {
        if i > 1 {
          assert r[i - 1] == rest[i - 2] && r[i] == rest[i - 1];
        }
      }
    }
  }

  /**
   * `Object.entries(t).sort((a, b) => b[1] - a[1])`: a stable sort by
   * descending total (insertion sort, each later entry placed after the
   * earlier ones it ties with).
   */
  function SortByTotal(t: seq<Entry>): (r: seq<Entry>)
    ensures |r| == |t|
    ensures multiset(r) == multiset(t)
    ensures Descending(r)
    decreases |t|
  {
    if t == [] then []
    else
      assert t == t[..|t| - 1] + [t[|t| - 1]];
      InsertDescending(t[|t| - 1], SortByTotal(t[..|t| - 1]));
      Insert(t[|t| - 1], SortByTotal(t[..|t| - 1]))
  }

  /** `...[0]?.[0] || null`: the first key after sorting, None when there is none or it is empty. */
  function HighestSpendingCategory(s: seq<Expense>): Option<string> {
    var t := CategoryTotals(s);
    if t == [] then None
    else
      var k := SortByTotal(t)[0].key;
      if k == "" then None else Some(k)
  }

  /** The analysis report. */
  datatype Report = Report(totalSpent: int, highestSpendingCategory: Option<string>, monthlyTotals: seq<Entry>)

  /** GET /expenses/analysis. */
  function Analyze(s: seq<Expense>): Report {
    Report(Total(s), HighestSpendingCategory(s), MonthlyTotals(s))
  }

  /** The midnight summary: the sum of the amounts dated exactly `today`. */
  function DailyTotal(s: seq<Expense>, today: string): int {
    SumWhere(s, DateOf, today)
  }

  // ---------------------------------------------------------------------
  // Accumulator objects

  lemma {:induction false} GetKeys(t: seq<Entry>, k: string)
    ensures Get(t, k).Some? <==> k in Keys(t)
    decreases |t|
  {
    if t != [] {
      GetKeys(t[1..], k);
      assert Keys(t) == [t[0].key] + Keys(t[1..]);
    }
  }

  /** With distinct keys, looking up an entry's key gives that entry's total. */
  lemma {:induction false} GetAt(t: seq<Entry>, i: nat)
    requires Distinct(Keys(t)) && i < |t|
    ensures Get(t, t[i].key) == Some(t[i].total)
    decreases |t|
  {
    if i > 0 {
      assert Keys(t[1..]) == Keys(t)[1..];
      assert t[0].key == Keys(t)[0] && t[i].key == Keys(t)[i];
      GetAt(t[1..], i - 1);
    }
  }

  lemma {:induction false} BumpGet(t: seq<Entry>, k: string, amount: int, k': string)
    ensures Get(Bump(t, k, amount), k') == if k' == k then Some(ValueOr0(t, k) + amount) else Get(t, k')
    decreases |t|
  {
    if t != [] && t[0].key != k {
      BumpGet(t[1..], k, amount, k');
    }
  }

  lemma {:induction false} BumpKeys(t: seq<Entry>, k: string, amount: int)
    ensures Keys(Bump(t, k, amount)) == if k in Keys(t) then Keys(t) else Keys(t) + [k]
    decreases |t|
  {
    if t != [] {
      var head := if t[0].key == k then Entry(k, t[0].total + amount) else t[0];
      var rest := if t[0].key == k then t[1..] else Bump(t[1..], k, amount);
      assert Bump(t, k, amount) == [head] + rest;
      assert ([head] + rest)[1..] == rest;
      assert Keys(Bump(t, k, amount)) == [t[0].key] + Keys(rest);
      assert Keys(t) == [t[0].key] + Keys(t[1..]);
      if t[0].key != k {
        BumpKeys(t[1..], k, amount);
        assert k in Keys(t) <==> k in Keys(t[1..]);
      }
    }
  }

  lemma {:induction false} BumpSum(t: seq<Entry>, k: string, amount: int)
    ensures SumTotals(Bump(t, k, amount)) == SumTotals(t) + amount
    decreases |t|
  {
    if t != [] && t[0].key != k {
      BumpSum(t[1..], k, amount);
      assert ([t[0]] + Bump(t[1..], k, amount))[1..] == Bump(t[1..], k, amount);
    } else if t != [] {
      assert ([Entry(k, t[0].total + amount)] + t[1..])[1..] == t[1..];
    }
  }

  /** A key occurs in a ledger when it occurs before the last record or on it. */
  lemma {:induction false} OccursLast(s: seq<Expense>, key: Expense -> string, k: string)
    requires s != []
    ensures Occurs(s, key, k) <==> Occurs(s[..|s| - 1], key, k) || key(s[|s| - 1]) == k
  {
    var n := |s| - 1;
    if Occurs(s, key, k) && key(s[n]) != k {
      var i :| 0 <= i < |s| && key(s[i]) == k;
      assert key(s[..n][i]) == k;
    }
    if Occurs(s[..n], key, k) {
      var i :| 0 <= i < n && key(s[..n][i]) == k;
      assert key(s[i]) == k;
    }
  }

  /** Only keys that occur in the ledger get an entry, each once. */
  lemma {:induction false} TallyKeys(s: seq<Expense>, key: Expense -> string)
    ensures Distinct(Keys(Tally(s, key)))
    ensures forall k :: k in Keys(Tally(s, key)) <==> Occurs(s, key, k)
    decreases |s|
  {
    if s != [] {
      var n := |s| - 1;
      var before := Tally(s[..n], key);
      TallyKeys(s[..n], key);
      BumpKeys(before, key(s[n]), s[n].amount);
      assert Tally(s, key) == Bump(before, key(s[n]), s[n].amount);
      forall k ensures k in Keys(Tally(s, key)) <==> Occurs(s, key, k) {
        OccursLast(s, key, k);
      }
    }
  }

  /** The total stored under each key is the sum of the amounts of the records with that key. */
  lemma {:induction false} TallyValues(s: seq<Expense>, key: Expense -> string, k: string)
    ensures ValueOr0(Tally(s, key), k) == SumWhere(s, key, k)
    decreases |s|
  {
    if s != [] {
      var n := |s| - 1;
      TallyValues(s[..n], key, k);
      BumpGet(Tally(s[..n], key), key(s[n]), s[n].amount, k);
    }
  }

  /** The stored totals add up to the sum of all amounts. */
  lemma {:induction false} TallySum(s: seq<Expense>, key: Expense -> string)
    ensures SumTotals(Tally(s, key)) == Total(s)
    decreases |s|
  {
    if s != [] {
      var n := |s| - 1;
      TallySum(s[..n], key);
      BumpSum(Tally(s[..n], key), key(s[n]), s[n].amount);
    }
  }

  /** Keys enter the accumulator in order of first appearance: a prefix of the ledger yields a prefix of the keys. */
  lemma {:induction false} TallyPrefix(s: seq<Expense>, key: Expense -> string, m: nat)
    requires m <= |s|
    ensures Keys(Tally(s[..m], key)) <= Keys(Tally(s, key))
    decreases |s|
  {
    if m < |s| {
      var n := |s| - 1;
      assert s[..m] == s[..n][..m];
      TallyPrefix(s[..n], key, m);
      BumpKeys(Tally(s[..n], key), key(s[n]), s[n].amount);
    } else {
      assert s[..m] == s;
    }
  }

  /** Entry p of an accumulator holds the sum of the amounts of the records with its key. */
  lemma {:induction false} EntryTotal(s: seq<Expense>, key: Expense -> string, p: nat)
    requires p < |Tally(s, key)|
    ensures Tally(s, key)[p].total == SumWhere(s, key, Tally(s, key)[p].key)
  {
    var t := Tally(s, key);
    TallyKeys(s, key);
    GetAt(t, p);
    TallyValues(s, key, t[p].key);
  }

  // ---------------------------------------------------------------------
  // Highest spending category

  /** Entry i has the largest total, and every entry before it a strictly smaller one. */
  predicate FirstMaximum(t: seq<Entry>, i: nat) {
    i < |t| &&
    (forall j :: 0 <= j < |t| ==> t[j].total <= t[i].total) &&
    (forall j :: 0 <= j < i ==> t[j].total < t[i].total)
  }

  lemma {:induction false} InsertHead(x: Entry, sorted: seq<Entry>)
    requires sorted != []
    ensures Insert(x, sorted)[0] == if x.total > sorted[0].total then x else sorted[0]
  {
  }

  /** Appending an entry moves the first maximum to it exactly when it is strictly larger. */
  lemma {:induction false} FirstMaximumExtend(t: seq<Entry>, i: nat)
    requires |t| >= 2 && FirstMaximum(t[..|t| - 1], i)
    ensures t[|t| - 1].total > t[i].total ==> FirstMaximum(t, |t| - 1)
    ensures t[|t| - 1].total <= t[i].total ==> FirstMaximum(t, i)
  {
    var front := t[..|t| - 1];
    assert forall j :: 0 <= j < |front| ==> t[j] == front[j];
  }

  /** The head of the stable descending sort is the first entry with the largest total. */
  lemma {:induction false} SortHead(t: seq<Entry>) returns (i: nat)
    requires t != []
    ensures FirstMaximum(t, i) && SortByTotal(t)[0] == t[i]
    decreases |t|
  {
    var n := |t| - 1;
    if n == 0 {
      i := 0;
    } else {
      var i' := SortHead(t[..n]);
      assert t[..|t| - 1] == t[..n];
      InsertHead(t[n], SortByTotal(t[..n]));
      FirstMaximumExtend(t, i');
      i := if t[n].total > t[i'].total then n else i';
    }
  }

  /** The total spent on category `c`. */
  function CategoryTotal(s: seq<Expense>, c: string): int { SumWhere(s, CategoryOf, c) }

  /** The entry that holds the key of record i. */
  lemma {:induction false} KeyIndex(s: seq<Expense>, key: Expense -> string, i: nat) returns (p: nat)
    requires i < |s|
    ensures p < |Tally(s, key)| && Tally(s, key)[p].key == key(s[i])
  {
    TallyKeys(s, key);
    assert key(s[i]) in Keys(Tally(s, key));
    p :| p < |Tally(s, key)| && Keys(Tally(s, key))[p] == key(s[i]);
  }

  /** A record that carries the key of entry p. */
  lemma {:induction false} KeyWitness(s: seq<Expense>, key: Expense -> string, p: nat) returns (w: nat)
    requires p < |Tally(s, key)|
    ensures w < |s| && key(s[w]) == Tally(s, key)[p].key
  {
    TallyKeys(s, key);
    assert Keys(Tally(s, key))[p] == Tally(s, key)[p].key;
    assert Tally(s, key)[p].key in Keys(Tally(s, key));
    assert Occurs(s, key, Tally(s, key)[p].key);
    w :| w < |s| && key(s[w]) == Tally(s, key)[p].key;
  }

  /**
   * If the key of entry h does not occur among records 0..i, the key of
   * record i comes before entry h.
   */
  lemma {:induction false} SeenEarlier(s: seq<Expense>, key: Expense -> string, i: nat, h: nat, p: nat)
    requires i < |s| && h < |Tally(s, key)| && p < |Tally(s, key)|
    requires Tally(s, key)[p].key == key(s[i])
    requires !Occurs(s[..i + 1], key, Tally(s, key)[h].key)
    ensures p < h
  {
    var t := Tally(s, key);
    var prefix := Keys(Tally(s[..i + 1], key));
    TallyKeys(s, key);
    TallyPrefix(s, key, i + 1);
    TallyKeys(s[..i + 1], key);
    assert key(s[..i + 1][i]) == key(s[i]);
    assert key(s[i]) in prefix;
    var q :| 0 <= q < |prefix| && prefix[q] == key(s[i]);
    assert Keys(t)[q] == Keys(t)[p];
    assert t[h].key !in prefix;
    assert forall j :: 0 <= j < |prefix| ==> prefix[j] != Keys(t)[h];
  }

  /**
   * The key of the first maximum entry has the largest sum, and every key
   * that occurs before its first record has a strictly smaller one.
   */
  lemma {:induction false} FirstMaximumKey(s: seq<Expense>, key: Expense -> string, h: nat)
    requires FirstMaximum(Tally(s, key), h)
    ensures forall i :: 0 <= i < |s| ==> SumWhere(s, key, key(s[i])) <= SumWhere(s, key, Tally(s, key)[h].key)
    ensures forall i :: 0 <= i < |s| && !Occurs(s[..i + 1], key, Tally(s, key)[h].key) ==>
      SumWhere(s, key, key(s[i])) < SumWhere(s, key, Tally(s, key)[h].key)
  {
    var t := Tally(s, key);
    EntryTotal(s, key, h);
    forall i | 0 <= i < |s|
      ensures SumWhere(s, key, key(s[i])) <= SumWhere(s, key, t[h].key)
      ensures !Occurs(s[..i + 1], key, t[h].key) ==> SumWhere(s, key, key(s[i])) < SumWhere(s, key, t[h].key)
    {
      var p := KeyIndex(s, key, i);
      EntryTotal(s, key, p);
      if !Occurs(s[..i + 1], key, t[h].key) {
        SeenEarlier(s, key, i, h, p);
      }
    }
  }

  /**
   * On a well-formed ledger there is a highest-spending category exactly
   * when the ledger is not empty; it is a category that occurs, no category
   * has a larger total, and every category that appears in the ledger
   * before its first record has a strictly smaller total (ties go to the
   * category seen first).
   */
  lemma {:induction false} HighestIsFirstMaximum(s: seq<Expense>)
    requires WellFormed(s)
    ensures HighestSpendingCategory(s).None? <==> s == []
    ensures HighestSpendingCategory(s).Some? ==>
      var c := HighestSpendingCategory(s).value;
      Occurs(s, CategoryOf, c) &&
      (forall i :: 0 <= i < |s| ==> CategoryTotal(s, s[i].category) <= CategoryTotal(s, c)) &&
      (forall i :: 0 <= i < |s| && !Occurs(s[..i + 1], CategoryOf, c) ==> CategoryTotal(s, s[i].category) < CategoryTotal(s, c))
  {
    if s != [] {
      var hi := HighestEntry(s);
      var c := CategoryTotals(s)[hi].key;
      FirstMaximumKey(s, CategoryOf, hi);
      forall i | 0 <= i < |s|
        ensures CategoryTotal(s, s[i].category) <= CategoryTotal(s, c)
        ensures !Occurs(s[..i + 1], CategoryOf, c) ==> CategoryTotal(s, s[i].category) < CategoryTotal(s, c)
      {
        assert CategoryOf(s[i]) == s[i].category;
      }
    }
  }

  /** On a non-empty well-formed ledger the highest-spending category is the key of the first maximum entry. */
  lemma {:induction false} HighestEntry(s: seq<Expense>) returns (hi: nat)
    requires WellFormed(s) && s != []
    ensures FirstMaximum(CategoryTotals(s), hi)
    ensures HighestSpendingCategory(s) == Some(CategoryTotals(s)[hi].key)
    ensures Occurs(s, CategoryOf, CategoryTotals(s)[hi].key)
  {
    var t := CategoryTotals(s);
    var p0 := KeyIndex(s, CategoryOf, 0);
    hi := SortHead(t);
    var w := KeyWitness(s, CategoryOf, hi);
    var k := SortByTotal(t)[0].key;
    assert k == s[w].category;
    assert k in Categories;
    CategoryNames(k);
  }

  lemma {:induction false} CategoryNames(c: string)
    requires c in Categories
    ensures c != ""
  {
  }

  // ---------------------------------------------------------------------
  // The report

  /** On an empty ledger nothing has been spent and no key is reported. */
  lemma {:induction false} AnalyzeEmpty()
    ensures Analyze([]) == Report(0, None, [])
  {
  }

  /** The total spent is both the sum of the category totals and the sum of the monthly totals. */
  lemma {:induction false} TotalsAgree(s: seq<Expense>)
    ensures Analyze(s).totalSpent == SumTotals(CategoryTotals(s))
    ensures Analyze(s).totalSpent == SumTotals(Analyze(s).monthlyTotals)
  {
    TallySum(s, CategoryOf);
    TallySum(s, MonthOf);
  }

  // ---------------------------------------------------------------------
  // Daily summary

  /** On a well-formed ledger the day's total is at least 0 and at most the total spent. */
  lemma {:induction false} DailyWithinTotal(s: seq<Expense>, today: string)
    requires WellFormed(s)
    ensures 0 <= DailyTotal(s, today) <= Total(s)
    decreases |s|
  {
    if s != [] {
      assert WellFormed(s[..|s| - 1]);
      DailyWithinTotal(s[..|s| - 1], today);
    }
  }

  /** The day's total is 0 when no record is dated `today`. */
  lemma {:induction false} DailyNoMatch(s: seq<Expense>, today: string)
    requires forall i :: 0 <= i < |s| ==> s[i].date != today
    ensures DailyTotal(s, today) == 0
    decreases |s|
  {
    if s != [] {
      DailyNoMatch(s[..|s| - 1], today);
    }
  }

  lemma {:induction false} TotalOfFilter(s: seq<Expense>, keep: Expense -> bool, today: string)
    requires forall e :: keep(e) == (e.date == today)
    ensures Total(Filter(s, keep)) == DailyTotal(s, today)
    decreases |s|
  {
    if s != [] {
      var n := |s| - 1;
      TotalOfFilter(s[..n], keep, today);
      var r := Filter(s[..n], keep);
      if keep(s[n]) {
        assert (r + [s[n]])[..|r|] == r;
      } else {
        assert r + [] == r;
      }
    }
  }

  /**
   * For a well-formed `today`, the day's total is the total of the query
   * that asks for records from `today` to `today`.
   */
  lemma {:induction false} DailyIsDayQuery(s: seq<Expense>, today: string)
    requires IsDate(today)
    ensures DailyTotal(s, today) == Total(Find(s, None, Some(today), Some(today)))
  {
    var keep := Matcher(None, Some(today), Some(today));
    FindIsOneFilter(s, None, Some(today), Some(today));
    forall e: Expense ensures keep(e) == (e.date == today) {
      SameDay(today, e.date);
    }
    TotalOfFilter(s, keep, today);
  }

  /**
   * Food 10.00 on 2024-01-05, Travel 20.00 on 2024-01-06 and Food 5.00 on
   * 2024-02-01: 35.00 in all, Food 15.00 and Travel 20.00, so Travel is the
   * highest-spending category, and 30.00 in January against 5.00 in February.
   */
  lemma {:induction false} ThreeExpenseReport()
    ensures Analyze(ThreeExpenses()) == Report(3500, Some("Travel"), [Entry("2024-01", 3000), Entry("2024-02", 500)])
    ensures CategoryTotals(ThreeExpenses()) == [Entry("Food", 1500), Entry("Travel", 2000)]
  {
    var s := ThreeExpenses();
    ThreeExpenseTotal();
    ThreeExpenseMonths();
    ThreeExpenseCategories();
    var food, travel := Entry("Food", 1500), Entry("Travel", 2000);
    assert SortByTotal([food, travel]) == [travel, food] by {
      assert [food, travel][..1] == [food];
      assert SortByTotal([food]) == [food];
    }
  }

  function ThreeExpenses(): seq<Expense> {
    [Expense(1, "Food", 1000, "2024-01-05"), Expense(2, "Travel", 2000, "2024-01-06"), Expense(3, "Food", 500, "2024-02-01")]
  }

  lemma {:induction false} ThreeExpenseTotal()
    ensures Total(ThreeExpenses()) == 3500
  {
    var s := ThreeExpenses();
    assert s[..2][..1] == s[..1] && s[..1][..0] == [];
    assert Total(s[..1]) == 1000;
    assert Total(s[..2]) == 3000;
  }

  lemma {:induction false} ThreeExpenseMonths()
    ensures MonthlyTotals(ThreeExpenses()) == [Entry("2024-01", 3000), Entry("2024-02", 500)]
  {
    var s := ThreeExpenses();
    assert s[..2][..1] == s[..1] && s[..1][..0] == [];
    assert MonthOf(s[0]) == "2024-01" && MonthOf(s[1]) == "2024-01" && MonthOf(s[2]) == "2024-02";
    assert Tally(s[..1], MonthOf) == [Entry("2024-01", 1000)];
    assert Tally(s[..2], MonthOf) == [Entry("2024-01", 3000)];
    assert [Entry("2024-01", 3000)][1..] == [];
  }

  lemma {:induction false} ThreeExpenseCategories()
    ensures CategoryTotals(ThreeExpenses()) == [Entry("Food", 1500), Entry("Travel", 2000)]
  {
    var s := ThreeExpenses();
    assert s[..2][..1] == s[..1] && s[..1][..0] == [];
    assert Tally(s[..1], CategoryOf) == [Entry("Food", 1000)];
    assert [Entry("Food", 1000)][1..] == [];
    assert Tally(s[..2], CategoryOf) == [Entry("Food", 1000), Entry("Travel", 2000)];
    assert Bump([Entry("Food", 1000), Entry("Travel", 2000)], "Food", 500) == [Entry("Food", 1500), Entry("Travel", 2000)];
  }
}
