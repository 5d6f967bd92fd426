# Expense ledger

A Dafny model of the in-memory expense ledger behind the Personal Expense
Tracker service (`index.js`). The service keeps one process-wide list of
expenses and offers four operations on it:

- **add** (`POST /expenses`) checks the category against the fixed list
  Food, Travel, Shopping, Utilities. It then checks that the amount is
  positive. On success it gives the record the id `length + 1`, uses today's
  date when no date is given, and appends the record.
- **query** (`GET /expenses`) filters by category when one is given. It then
  keeps the records whose date lies in the inclusive range `start_date` to
  `end_date`, where either bound may be omitted.
- **analysis** (`GET /expenses/analysis`) computes the total spent, the total
  per category, the highest-spending category and the total per month. The
  month key is the first seven characters of the date.
- **daily summary** (the midnight job) sums the amounts dated today.

Layout, one module per concern:

- `wrappers.dfy`: `Option` and `Result`.
- `expenses.dfy`: the `Expense` record, the category list, the ledger
  invariant `WellFormed`, and `Admit`, which says what adding yields.
- `store.dfy`: class `Ledger`. Its field `expenses` is the list the service
  appends to, and its method `Add` performs that append.
- `query.dfy`: the query as two chained filters, and what they select.
- `analysis.dfy`: the folds of the analysis and of the daily summary.
- `dates.dfy`: how dates are parsed and compared.

Modelling choices:

- Amounts are integers (cents).
- "Today" is a parameter. In the service it comes from the system clock.
- A query parameter or the date of a new expense is an `Option<string>`. It
  takes effect only when present and non-empty, as JavaScript truthiness
  does.
- `new Date(s)` is `Dates.ParseDate`. A `YYYY-MM-DD` string with month 1..12
  and day 1..31 yields a calendar key. Anything else yields `None`, an invalid
  date. Every comparison with an invalid date is false, as every comparison
  with NaN is.
- The accumulator objects `categoryTotals` and `monthlyTotals` are JavaScript
  objects, which keep keys in insertion order. Each is modelled as a sequence
  of `Entry(key, total)` with distinct keys, built by one fold, `Tally`.
- `highestSpendingCategory` sorts the entries by descending total and takes
  the first. The sort is modelled as a stable insertion sort, since
  JavaScript's `Array.prototype.sort` is stable.

Two facts about the service that the model makes explicit:

- On a tie, the highest-spending category is the one that first appears in
  the ledger, because `Array.prototype.sort` is stable (index.js:64-65).
  `HighestIsFirstMaximum` proves it.
- `categoryTotals` is computed but not returned in the response. The model
  still exposes it (`CategoryTotals`) so that its agreement with the total
  can be stated.

## Model

| member | source | states |
|---|---|---|
| Expenses.Admit | index.js:17-29 | An unlisted category gives `InvalidCategory` (checked first). A listed category with amount <= 0 gives `AmountNotPositive`. Success happens exactly when both checks pass. The admitted record has id = ledger length + 1, the given category and amount, and the given date when it is present and non-empty, otherwise today. |
| Expenses.AdmitKeepsWellFormed | index.js:17-30 | Appending an admitted record to a well-formed ledger keeps it well formed: record i has id i + 1, a listed category and a positive amount. |
| Expenses.ResolveDate | index.js:28 | No contract of its own. `Admit`'s ensures states the default: the given date when present and non-empty, otherwise today. |
| Expenses.Message | index.js:17-21 | No contract (two constant texts): "Invalid category" for `InvalidCategory`, "Amount must be positive" for `AmountNotPositive`. |
| Expenses.IdsUnique | index.js:25 | In a well-formed ledger no two records share an id. |
| Store.Ledger.constructor | index.js:9 | The ledger starts empty, and so well formed. |
| Store.Ledger.Add | index.js:13-33 | Add keeps the ledger invariant and returns what `Admit` gives. On a refusal the ledger is unchanged. On success the ledger is the old ledger with exactly the returned record appended. |
| Query.Filter | index.js:42 | A filter never lengthens the sequence. An element is in the result exactly when it is in the input and passes the test. |
| Query.FindIsOneFilter | index.js:39-50 | The category filter followed by the date-range filter equals one pass that keeps the records satisfying every given filter, in ledger order. |
| Query.Find | index.js:39-50 | The query result is no longer than the ledger. A record is in it exactly when it is in the ledger and matches the category (if given), is not before `start_date` (if given) and is not after `end_date` (if given). |
| Query.FindNoFilter | index.js:39-44 | With no filter given, the query returns the whole ledger. |
| Query.FindPreservesOrder | index.js:39-50 | On a well-formed ledger, every record of the result is the ledger's record at index id - 1, and ids rise strictly along the result. So the result is an order-preserving selection. |
| Dates.ParseDateDistinct | index.js:46-48 | Two well-formed dates parse to the same point in time exactly when they are the same string. |
| Dates.DateLeIsStringOrder | index.js:46-48 | For well-formed dates, `new Date(a) <= new Date(b)` holds exactly when `a` is not after `b` in string order. |
| Dates.SameDay | index.js:46-48 | A well-formed date and any string are each no later than the other exactly when they are the same string. |
| Analysis.Total | index.js:57 | No contract of its own. `TallySum` and `TotalsAgree` tie it to the per-key totals, and `DailyWithinTotal` bounds the daily total by it. |
| Analysis.Bump | index.js:60 | No contract of its own. `BumpGet`, `BumpKeys` and `BumpSum` are its lemmas: only the bumped key changes, by the amount; an existing key keeps its place and a new key goes last; the stored totals grow by the amount. |
| Analysis.Tally | index.js:59-71 | No contract of its own. `TallyKeys`, `TallyValues`, `TallySum` and `TallyPrefix` state its properties. |
| Analysis.CategoryTotals | index.js:59-62 | No contract of its own. It is `Tally` keyed by category, so the `Tally*` lemmas apply; `HighestIsFirstMaximum` and `TotalsAgree` use it. |
| Analysis.MonthlyTotals | index.js:67-71 | No contract of its own. It is `Tally` keyed by `MonthKey`, so the `Tally*` lemmas apply; `TotalsAgree` uses it. |
| Analysis.MonthKey | index.js:68 | The month key is a prefix of the date, seven characters long, or the whole date when it is shorter. |
| Analysis.TallyKeys | index.js:59-71 | In `categoryTotals` and `monthlyTotals`, every key appears once. A key is present exactly when some record has it, so absent categories and months get no entry. |
| Analysis.TallyValues | index.js:59-71 | The total stored under a key is the sum of the amounts of the records with that key, and 0 for an absent key. |
| Analysis.TallySum | index.js:57-71 | The stored totals add up to the sum of all amounts. |
| Analysis.TallyPrefix | index.js:59-62 | Keys enter in order of first appearance: the keys for a prefix of the ledger are a prefix of the keys for the whole ledger. |
| Analysis.Insert | index.js:64-65 | Inserting into the sorted list adds exactly the one entry (a multiset statement). The new head is the inserted entry or the old head. |
| Analysis.SortByTotal | index.js:64-65 | The sort is a permutation of the entries, ordered by descending total. |
| Analysis.SortHead | index.js:64-65 | The head of the stable descending sort is the first entry with the largest total. No entry is larger, and every earlier entry is strictly smaller. |
| Analysis.HighestSpendingCategory | index.js:64-65 | No contract of its own. `HighestIsFirstMaximum` states what it returns. |
| Analysis.HighestIsFirstMaximum | index.js:59-65 | On a well-formed ledger the highest-spending category is null exactly when the ledger is empty. Otherwise it is a category that occurs and no category has a larger total. Every category that appears before its first record has a strictly smaller total, so ties go to the category seen first. |
| Analysis.Analyze | index.js:56-77 | No contract of its own. `AnalyzeEmpty`, `TotalsAgree`, `HighestIsFirstMaximum` and `ThreeExpenseReport` state its properties. |
| Analysis.AnalyzeEmpty | index.js:57-75 | On an empty ledger the report is total 0, no highest category and no monthly entries. |
| Analysis.TotalsAgree | index.js:57-71 | `totalSpent` equals the sum of the category totals and also the sum of the monthly totals. |
| Analysis.ThreeExpenseReport | index.js:56-75 | For Food 10.00 (2024-01-05), Travel 20.00 (2024-01-06) and Food 5.00 (2024-02-01) the report is total 35.00, highest category Travel, months 2024-01 = 30.00 and 2024-02 = 5.00. The category totals are Food 15.00 and Travel 20.00. |
| Analysis.DailyTotal | index.js:82-85 | No contract of its own. `DailyWithinTotal`, `DailyNoMatch` and `DailyIsDayQuery` state its properties. |
| Analysis.DailyWithinTotal | index.js:83-85 | On a well-formed ledger the daily total is between 0 and `totalSpent`. |
| Analysis.DailyNoMatch | index.js:83-85 | The daily total is 0 when no record is dated today. |
| Analysis.DailyIsDayQuery | index.js:83-85 | For a well-formed `today`, the daily total equals the total of the query from `today` to `today`. |

## Left out

- HTTP wiring (Express, body parsing, routes, the `{status, data, error}` envelope, port 3000), the cron schedule and the log lines. The model covers the ledger operations only. `Expenses.Message` keeps the two error texts.
- The system clock. "Today" is a parameter of `Ledger.Add` and `DailyTotal`.
- Floating-point arithmetic on amounts. Amounts are integer cents, so sums are exact.
- Admit: the amount is an integer. A request whose amount is missing, converts to NaN (such as `"abc"`) or is a numeric string (such as `"5"`) is not represented. The service admits the first two, because every comparison with NaN is false, and stores the third as a string. Values that convert to 0 (`null`, `false`, `""`, `[]`) are refused with "Amount must be positive", as a non-positive integer is here.
- Admit: the category and the date are strings. Non-string JSON values (numbers, arrays) are not represented.
- ParseDate: JavaScript `Date` also accepts other formats (full timestamps, `YYYY`, `YYYY-MM`) and may roll over impossible days such as `2024-02-30`. Here those strings count as invalid, or the day is checked only against 1..31.
- MonthKey: JavaScript orders integer-like object keys (a date such as `2024`) before other keys. A month key equal to an `Object.prototype` member (`valueOf`) breaks the accumulator in JavaScript. Neither quirk is modelled: keys are kept in plain insertion order.
- Query parameters that are repeated in the URL (Express turns them into arrays) are not represented.
- Concurrency between the midnight job and request handlers is not modelled. Every operation reads one snapshot of the ledger.
