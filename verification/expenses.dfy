/**
 * Expense records, the fixed list of categories, and the validation that
 * decides whether a new expense is admitted to the ledger.
 */
module Expenses {
  import opened Wrappers

  /** One recorded expense; `amount` is in whole cents. */
  datatype Expense = Expense(id: nat, category: string, amount: int, date: string)

  /** The only categories the ledger accepts, in the order the service lists them. */
  const Categories: seq<string> := ["Food", "Travel", "Shopping", "Utilities"]

  /** Why an expense was refused. */
  datatype AddError = InvalidCategory | AmountNotPositive

  /** The error text the service reports for each refusal. */
  function Message(e: AddError): string {
    match e
    case InvalidCategory => "Invalid category"
    case AmountNotPositive => "Amount must be positive"
  }

  /**
   * The ledger invariant: record i has id i + 1, a listed category and a
   * positive amount.
   */
  predicate WellFormed(s: seq<Expense>) {
    forall i :: 0 <= i < |s| ==> s[i].id == i + 1 && s[i].category in Categories && s[i].amount > 0
  }

  /** An optional string takes effect when it is present and non-empty (JavaScript truthiness). */
  predicate Given(p: Option<string>) { p.Some? && p.value != "" }

  /** An omitted or empty date means today (`date || today`). */
  function ResolveDate(date: Option<string>, today: string): string {
    if Given(date) then date.value else today
  }

  /**
   * What adding an expense to ledger `s` yields: the category is checked
   * first, then the amount; an admitted record takes the next id and the
   * resolved date.
   */
  function Admit(s: seq<Expense>, category: string, amount: int, date: Option<string>, today: string): (r: Result<Expense, AddError>)
    ensures r == Err(InvalidCategory) <==> category !in Categories
    ensures r == Err(AmountNotPositive) <==> category in Categories && amount <= 0
    ensures r.Ok? <==> category in Categories && amount > 0
    ensures r.Ok? ==> r.value.id == |s| + 1 && r.value.category == category && r.value.amount == amount
    ensures r.Ok? && Given(date) ==> r.value.date == date.value
    ensures r.Ok? && !Given(date) ==> r.value.date == today
  {
    if category !in Categories then Err(InvalidCategory)
    else if amount <= 0 then Err(AmountNotPositive)
    else Ok(Expense(|s| + 1, category, amount, ResolveDate(date, today)))
  }

  /** Appending what Admit accepts keeps the ledger invariant. */
  lemma {:induction false} AdmitKeepsWellFormed(s: seq<Expense>, category: string, amount: int, date: Option<string>, today: string)
    requires WellFormed(s)
    requires Admit(s, category, amount, date, today).Ok?
    ensures WellFormed(s + [Admit(s, category, amount, date, today).value])
  {
  }

  /** In a well-formed ledger no two records share an id. */
  lemma {:induction false} IdsUnique(s: seq<Expense>, i: int, j: int)
    requires WellFormed(s)
    requires 0 <= i < |s| && 0 <= j < |s| && i != j
    ensures s[i].id != s[j].id
  {
  }
}
