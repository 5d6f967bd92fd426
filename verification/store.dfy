/** The in-memory ledger the service appends expenses to. */
module Store {
  import opened Wrappers
  import opened Expenses

  /**
   * The process-wide expense list. It only grows, one validated record at
   * a time; every read operation is a function of `expenses`.
   */
  class Ledger {
    var expenses: seq<Expense>

    ghost predicate Valid()
      reads this
    {
      WellFormed(expenses)
    }

    /** The ledger starts empty. */
    constructor ()
      ensures Valid() && expenses == []
    {
      expenses := [];
    }

    /**
     * Adds an expense: refuses an unlisted category, then a non-positive
     * amount, leaving the ledger as it was; otherwise appends a record with
     * the next id and the given date, or `today` when none is given.
     */
    method Add(category: string, amount: int, date: Option<string>, today: string) returns (r: Result<Expense, AddError>)
      requires Valid()
      modifies this
      ensures Valid()
      ensures r == Admit(old(expenses), category, amount, date, today)
      ensures r.Err? ==> expenses == old(expenses)
      ensures r.Ok? ==> expenses == old(expenses) + [r.value]
    {
      if category !in Categories {
        return Err(InvalidCategory);
      }
      if amount <= 0 {
        return Err(AmountNotPositive);
      }
      var expense := Expense(|expenses| + 1, category, amount, ResolveDate(date, today));
      expenses := expenses + [expense];
      r := Ok(expense);
    }
  }
}
