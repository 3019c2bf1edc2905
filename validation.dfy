/**
 * The checks `addIncome` and `addExpense` make before anything is stored.
 * A parsed amount is `None` when `parseFloat` yields NaN.
 */
module Validation {
  import opened Options
  import opened Records
  import opened Text

  /**
   * The income form: refused when the trimmed description is empty or the
   * amount is NaN or not above zero; otherwise an entry with the trimmed
   * description, category "Income" and kind Income.
   */
  function ValidateIncome(description: string, amount: Option<real>): (r: Option<Entry>)
    ensures r.None? <==> AllWhitespace(description) || amount.None? || amount.value <= 0.0
    ensures r.Some? ==> r.value.kind == Income && r.value.category == IncomeCategory
    ensures r.Some? ==> r.value.description == Trim(description) && r.value.description != []
    ensures r.Some? ==> r.value.amount == amount.value && r.value.amount > 0.0
  {
    TrimEmptyIff(description);
    var trimmed := Trim(description);
    if trimmed == [] || amount.None? || amount.value <= 0.0 then None
    else Some(Entry(trimmed, amount.value, IncomeCategory, Income))
  }

  /**
   * The expense form: the same checks as the income form, and the selected
   * category must not be the empty string; otherwise an entry with kind
   * Expense and the category as selected.
   */
  function ValidateExpense(description: string, category: string, amount: Option<real>): (r: Option<Entry>)
    ensures r.None? <==> AllWhitespace(description) || category == [] || amount.None? || amount.value <= 0.0
    ensures r.Some? ==> r.value.kind == Expense && r.value.category == category
    ensures r.Some? ==> r.value.description == Trim(description) && r.value.description != []
    ensures r.Some? ==> r.value.amount == amount.value && r.value.amount > 0.0
  {
    TrimEmptyIff(description);
    var trimmed := Trim(description);
    if trimmed == [] || category == [] || amount.None? || amount.value <= 0.0 then None
    else Some(Entry(trimmed, amount.value, category, Expense))
  }
}
