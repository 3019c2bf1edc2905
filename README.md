# Expense tracker ledger — a Dafny model

This project models the data core of a browser expense tracker (`script.js`):
the in-memory list of income and expense transactions, the validation the two
entry forms apply before a record is stored, the delete and clear-all
operations, the write of the whole list to one storage slot
(`expenseTransactions`) after every change, the start-up load that recovers
from unparsable stored text, and the summary (total income, total expenses,
balance and its positive / negative / neutral class).

Modules, one per concern:

- `Options` — `Option<T>`; a parsed amount of `None` stands for NaN.
- `Records` — `Kind` (Income / Expense), `Entry` (what a form hands to
  `addTransaction`), `Transaction`, and the invariant `AllPositive`.
- `Text` — ECMAScript `trim` over its white-space and line-terminator set.
- `Validation` — the checks of `addIncome` and `addExpense`.
- `Summary` — the filter/reduce totals of `updateSummary`, the balance and its
  class, with additivity, sign and reference-definition lemmas.
- `Storage` — the slot's value (the serialised list, or text the parser
  rejects) and the start-up load as a function.
- `Ledger` — each user action as a transition on the list (`Apply`), runs of
  actions (`Run`), and the lemmas about them.
- `Store` — class `TransactionStore` with the list and the slot as fields.
  The four user actions (`AddIncome`, `AddExpense`, `DeleteTransaction`,
  `ClearAll`) are proved to change the list exactly as `Ledger.Apply` says.
  Whenever a method writes the slot, the slot afterwards equals the list;
  refused or unconfirmed actions leave the slot untouched (so after a start-up
  from an absent or unparsable slot it stays absent until the first write).

Amounts are exact `real`s. Ids, which the program takes from the clock, and
the answers of the confirmation dialogs are parameters.

The model follows the code in these points, which one might expect to be
otherwise:

- Deleting an id that is absent is not reported as a no-op: the code always
  rewrites the slot and shows "Transaction deleted.".
- Ids are not guaranteed unique (two additions in the same millisecond share
  one), and delete removes every record that carries the id.
- The expense category is only checked to be non-empty, not drawn from a set.
- An empty stored string counts as "nothing stored": it loads as the empty
  list and, unlike unparsable text, is not removed from the slot.

## Model

| member | source | states |
|---|---|---|
| Text.TrimStart | script.js:75 | the result is a suffix of the input, everything dropped is white space, and it does not start with white space |
| Text.TrimEnd | script.js:75 | the result is a prefix of the input, everything dropped is white space, and it does not end with white space |
| Text.Trim | script.js:75 | the trimmed description is a slice of the input with no white space at either end, and everything dropped before and after it is white space |
| Text.TrimEmptyIff | script.js:78 | the trimmed description is empty (falsy) exactly when the raw description is all white space |
| Text.TrimIdempotent | script.js:75 | trimming a trimmed description changes nothing |
| Validation.ValidateIncome | script.js:74-88 | an income entry is refused exactly when the description is all white space or the amount is NaN or not above zero; an accepted one carries the trimmed (non-empty) description, the amount (positive), category "Income" and kind Income |
| Validation.ValidateExpense | script.js:96-111 | an expense entry is refused exactly when the description is all white space, the category is empty, or the amount is NaN or not above zero; an accepted one carries the trimmed description, the positive amount, the selected category and kind Expense |
| Summary.OfKind | script.js:195-201 | filtering by type keeps exactly the records of that type |
| Summary.SumAmountsAppend | script.js:197 | the reduce-sum of a concatenation is the sum of the two sums |
| Summary.OfKindAppend | script.js:196 | filtering by type distributes over concatenation |
| Summary.SumAmounts | script.js:197 | the reduce-sum of amounts, as a left fold from 0; it is non-negative when every amount is positive |
| Summary.TotalIncome | script.js:195-197 | the sum of the amounts of the Income records; zero when there is none (properties in TotalsAppend, TotalsAppendOne, TotalsNonNegative) |
| Summary.TotalExpenses | script.js:199-201 | the sum of the amounts of the Expense records; zero when there is none (properties in TotalsAppend, TotalsAppendOne, TotalsNonNegative) |
| Summary.Balance | script.js:203 | income minus expenses, equal to the signed one-pass sum NetFlow (additivity in BalanceAppend) |
| Summary.Summarize | script.js:194-218 | the displayed figures: the balance is income minus expenses, and the class is positive, negative or neutral exactly when income is above, below or equal to expenses |
| Summary.TotalsAppend | script.js:195-201 | total income and total expenses are each additive over concatenating two lists |
| Summary.BalanceAppend | script.js:203 | the balance is additive over concatenating two lists |
| Summary.TotalsAppendOne | script.js:195-201 | appending a record adds its amount to the total of its own type and leaves the other total unchanged |
| Summary.SummarizeEmpty | script.js:195-217 | the empty list has income, expenses and balance 0 and is classified neutral |
| Summary.SumAmountsPositive | script.js:197 | a sum of positive amounts is non-negative, and zero only for the empty list |
| Summary.TotalsNonNegative | script.js:195-201 | with positive amounts both totals are non-negative, and a total is zero exactly when no record of its type exists |
| Summary.BalanceIsNetFlow | script.js:203 | income minus expenses equals the one-pass sum of amounts signed by type |
| Summary.Classify | script.js:210-217 | the balance class is positive exactly when the balance is above zero, negative exactly when below, neutral exactly when zero |
| Storage.Stringify | script.js:253 | the whole list is written; parsing it gives the list back, and the written value is never falsy |
| Storage.Parse | script.js:24 | parsing what serialising a list wrote gives back that list; unparsable text is a failure |
| Storage.LoadFrom | script.js:20-30 | loading a slot that holds a serialised list restores that list and keeps the slot; an absent slot or an empty string loads as the empty list and is kept as it was; unparsable non-empty text loads as the empty list and the slot is removed; the slot is only ever kept or removed; a non-empty load always comes from a serialised list |
| Records.Stamp | script.js:121-127 | the record carries the given id and exactly the entry's description, amount, category and type |
| Ledger.Apply | script.js:74-133 | the list after one handler: an entry adds at most one record, at the end, with the action's id and a positive amount, keeping the earlier records; delete and clear only drop records (exact effects in EnterIncomeEffect, EnterExpenseEffect, Without, ClearEffect) |
| Ledger.Run | script.js:74-230 | the list after a sequence of handlers, first to last; it grows by at most one record per action (invariant in RunKeepsPositive) |
| Ledger.Without | script.js:186 | deletion keeps exactly the records whose id differs from the given one |
| Ledger.WithoutAppend | script.js:186 | deletion distributes over concatenation, so the kept records stay in their original order |
| Ledger.WithoutAbsent | script.js:186 | deleting an id no record carries leaves the list unchanged |
| Ledger.WithoutIdempotent | script.js:186 | deleting the same id twice gives the same list as deleting it once |
| Ledger.EnterIncomeEffect | script.js:74-88 | a refused income entry leaves the list unchanged; an accepted one appends exactly one record at the end with the given id, trimmed description, amount, category "Income" and kind Income, and keeps all earlier records in order |
| Ledger.EnterExpenseEffect | script.js:96-111 | a refused expense entry leaves the list unchanged; an accepted one appends exactly one record at the end with the given id, trimmed description, amount, category and kind Expense |
| Ledger.ApplyKeepsPositive | script.js:129 | every action (add, delete, clear) keeps every stored amount positive |
| Ledger.RunKeepsPositive | script.js:120-133 | after any sequence of actions from a list whose amounts are positive, every amount is still positive |
| Ledger.ClearEffect | script.js:221-230 | a confirmed clear leaves the empty list, with income, expenses and balance 0 and class neutral; an unconfirmed one changes nothing |
| Ledger.RunSnoc | script.js:120-133 | running one more action applies it to the list the earlier actions left |
| Ledger.AcceptUnpadded | script.js:83-88 | an entry with an unpadded description, positive amount and (for an expense) a category is stored with exactly those fields |
| Ledger.ScenarioSalaryGroceriesRent | script.js:194-218 | income 5000 and expenses 1200 and 2000 give totals 5000 and 3200, balance 1800, class positive |
| Ledger.ScenarioCoffeeOnly | script.js:194-218 | a single expense of 150 gives income 0, expenses 150, balance -150, class negative |
| Ledger.ScenarioBreakEven | script.js:194-218 | income 100 and expense 100 give class neutral |
| Store.TransactionStore.Load | script.js:20-30 | the store starts with the list and slot that loading the stored value gives |
| Store.TransactionStore.SaveTransactions | script.js:252-254 | the slot afterwards holds the whole current list |
| Store.TransactionStore.AddTransaction | script.js:120-133 | the record is appended at the end, earlier records unchanged, and the slot holds the new list |
| Store.TransactionStore.AddIncome | script.js:74-94 | the list makes the income transition; a refused entry leaves the slot as it was and reports the validation message; an accepted one is saved and reports success; positive amounts stay positive |
| Store.TransactionStore.AddExpense | script.js:96-118 | the list makes the expense transition; a refused entry leaves the slot as it was and reports the validation message; an accepted one is saved and reports success; positive amounts stay positive |
| Store.TransactionStore.DeleteTransaction | script.js:185-192 | the list keeps exactly the records with another id, the slot holds it, and "Transaction deleted." is reported |
| Store.TransactionStore.ConfirmAndDelete | script.js:164-169 | the Delete key removes the records only when confirmed; otherwise nothing changes |
| Store.TransactionStore.ClearAll | script.js:221-230 | a confirmed clear empties the list, saves it and leaves all figures 0 and neutral; an unconfirmed one changes nothing and reports nothing |

## Left out

- Rendering: element lookup, `displayTransaction`, `loadTransactions` (which only re-renders), `innerHTML`, focus, and keyboard shortcuts other than the Delete-key confirmation. Enter in an amount field only calls `addIncome`/`addExpense`, which `AddIncome`/`AddExpense` model; the other shortcuts move focus and do not change the list.
- Notification timing (`requestAnimationFrame`, `setTimeout`) and the `console.error` diagnostics (the missing-element message and the parse-failure message at start-up): a method returns the message and the error flag it would show; no log output is produced.
- The confirmation dialogs: each one's answer is a boolean parameter.
- `Date.now()`: the id is a parameter.
- `parseFloat` and `toFixed(2)`: the parsed amount is an `Option<real>`, and the currency strings are not produced. Sums are exact, so IEEE rounding is not modelled.
- Validation.ValidateIncome: `parseFloat` can return Infinity, which passes `isNaN(x) || x <= 0`. A real cannot be infinite, so the model does not capture accepting Infinity.
- Validation.ValidateExpense: the same Infinity gap as for income.
- JSON encoding and the storage API: the slot holds either a serialised list or text the parser rejects. Stored text that is valid JSON but not an array of records (such as `null` or `5`) is not modelled. Neither is a `setItem` failure such as a full quota.
- Records loaded from storage whose `type` is neither "Income" nor "Expense": `Kind` has two variants only. The code would count such records in neither total.
