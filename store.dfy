/**
 * The module-level `transactions` array and its storage slot, as one
 * object. The four user actions change the list as `Ledger.Apply`
 * describes; whenever a method writes the slot, the slot afterwards
 * equals the list; refused or unconfirmed actions leave the slot alone.
 */
module Store {
  import opened Options
  import opened Records
  import opened Validation
  import opened Summary
  import opened Storage
  import opened Ledger

  /** The status message shown after an action, and whether it is shown as an error. */
  datatype Notice = Notice(message: string, isError: bool)

  const IncomeRejected := Notice("Enter a valid income description and amount.", true)
  const IncomeAdded := Notice("Income added successfully!", false)
  const ExpenseRejected := Notice("Provide valid expense details.", true)
  const ExpenseAdded := Notice("Expense added successfully!", false)
  const TransactionDeleted := Notice("Transaction deleted.", false)
  const AllCleared := Notice("All transactions cleared.", false)

  class TransactionStore {
    /** The in-memory list, in insertion order. */
    var transactions: seq<Transaction>
    /** The value of the storage slot; `None` when the key is absent. */
    var slot: Option<Stored>

    /** The slot holds exactly the current list. */
    predicate Persisted()
      reads this
    {
      slot == Some(Stringify(transactions))
    }

    /** The figures `updateSummary` displays for the current list. */
    function Figures(): Totals
      reads this
    {
      Summarize(transactions)
    }

    /**
     * Start-up: read the slot; falsy means empty; a parse failure clears
     * the slot and leaves the list empty.
     */
    constructor Load(stored: Option<Stored>)
      ensures transactions == LoadFrom(stored).records
      ensures slot == LoadFrom(stored).slot
    {
      transactions := [];
      slot := stored;
      if !Falsy(stored) {
        match Parse(stored.value)
        case Some(ts) =>
          transactions := ts;
        case None =>
          slot := None;
          transactions := [];
      }
    }

    /** Overwrites the slot with the whole list. */
    method SaveTransactions()
      modifies this`slot
      ensures Persisted()
    {
      slot := Some(Stringify(transactions));
    }

    /** Appends the record built from `entry` with the given id, then saves. */
    method AddTransaction(id: int, entry: Entry)
      modifies this
      ensures transactions == old(transactions) + [Stamp(id, entry)]
      ensures Persisted()
    {
      transactions := transactions + [Stamp(id, entry)];
      SaveTransactions();
    }

    /**
     * The income form. A refused entry changes neither the list nor the
     * slot; an accepted one is appended and saved.
     */
    method AddIncome(id: int, description: string, amount: Option<real>) returns (notice: Notice)
      modifies this
      ensures transactions == Apply(old(transactions), EnterIncome(id, description, amount))
      ensures ValidateIncome(description, amount).None? ==> slot == old(slot) && notice == IncomeRejected
      ensures ValidateIncome(description, amount).Some? ==> Persisted() && notice == IncomeAdded
      ensures AllPositive(old(transactions)) ==> AllPositive(transactions)
    {
      var entry := ValidateIncome(description, amount);
      if entry.None? {
        return IncomeRejected;
      }
      AddTransaction(id, entry.value);
      notice := IncomeAdded;
      assert transactions == Apply(old(transactions), EnterIncome(id, description, amount));
      if AllPositive(old(transactions)) {
        ApplyKeepsPositive(old(transactions), EnterIncome(id, description, amount));
      }
    }

    /**
     * The expense form. A refused entry changes neither the list nor the
     * slot; an accepted one is appended and saved.
     */
    method AddExpense(id: int, description: string, category: string, amount: Option<real>) returns (notice: Notice)
      modifies this
      ensures transactions == Apply(old(transactions), EnterExpense(id, description, category, amount))
      ensures ValidateExpense(description, category, amount).None? ==> slot == old(slot) && notice == ExpenseRejected
      ensures ValidateExpense(description, category, amount).Some? ==> Persisted() && notice == ExpenseAdded
      ensures AllPositive(old(transactions)) ==> AllPositive(transactions)
    {
      var entry := ValidateExpense(description, category, amount);
      if entry.None? {
        return ExpenseRejected;
      }
      AddTransaction(id, entry.value);
      notice := ExpenseAdded;
      assert transactions == Apply(old(transactions), EnterExpense(id, description, category, amount));
      if AllPositive(old(transactions)) {
        ApplyKeepsPositive(old(transactions), EnterExpense(id, description, category, amount));
      }
    }

    /** Removes every record carrying `id` (possibly none), then saves. */
    method DeleteTransaction(id: int) returns (notice: Notice)
      modifies this
      ensures transactions == Apply(old(transactions), Remove(id))
      ensures Persisted() && notice == TransactionDeleted
      ensures AllPositive(old(transactions)) ==> AllPositive(transactions)
    {
      transactions := Without(transactions, id);
      SaveTransactions();
      notice := TransactionDeleted;
      if AllPositive(old(transactions)) {
        ApplyKeepsPositive(old(transactions), Remove(id));
      }
    }

    /** The Delete key on a row: deletes only when the dialog was confirmed. */
    method ConfirmAndDelete(id: int, confirmed: bool) returns (notice: Option<Notice>)
      modifies this
      ensures confirmed ==> transactions == Without(old(transactions), id) && Persisted()
                            && notice == Some(TransactionDeleted)
      ensures !confirmed ==> unchanged(this) && notice == None
    {
      notice := None;
      if confirmed {
        var n := DeleteTransaction(id);
        notice := Some(n);
      }
    }

    /**
     * Clears the list when the dialog was confirmed, then saves; otherwise
     * returns at once without a message.
     */
    method ClearAll(confirmed: bool) returns (notice: Option<Notice>)
      modifies this
      ensures transactions == Apply(old(transactions), ClearRequest(confirmed))
      ensures confirmed ==> Persisted() && Figures() == Totals(0.0, 0.0, 0.0, Neutral)
                            && notice == Some(AllCleared)
      ensures !confirmed ==> slot == old(slot) && notice == None
    {
      if !confirmed {
        return None;
      }
      transactions := [];
      SaveTransactions();
      notice := Some(AllCleared);
      ClearEffect(old(transactions), confirmed);
    }
  }
}
