/** The ledger's only entity: one recorded income or expense event. */
module Records {

  /** The `type` field of a record: the string "Income" or "Expense". */
  datatype Kind = Income | Expense

  /**
   * The object an entry form hands to `addTransaction`: every field of a
   * record except the id, which is assigned on insertion.
   */
  datatype Entry = Entry(description: string, amount: real, category: string, kind: Kind)

  /** A stored record. Amounts are exact reals; the direction is carried by `kind`. */
  datatype Transaction = Transaction(id: int, description: string, amount: real, category: string, kind: Kind)

  /** The category every income record carries. */
  const IncomeCategory: string := "Income"

  /** The record `addTransaction` builds from an entry and the id it was given. */
  function Stamp(id: int, e: Entry): (t: Transaction)
    ensures t.id == id
    ensures Entry(t.description, t.amount, t.category, t.kind) == e
  {
    Transaction(id, e.description, e.amount, e.category, e.kind)
  }

  /** The ledger invariant: every record has a strictly positive amount. */
  predicate AllPositive(ts: seq<Transaction>)
  {
    forall i :: 0 <= i < |ts| ==> ts[i].amount > 0.0
  }
}
