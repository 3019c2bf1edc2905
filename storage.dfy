/**
 * The durable slot "expenseTransactions" and the start-up load. The slot's
 * text is abstract: either what serialising a list produced, or text the
 * parser rejects.
 */
module Storage {
  import opened Options
  import opened Records

  /** A value the slot can hold. */
  datatype Stored =
    | Serialized(records: seq<Transaction>)   // the text `JSON.stringify(transactions)` wrote
    | Unparsable(text: string)                // text `JSON.parse` throws on

  /** `JSON.stringify(transactions)`: always the whole list. */
  function Stringify(ts: seq<Transaction>): (v: Stored)
    ensures Parse(v) == Some(ts)
    ensures !Falsy(Some(v))
  {
    Serialized(ts)
  }

  /** `JSON.parse(raw)`: `None` stands for the exception. */
  function Parse(v: Stored): (r: Option<seq<Transaction>>)
    ensures v.Serialized? ==> r == Some(v.records)
    ensures v.Unparsable? ==> r == None
  {
    match v
    case Serialized(ts) => Some(ts)
    case Unparsable(_) => None
  }

  /** `raw ? ... : []`: a missing slot and the empty string are falsy. */
  predicate Falsy(slot: Option<Stored>)
  {
    slot == None || slot == Some(Unparsable(""))
  }

  /** The list and the slot after start-up. */
  datatype Loaded = Loaded(records: seq<Transaction>, slot: Option<Stored>)

  /**
   * Start-up: a falsy slot loads as the empty list and stays as it is; text
   * that parses loads as its list; text that does not parse is removed and
   * the list is empty.
   */
  function LoadFrom(slot: Option<Stored>): (r: Loaded)
    ensures forall ts :: slot == Some(Stringify(ts)) ==> r == Loaded(ts, slot)
    ensures slot.Some? && slot.value.Unparsable? && slot.value.text != "" ==> r == Loaded([], None)
    ensures Falsy(slot) ==> r == Loaded([], slot)
    ensures r.slot == slot || r.slot == None
    ensures r.records == [] || slot == Some(Stringify(r.records))
  {
    if Falsy(slot) then Loaded([], slot)
    else
      match Parse(slot.value)
      case Some(ts) => Loaded(ts, slot)
      case None => Loaded([], None)
  }
}
