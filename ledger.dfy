/**
 * The transaction list as a value: each user action is a transition from
 * one list to the next. The store class in module Store is proved to make
 * exactly these transitions.
 */
module Ledger {
  import opened Options
  import opened Records
  import opened Text
  import opened Validation
  import opened Summary

  /** One user action. Ids come from the clock and confirmations from a dialog, so both are inputs. */
  datatype Action =
    | EnterIncome(id: int, description: string, amount: Option<real>)
    | EnterExpense(id: int, description: string, category: string, amount: Option<real>)
    | Remove(id: int)
    | ClearRequest(confirmed: bool)

  /** `filter((txn) => txn.id !== id)`: every record whose id differs, in list order. */
  function Without(ts: seq<Transaction>, id: int): (r: seq<Transaction>)
    ensures |r| <= |ts|
    ensures forall t :: t in r <==> t in ts && t.id != id
  {
    if ts == [] then []
    else (if ts[0].id != id then [ts[0]] else []) + Without(ts[1..], id)
  }

  /**
   * The list after one action: an entry adds at most one record, at the
   * end, with the action's id and a positive amount; delete and clear only
   * drop records.
   */
  function Apply(ts: seq<Transaction>, a: Action): (r: seq<Transaction>)
    ensures a.EnterIncome? || a.EnterExpense? ==>
      r == ts || (|r| == |ts| + 1 && r[..|ts|] == ts && r[|ts|].id == a.id && r[|ts|].amount > 0.0)
    ensures a.Remove? || a.ClearRequest? ==> |r| <= |ts| && forall t :: t in r ==> t in ts
  {
    match a
    case EnterIncome(id, description, amount) =>
      (match ValidateIncome(description, amount)
       case Some(e) => ts + [Stamp(id, e)]
       case None => ts)
    case EnterExpense(id, description, category, amount) =>
      (match ValidateExpense(description, category, amount)
       case Some(e) => ts + [Stamp(id, e)]
       case None => ts)
    case Remove(id) => Without(ts, id)
    case ClearRequest(confirmed) => if confirmed then [] else ts
  }

  /** The list after a run of actions, first to last; each action adds at most one record. */
  function Run(ts: seq<Transaction>, actions: seq<Action>): (r: seq<Transaction>)
    ensures |r| <= |ts| + |actions|
    decreases |actions|
  {
    if actions == [] then ts else Run(Apply(ts, actions[0]), actions[1..])
  }

  /**
   * An income entry is refused, leaving the list as it was, exactly when the
   * description is all white space or the amount is NaN or not positive;
   * otherwise one record is appended at the end, with the trimmed
   * description, the amount, category "Income" and kind Income.
   */
  lemma EnterIncomeEffect(ts: seq<Transaction>, id: int, description: string, amount: Option<real>)
    ensures AllWhitespace(description) || amount.None? || amount.value <= 0.0 ==>
      Apply(ts, EnterIncome(id, description, amount)) == ts
    ensures !AllWhitespace(description) && amount.Some? && amount.value > 0.0 ==>
      Apply(ts, EnterIncome(id, description, amount))
        == ts + [Transaction(id, Trim(description), amount.value, IncomeCategory, Income)]
  {
  }

  /**
   * An expense entry is refused, leaving the list as it was, exactly when the
   * description is all white space, the category is empty, or the amount is
   * NaN or not positive; otherwise one record is appended at the end with
   * the given category and kind Expense.
   */
  lemma EnterExpenseEffect(ts: seq<Transaction>, id: int, description: string, category: string, amount: Option<real>)
    ensures AllWhitespace(description) || category == [] || amount.None? || amount.value <= 0.0 ==>
      Apply(ts, EnterExpense(id, description, category, amount)) == ts
    ensures !AllWhitespace(description) && category != [] && amount.Some? && amount.value > 0.0 ==>
      Apply(ts, EnterExpense(id, description, category, amount))
        == ts + [Transaction(id, Trim(description), amount.value, category, Expense)]
  {
  }

  /** Filtering distributes over concatenation, so it keeps the surviving records in their order. */
  lemma {:induction false} WithoutAppend(a: seq<Transaction>, b: seq<Transaction>, id: int)
    ensures Without(a + b, id) == Without(a, id) + Without(b, id)
  {
    if a == [] {
      assert a + b == b;
    } else {
      assert (a + b)[1..] == a[1..] + b;
      WithoutAppend(a[1..], b, id);
    }
  }

  /** A list with no record carrying `id` is left unchanged. */
  lemma {:induction false} WithoutAbsent(ts: seq<Transaction>, id: int)
    requires forall i :: 0 <= i < |ts| ==> ts[i].id != id
    ensures Without(ts, id) == ts
  {
    if ts != [] {
      WithoutAbsent(ts[1..], id);
    }
  }

  /** Deleting the same id twice gives the list deleting it once gives. */
  lemma WithoutIdempotent(ts: seq<Transaction>, id: int)
    ensures Without(Without(ts, id), id) == Without(ts, id)
  {
    var r := Without(ts, id);
    forall i | 0 <= i < |r| ensures r[i].id != id {
      assert r[i] in r;
    }
    WithoutAbsent(r, id);
  }

  /** Every action keeps every amount positive. */
  lemma ApplyKeepsPositive(ts: seq<Transaction>, a: Action)
    requires AllPositive(ts)
    ensures AllPositive(Apply(ts, a))
  {
    var r := Apply(ts, a);
    if a.Remove? {
      forall i | 0 <= i < |r| ensures r[i].amount > 0.0 {
        assert r[i] in ts;
      }
    }
  }

  /** Records only enter through the validated forms, so the invariant holds after any run that starts from a list that satisfies it. */
  lemma {:induction false} RunKeepsPositive(ts: seq<Transaction>, actions: seq<Action>)
    requires AllPositive(ts)
    ensures AllPositive(Run(ts, actions))
    decreases |actions|
  {
    if actions != [] {
      ApplyKeepsPositive(ts, actions[0]);
      RunKeepsPositive(Apply(ts, actions[0]), actions[1..]);
    }
  }

  /** A confirmed clear leaves no records and all three figures at zero, classified neutral; an unconfirmed one changes nothing. */
  lemma ClearEffect(ts: seq<Transaction>, confirmed: bool)
    ensures confirmed ==>
      Apply(ts, ClearRequest(confirmed)) == [] &&
      Summarize(Apply(ts, ClearRequest(confirmed))) == Totals(0.0, 0.0, 0.0, Neutral)
    ensures !confirmed ==> Apply(ts, ClearRequest(confirmed)) == ts
  {
    SummarizeEmpty();
  }

  /**
   * Salary 5000, Groceries 1200 (Food), Rent 2000 (Housing): 5000 in, 3200
   * out, 1800 positive, whatever the (unpadded) descriptions are.
   */
  lemma ScenarioSalaryGroceriesRent(salary: string, groceries: string, rent: string)
    requires Unpadded(salary) && Unpadded(groceries) && Unpadded(rent)
    ensures Summarize(Run([], [EnterIncome(1, salary, Some(5000.0)),
                               EnterExpense(2, groceries, "Food", Some(1200.0)),
                               EnterExpense(3, rent, "Housing", Some(2000.0))]))
         == Totals(5000.0, 3200.0, 1800.0, Positive)
  {
    var a1 := EnterIncome(1, salary, Some(5000.0));
    var a2 := EnterExpense(2, groceries, "Food", Some(1200.0));
    var a3 := EnterExpense(3, rent, "Housing", Some(2000.0));
    var t1 := Transaction(1, salary, 5000.0, IncomeCategory, Income);
    var t2 := Transaction(2, groceries, 1200.0, "Food", Expense);
    var t3 := Transaction(3, rent, 2000.0, "Housing", Expense);
    assert Run([], [a1, a2, a3]) == [t1, t2, t3] by {
      assert Apply([], a1) == [t1] by { AcceptUnpadded([], a1); }
      assert Apply([t1], a2) == [t1, t2] by { AcceptUnpadded([t1], a2); }
      assert Apply([t1, t2], a3) == [t1, t2, t3] by { AcceptUnpadded([t1, t2], a3); }
      RunThreeAccepted(a1, a2, a3, t1, t2, t3);
    }
    TotalsOfThree(t1, t2, t3);
  }

  lemma RunThreeAccepted(a1: Action, a2: Action, a3: Action, t1: Transaction, t2: Transaction, t3: Transaction)
    requires Apply([], a1) == [t1] && Apply([t1], a2) == [t1, t2] && Apply([t1, t2], a3) == [t1, t2, t3]
    ensures Run([], [a1, a2, a3]) == [t1, t2, t3]
  {
    RunThree([], a1, a2, a3);
  }

  /** The totals of one income followed by two expenses. */
  lemma TotalsOfThree(t1: Transaction, t2: Transaction, t3: Transaction)
    requires t1.kind == Income && t2.kind == Expense && t3.kind == Expense
    ensures TotalIncome([t1, t2, t3]) == t1.amount
    ensures TotalExpenses([t1, t2, t3]) == t2.amount + t3.amount
  {
    var l1 := [] + [t1];
    var l2 := l1 + [t2];
    var l3 := l2 + [t3];
    assert TotalIncome(l1) == t1.amount && TotalExpenses(l1) == 0.0 by {
      TotalsAppendOne([], t1);
    }
    assert TotalIncome(l2) == t1.amount && TotalExpenses(l2) == t2.amount by {
      TotalsAppendOne(l1, t2);
    }
    assert TotalIncome(l3) == t1.amount && TotalExpenses(l3) == t2.amount + t3.amount by {
      TotalsAppendOne(l2, t3);
    }
    assert l3 == [t1, t2, t3];
  }

  /** A single expense of 150 (Food) with no income: balance -150, classified negative. */
  lemma ScenarioCoffeeOnly(coffee: string)
    requires Unpadded(coffee)
    ensures Summarize(Run([], [EnterExpense(1, coffee, "Food", Some(150.0))]))
         == Totals(0.0, 150.0, -150.0, Negative)
  {
    var a1 := EnterExpense(1, coffee, "Food", Some(150.0));
    var l1 := [] + [Transaction(1, coffee, 150.0, "Food", Expense)];
    assert Run([], [a1]) == l1 by {
      AcceptUnpadded([], a1);
      assert [a1][1..] == [];
    }
    TotalsAppendOne([], l1[0]);
  }

  /** Income 100 and an expense of 100: balance 0, classified neutral. */
  lemma ScenarioBreakEven(income: string, expense: string)
    requires Unpadded(income) && Unpadded(expense)
    ensures Summarize(Run([], [EnterIncome(1, income, Some(100.0)),
                               EnterExpense(2, expense, "Food", Some(100.0))])).status
         == Neutral
  {
    var a1 := EnterIncome(1, income, Some(100.0));
    var a2 := EnterExpense(2, expense, "Food", Some(100.0));
    var t1 := Transaction(1, income, 100.0, IncomeCategory, Income);
    var t2 := Transaction(2, expense, 100.0, "Food", Expense);
    assert Run([], [a1, a2]) == [t1, t2] by {
      assert Apply([], a1) == [t1] by { AcceptUnpadded([], a1); }
      assert Apply([t1], a2) == [t1, t2] by { AcceptUnpadded([t1], a2); }
      RunTwoAccepted(a1, a2, t1, t2);
    }
    TotalsOfTwo(t1, t2);
  }

  lemma RunTwoAccepted(a1: Action, a2: Action, t1: Transaction, t2: Transaction)
    requires Apply([], a1) == [t1] && Apply([t1], a2) == [t1, t2]
    ensures Run([], [a1, a2]) == [t1, t2]
  {
    RunSnoc([], [], a1);
    RunSnoc([], [a1], a2);
    assert [a1, a2] == [a1] + [a2] && [a1] == [] + [a1];
  }

  /** The totals of one income followed by one expense. */
  lemma TotalsOfTwo(t1: Transaction, t2: Transaction)
    requires t1.kind == Income && t2.kind == Expense
    ensures TotalIncome([t1, t2]) == t1.amount
    ensures TotalExpenses([t1, t2]) == t2.amount
  {
    var l1 := [] + [t1];
    var l2 := l1 + [t2];
    assert TotalIncome(l1) == t1.amount && TotalExpenses(l1) == 0.0 by {
      TotalsAppendOne([], t1);
    }
    assert TotalIncome(l2) == t1.amount && TotalExpenses(l2) == t2.amount by {
      TotalsAppendOne(l1, t2);
    }
    assert l2 == [t1, t2];
  }

  /** Unfolds `Run` over three actions. */
  lemma RunThree(ts: seq<Transaction>, a1: Action, a2: Action, a3: Action)
    ensures Run(ts, [a1, a2, a3]) == Apply(Apply(Apply(ts, a1), a2), a3)
  {
    RunSnoc(ts, [], a1);
    RunSnoc(ts, [a1], a2);
    RunSnoc(ts, [a1, a2], a3);
    assert [a1, a2, a3] == [a1, a2] + [a3] && [a1, a2] == [a1] + [a2] && [a1] == [] + [a1];
  }

  /** An entry whose description has no white space at either end, with a positive amount (and a category, for an expense), is stored as given. */
  lemma AcceptUnpadded(ts: seq<Transaction>, a: Action)
    requires a.EnterIncome? || a.EnterExpense?
    requires Unpadded(a.description)
    requires a.amount.Some? && a.amount.value > 0.0
    requires a.EnterExpense? ==> a.category != []
    ensures Apply(ts, a) == ts + [Transaction(a.id, a.description, a.amount.value,
                                              if a.EnterIncome? then IncomeCategory else a.category,
                                              if a.EnterIncome? then Income else Expense)]
  {
    TrimUnpadded(a.description);
    if a.EnterIncome? {
      EnterIncomeEffect(ts, a.id, a.description, a.amount);
    } else {
      EnterExpenseEffect(ts, a.id, a.description, a.category, a.amount);
    }
  }

  /** Running one more action applies it to the list the earlier ones left. */
  lemma {:induction false} RunSnoc(ts: seq<Transaction>, actions: seq<Action>, a: Action)
    ensures Run(ts, actions + [a]) == Apply(Run(ts, actions), a)
    decreases |actions|
  {
    if actions == [] {
      assert ([] + [a])[1..] == [];
    } else {
      assert (actions + [a])[1..] == actions[1..] + [a];
      RunSnoc(Apply(ts, actions[0]), actions[1..], a);
    }
  }
}
