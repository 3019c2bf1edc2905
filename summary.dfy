/**
 * `updateSummary`: total income, total expenses and the balance, derived
 * afresh from the whole list, and the three-way class of the balance.
 */
module Summary {
  import opened Records

  /** The class the balance display receives. */
  datatype BalanceClass = Positive | Negative | Neutral

  /** The three figures and the balance class, as one value. */
  datatype Totals = Totals(income: real, expenses: real, balance: real, status: BalanceClass)

  /** `filter((txn) => txn.type === kind)`: the records of one kind, in list order. */
  function OfKind(ts: seq<Transaction>, kind: Kind): (r: seq<Transaction>)
    ensures |r| <= |ts|
    ensures forall t :: t in r <==> t in ts && t.kind == kind
  {
    if ts == [] then []
    else (if ts[0].kind == kind then [ts[0]] else []) + OfKind(ts[1..], kind)
  }

  /** `reduce((sum, txn) => sum + txn.amount, 0)`: a left fold, so the last record is added last. */
  function SumAmounts(ts: seq<Transaction>): (r: real)
    ensures AllPositive(ts) ==> r >= 0.0
  {
    if ts == [] then 0.0 else SumAmounts(ts[..|ts| - 1]) + ts[|ts| - 1].amount
  }

  /** The income total: zero when the list holds no income record. */
  function TotalIncome(ts: seq<Transaction>): (r: real)
    ensures (forall i :: 0 <= i < |ts| ==> ts[i].kind != Income) ==> r == 0.0
  {
    OfKindNone(ts, Income);
    SumAmounts(OfKind(ts, Income))
  }

  /** The expense total: zero when the list holds no expense record. */
  function TotalExpenses(ts: seq<Transaction>): (r: real)
    ensures (forall i :: 0 <= i < |ts| ==> ts[i].kind != Expense) ==> r == 0.0
  {
    OfKindNone(ts, Expense);
    SumAmounts(OfKind(ts, Expense))
  }

  /** Income minus expenses, which is the signed one-pass sum `NetFlow`. */
  function Balance(ts: seq<Transaction>): (r: real)
    ensures r == NetFlow(ts)
  {
    BalanceIsNetFlow(ts);
    TotalIncome(ts) - TotalExpenses(ts)
  }

  /** The balance class: exactly one of the three, decided by the sign of the balance. */
  function Classify(balance: real): (c: BalanceClass)
    ensures c == Positive <==> balance > 0.0
    ensures c == Negative <==> balance < 0.0
    ensures c == Neutral <==> balance == 0.0
  {
    if balance > 0.0 then Positive
    else if balance < 0.0 then Negative
    else Neutral
  }

  /** What `updateSummary` puts on screen, as data. */
  function Summarize(ts: seq<Transaction>): (s: Totals)
    ensures s.balance == s.income - s.expenses
    ensures s.status == Positive <==> s.income > s.expenses
    ensures s.status == Negative <==> s.income < s.expenses
    ensures s.status == Neutral <==> s.income == s.expenses
  {
    var b := Balance(ts);
    Totals(TotalIncome(ts), TotalExpenses(ts), b, Classify(b))
  }

  /** A record's contribution to the balance: plus for income, minus for an expense. */
  function Signed(t: Transaction): real
  {
    match t.kind
    case Income => t.amount
    case Expense => -t.amount
  }

  /** An independent one-pass definition of the balance. */
  function NetFlow(ts: seq<Transaction>): real
  {
    if ts == [] then 0.0 else Signed(ts[0]) + NetFlow(ts[1..])
  }

  lemma {:induction false} SumAmountsAppend(a: seq<Transaction>, b: seq<Transaction>)
    ensures SumAmounts(a + b) == SumAmounts(a) + SumAmounts(b)
    decreases |b|
  {
    if b != [] {
      var n := |b| - 1;
      assert (a + b)[..|a + b| - 1] == a + b[..n];
      SumAmountsAppend(a, b[..n]);
    } else {
      assert a + b == a;
    }
  }

  lemma {:induction false} OfKindAppend(a: seq<Transaction>, b: seq<Transaction>, kind: Kind)
    ensures OfKind(a + b, kind) == OfKind(a, kind) + OfKind(b, kind)
  {
    if a == [] {
      assert a + b == b;
    } else {
      assert (a + b)[1..] == a[1..] + b;
      OfKindAppend(a[1..], b, kind);
    }
  }

  /** Both totals are additive over concatenating two lists. */
  lemma TotalsAppend(a: seq<Transaction>, b: seq<Transaction>)
    ensures TotalIncome(a + b) == TotalIncome(a) + TotalIncome(b)
    ensures TotalExpenses(a + b) == TotalExpenses(a) + TotalExpenses(b)
  {
    OfKindAppend(a, b, Income);
    OfKindAppend(a, b, Expense);
    SumAmountsAppend(OfKind(a, Income), OfKind(b, Income));
    SumAmountsAppend(OfKind(a, Expense), OfKind(b, Expense));
  }

  /** The balance is additive over concatenating two lists. */
  lemma BalanceAppend(a: seq<Transaction>, b: seq<Transaction>)
    ensures Balance(a + b) == Balance(a) + Balance(b)
  {
    TotalsAppend(a, b);
  }

  /** Appending one record adds its amount to the total of its own kind only. */
  lemma TotalsAppendOne(ts: seq<Transaction>, t: Transaction)
    ensures TotalIncome(ts + [t]) == TotalIncome(ts) + (if t.kind == Income then t.amount else 0.0)
    ensures TotalExpenses(ts + [t]) == TotalExpenses(ts) + (if t.kind == Expense then t.amount else 0.0)
  {
    TotalsAppend(ts, [t]);
    assert OfKind([t], Income) == if t.kind == Income then [t] else [];
    assert OfKind([t], Expense) == if t.kind == Expense then [t] else [];
    assert SumAmounts([t]) == SumAmounts([]) + t.amount;
  }

  /** The empty list sums to zero everywhere and is classified neutral. */
  lemma SummarizeEmpty()
    ensures Summarize([]) == Totals(0.0, 0.0, 0.0, Neutral)
  {
  }

  lemma {:induction false} SumAmountsPositive(ts: seq<Transaction>)
    requires AllPositive(ts)
    ensures SumAmounts(ts) >= 0.0
    ensures SumAmounts(ts) == 0.0 <==> ts == []
  {
    if ts != [] {
      SumAmountsPositive(ts[..|ts| - 1]);
    }
  }

  /**
   * With positive amounts, both totals are non-negative, and a total is zero
   * exactly when no record of that kind exists.
   */
  lemma TotalsNonNegative(ts: seq<Transaction>)
    requires AllPositive(ts)
    ensures TotalIncome(ts) >= 0.0 && TotalExpenses(ts) >= 0.0
    ensures TotalIncome(ts) == 0.0 <==> forall i :: 0 <= i < |ts| ==> ts[i].kind != Income
    ensures TotalExpenses(ts) == 0.0 <==> forall i :: 0 <= i < |ts| ==> ts[i].kind != Expense
  {
    forall kind
      ensures AllPositive(OfKind(ts, kind))
    {
      var r := OfKind(ts, kind);
      forall i | 0 <= i < |r| ensures r[i].amount > 0.0 {
        assert r[i] in r;
      }
    }
    SumAmountsPositive(OfKind(ts, Income));
    SumAmountsPositive(OfKind(ts, Expense));
    OfKindNone(ts, Income);
    OfKindNone(ts, Expense);
  }

  lemma {:induction false} OfKindNone(ts: seq<Transaction>, kind: Kind)
    ensures (forall i :: 0 <= i < |ts| ==> ts[i].kind != kind) ==> OfKind(ts, kind) == []
  {
    if ts != [] {
      OfKindNone(ts[1..], kind);
      assert forall i :: 0 <= i < |ts| - 1 ==> ts[1..][i] == ts[i + 1];
    }
  }

  /** The balance equals the one-pass signed sum of all records. */
  lemma {:induction false} BalanceIsNetFlow(ts: seq<Transaction>)
    ensures TotalIncome(ts) - TotalExpenses(ts) == NetFlow(ts)
  {
    if ts != [] {
      BalanceIsNetFlow(ts[1..]);
      assert ts == [ts[0]] + ts[1..];
      TotalsAppend([ts[0]], ts[1..]);
      TotalsAppendOne([], ts[0]);
    }
  }
}
