/**
 * The summary cards: income, expenses and balance of the month's list,
 * computed by filtering on the type tag and summing with `reduce`.
 */
module SummaryCards {
  import opened Types

  /** `transactions.filter((t) => t.type === tag)`. */
  function Filter(ts: seq<Transaction>, tag: TxType): (r: seq<Transaction>)
    ensures |r| <= |ts|
    ensures forall x :: x in r <==> x in ts && x.txType == tag
  {
    if ts == [] then []
    else if ts[0].txType == tag then [ts[0]] + Filter(ts[1..], tag)
    else Filter(ts[1..], tag)
  }

  /** Each record of the tag is kept as often as it occurs; the others not at all. */
  lemma {:induction false} FilterCounts(ts: seq<Transaction>, tag: TxType)
    ensures forall x :: multiset(Filter(ts, tag))[x] == if x.txType == tag then multiset(ts)[x] else 0
  {
    if ts != [] {
      assert ts == [ts[0]] + ts[1..];
      FilterCounts(ts[1..], tag);
    }
  }

  /** The filter keeps the order of the list: it distributes over concatenation. */
  lemma {:induction false} FilterAppend(a: seq<Transaction>, b: seq<Transaction>, tag: TxType)
    ensures Filter(a + b, tag) == Filter(a, tag) + Filter(b, tag)
  {
    if a == [] {
      assert a + b == b;
    } else {
      assert (a + b)[1..] == a[1..] + b;
      FilterAppend(a[1..], b, tag);
    }
  }

  /** `.reduce((acc, t) => acc + t.amount, acc)`: a left fold from `acc`. */
  function Reduce(ts: seq<Transaction>, acc: real): real
  {
    if ts == [] then acc else Reduce(ts[1..], acc + ts[0].amount)
  }

  /** What one record adds to the total of `tag`: its amount, or nothing. */
  function Contribution(t: Transaction, tag: TxType): real
  {
    if t.txType == tag then t.amount else 0.0
  }

  /** Reference definition: the amounts of the records tagged `tag`, added up. */
  function TotalOf(ts: seq<Transaction>, tag: TxType): real
  {
    if ts == [] then 0.0 else Contribution(ts[0], tag) + TotalOf(ts[1..], tag)
  }

  datatype Totals = Totals(totalIncome: real, totalExpenses: real, balance: real)

  /** The `useMemo` block of the summary cards. */
  function Summarize(ts: seq<Transaction>): (r: Totals)
    ensures r.balance == r.totalIncome - r.totalExpenses
  {
    var income := Reduce(Filter(ts, Receita), 0.0);
    var expenses := Reduce(Filter(ts, Despesa), 0.0);
    Totals(income, expenses, income - expenses)
  }

  // ---------------------------------------------------------------------
  // Properties of the aggregation

  lemma {:induction false} ReduceShifts(ts: seq<Transaction>, acc: real)
    ensures Reduce(ts, acc) == acc + Reduce(ts, 0.0)
  {
    if ts != [] {
      ReduceShifts(ts[1..], acc + ts[0].amount);
      ReduceShifts(ts[1..], ts[0].amount);
    }
  }

  /** Filter-then-reduce computes the reference total. */
  lemma {:induction false} FilterReduceIsTotal(ts: seq<Transaction>, tag: TxType)
    ensures Reduce(Filter(ts, tag), 0.0) == TotalOf(ts, tag)
  {
    if ts != [] {
      FilterReduceIsTotal(ts[1..], tag);
      if ts[0].txType == tag {
        var rest := Filter(ts[1..], tag);
        assert ([ts[0]] + rest)[1..] == rest;
        ReduceShifts(rest, ts[0].amount);
      }
    }
  }

  /**
   * `totalIncome` is exactly the sum of the `receita` amounts and
   * `totalExpenses` exactly the sum of the `despesa` amounts.
   */
  lemma {:induction false} SummarizeIsTotals(ts: seq<Transaction>)
    ensures Summarize(ts).totalIncome == TotalOf(ts, Receita)
    ensures Summarize(ts).totalExpenses == TotalOf(ts, Despesa)
  {
    FilterReduceIsTotal(ts, Receita);
    FilterReduceIsTotal(ts, Despesa);
  }

  /** The empty list gives zero income, zero expenses and zero balance. */
  lemma EmptyListSummary()
    ensures Summarize([]) == Totals(0.0, 0.0, 0.0)
  {
  }

  lemma {:induction false} TotalOfAppend(a: seq<Transaction>, b: seq<Transaction>, tag: TxType)
    ensures TotalOf(a + b, tag) == TotalOf(a, tag) + TotalOf(b, tag)
  {
    if a == [] {
      assert a + b == b;
    } else {
      assert (a + b)[1..] == a[1..] + b;
      TotalOfAppend(a[1..], b, tag);
    }
  }

  /** The aggregation distributes over concatenation. */
  lemma {:induction false} SummarizeAppend(a: seq<Transaction>, b: seq<Transaction>)
    ensures Summarize(a + b).totalIncome == Summarize(a).totalIncome + Summarize(b).totalIncome
    ensures Summarize(a + b).totalExpenses == Summarize(a).totalExpenses + Summarize(b).totalExpenses
  {
    SummarizeIsTotals(a + b);
    SummarizeIsTotals(a);
    SummarizeIsTotals(b);
    TotalOfAppend(a, b, Receita);
    TotalOfAppend(a, b, Despesa);
  }

  /** A single record counts toward its own tag only. */
  lemma SummarizeSingle(t: Transaction)
    ensures Summarize([t]).totalIncome == Contribution(t, Receita)
    ensures Summarize([t]).totalExpenses == Contribution(t, Despesa)
  {
    SummarizeIsTotals([t]);
    assert [t][1..] == [];
  }

  /** Appending one `despesa` raises the expenses by its amount and leaves the income alone. */
  lemma AppendExpense(ts: seq<Transaction>, t: Transaction)
    requires t.txType == Despesa
    ensures Summarize(ts + [t]).totalExpenses == Summarize(ts).totalExpenses + t.amount
    ensures Summarize(ts + [t]).totalIncome == Summarize(ts).totalIncome
    ensures Summarize(ts + [t]).balance == Summarize(ts).balance - t.amount
  {
    SummarizeAppend(ts, [t]);
    SummarizeSingle(t);
  }

  /** Appending one `receita` raises the income by its amount and leaves the expenses alone. */
  lemma AppendIncome(ts: seq<Transaction>, t: Transaction)
    requires t.txType == Receita
    ensures Summarize(ts + [t]).totalIncome == Summarize(ts).totalIncome + t.amount
    ensures Summarize(ts + [t]).totalExpenses == Summarize(ts).totalExpenses
  {
    SummarizeAppend(ts, [t]);
    SummarizeSingle(t);
  }

  lemma {:induction false} TotalOfNonNegative(ts: seq<Transaction>, tag: TxType)
    requires forall i :: 0 <= i < |ts| ==> ts[i].amount > 0.0
    ensures TotalOf(ts, tag) >= 0.0
  {
    if ts != [] {
      TotalOfNonNegative(ts[1..], tag);
    }
  }

  /** With every amount positive, as the schema guarantees, both totals are non-negative. */
  lemma TotalsNonNegative(ts: seq<Transaction>)
    requires forall i :: 0 <= i < |ts| ==> ts[i].amount > 0.0
    ensures Summarize(ts).totalIncome >= 0.0 && Summarize(ts).totalExpenses >= 0.0
  {
    SummarizeIsTotals(ts);
    TotalOfNonNegative(ts, Receita);
    TotalOfNonNegative(ts, Despesa);
  }

  // ---------------------------------------------------------------------
  // What the component renders

  /** `text-gray-800` for a balance of at least zero, `text-red-600` below. */
  datatype BalanceStyle = Neutral | Negative

  datatype SummaryView =
    | Skeletons
    | Cards(income: real, expenses: real, balance: real, balanceStyle: BalanceStyle)

  function View(ts: seq<Transaction>, isLoading: bool): (v: SummaryView)
    ensures v.Skeletons? <==> isLoading
    ensures v.Cards? ==> v.income == Summarize(ts).totalIncome && v.expenses == Summarize(ts).totalExpenses
    ensures v.Cards? ==> v.balance == v.income - v.expenses
    ensures v.Cards? ==> (v.balanceStyle == Negative <==> v.income < v.expenses)
  {
    if isLoading then Skeletons
    else
      var totals := Summarize(ts);
      Cards(totals.totalIncome, totals.totalExpenses, totals.balance,
            if totals.balance >= 0.0 then Neutral else Negative)
  }

  /** The cards show the sum of the `receita` amounts and the sum of the `despesa` amounts. */
  lemma ViewShowsTotals(ts: seq<Transaction>)
    ensures View(ts, false).income == TotalOf(ts, Receita)
    ensures View(ts, false).expenses == TotalOf(ts, Despesa)
  {
    SummarizeIsTotals(ts);
  }

  /** The balance is shown in red iff it is below zero. */
  lemma RedBalanceIffNegative(ts: seq<Transaction>)
    ensures View(ts, false).balanceStyle == Negative <==> Summarize(ts).balance < 0.0
  {
  }

  /** One `despesa` of 4.50 gives income 0, expenses 4.50 and balance -4.50. */
  lemma SingleExpenseScenario(t: Transaction)
    requires t.txType == Despesa && t.amount == 4.5
    ensures Summarize([t]) == Totals(0.0, 4.5, -4.5)
  {
    SummarizeSingle(t);
  }

  /** A `receita` of 100 and a `despesa` of 30 give income 100, expenses 30 and balance 70. */
  lemma IncomeAndExpenseScenario(a: Transaction, b: Transaction)
    requires a.txType == Receita && a.amount == 100.0
    requires b.txType == Despesa && b.amount == 30.0
    ensures Summarize([a, b]) == Totals(100.0, 30.0, 70.0)
  {
    SummarizeAppend([a], [b]);
    assert [a] + [b] == [a, b];
    SummarizeSingle(a);
    SummarizeSingle(b);
  }
}
