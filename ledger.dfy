/** The dashboard totals (the `totals` memo of App.tsx): pure folds over the
    two stores. */
module Ledger {
  import opened Types
  import opened Folds

  function TxAmount(t: Transaction): real { t.amount }

  function ExpenseAmount(e: Expense): real { e.amount }

  /** The filter condition `t => t.type === k`. */
  function IsType(k: TransactionType): Transaction -> bool
  {
    (t: Transaction) => t.kind == k
  }

  /** A transaction's amount if it has category `k`, else nothing: the
      reference definition of a per-category sum, without a filter. */
  function AmountIfType(k: TransactionType): Transaction -> real
  {
    (t: Transaction) => if t.kind == k then t.amount else 0.0
  }

  /** Sum of the amounts of the transactions of category `k`, as the source
      computes it: filter, then reduce. */
  function TypeTotal(ts: seq<Transaction>, k: TransactionType): real
  {
    Sum(Filter(ts, IsType(k)), TxAmount)
  }

  function Earnings(ts: seq<Transaction>): real { TypeTotal(ts, DeliveryCharge) }

  function Collections(ts: seq<Transaction>): real { TypeTotal(ts, Collection) }

  function ExpenseTotal(es: seq<Expense>): real { Sum(es, ExpenseAmount) }

  datatype Totals = Totals(earnings: real, collections: real, expenseTotal: real, netProfit: real)

  /** Profit is earnings less expenses; collected cash and payments are not part of it. */
  function ComputeTotals(ts: seq<Transaction>, es: seq<Expense>): Totals
  {
    Totals(Earnings(ts), Collections(ts), ExpenseTotal(es), Earnings(ts) - ExpenseTotal(es))
  }

  /** Empty stores give all-zero totals. */
  lemma TotalsOfEmpty()
    ensures ComputeTotals([], []) == Totals(0.0, 0.0, 0.0, 0.0)
  {
  }

  /** The filtered sum equals the sum over all transactions in which every
      transaction of another category contributes zero. */
  lemma {:induction false} TypeTotalCountsOnlyType(ts: seq<Transaction>, k: TransactionType)
    ensures TypeTotal(ts, k) == Sum(ts, AmountIfType(k))
  {
    if ts != [] {
      var init, t := ts[..|ts| - 1], ts[|ts| - 1];
      TypeTotalCountsOnlyType(init, k);
      if t.kind == k {
        assert Filter(ts, IsType(k)) == Filter(init, IsType(k)) + [t];
      } else {
        assert Filter(ts, IsType(k)) == Filter(init, IsType(k));
      }
    }
  }

  /** Per-category totals add up over a concatenation of transaction lists. */
  lemma TypeTotalAppend(a: seq<Transaction>, b: seq<Transaction>, k: TransactionType)
    ensures TypeTotal(a + b, k) == TypeTotal(a, k) + TypeTotal(b, k)
  {
    FilterAppend(a, b, IsType(k));
    SumAppend(Filter(a, IsType(k)), Filter(b, IsType(k)), TxAmount);
  }

  /** The total of a single transaction is its amount if it has the category, else 0. */
  lemma TypeTotalSingle(t: Transaction, k: TransactionType)
    ensures TypeTotal([t], k) == if t.kind == k then t.amount else 0.0
  {
    FilterSingleton(t, IsType(k));
    assert [t][..0] == [];
    if t.kind == k {
      assert Sum([t], TxAmount) == Sum([], TxAmount) + TxAmount(t);
    }
  }

  /** Appending a batch of transactions adds the batch's earnings and
      collections and lowers the profit by nothing but the batch's earnings. */
  lemma TotalsAppendTransactions(ts: seq<Transaction>, batch: seq<Transaction>, es: seq<Expense>)
    ensures var before, after := ComputeTotals(ts, es), ComputeTotals(ts + batch, es);
      && after.earnings == before.earnings + Earnings(batch)
      && after.collections == before.collections + Collections(batch)
      && after.expenseTotal == before.expenseTotal
      && after.netProfit == before.netProfit + Earnings(batch)
  {
    TypeTotalAppend(ts, batch, DeliveryCharge);
    TypeTotalAppend(ts, batch, Collection);
  }

  /** Inserting one transaction anywhere: only a delivery charge moves
      earnings and profit, only a collection moves collections, and a payment
      or an "other" entry moves nothing. */
  lemma TotalsInsertTransaction(a: seq<Transaction>, t: Transaction, b: seq<Transaction>, es: seq<Expense>)
    ensures var before, after := ComputeTotals(a + b, es), ComputeTotals(a + [t] + b, es);
      && after.earnings == before.earnings + (if t.kind == DeliveryCharge then t.amount else 0.0)
      && after.collections == before.collections + (if t.kind == Collection then t.amount else 0.0)
      && after.expenseTotal == before.expenseTotal
      && after.netProfit == before.netProfit + (if t.kind == DeliveryCharge then t.amount else 0.0)
  {
    forall k | k == DeliveryCharge || k == Collection
      ensures TypeTotal(a + [t] + b, k) == TypeTotal(a + b, k) + (if t.kind == k then t.amount else 0.0)
    {
      TypeTotalAppend(a + [t], b, k);
      TypeTotalAppend(a, [t], k);
      TypeTotalAppend(a, b, k);
      TypeTotalSingle(t, k);
    }
  }

  /** Adding an expense lowers the profit by its amount and leaves the
      transaction totals alone. */
  lemma TotalsAppendExpense(ts: seq<Transaction>, es: seq<Expense>, e: Expense)
    ensures var before, after := ComputeTotals(ts, es), ComputeTotals(ts, es + [e]);
      && after.earnings == before.earnings
      && after.collections == before.collections
      && after.expenseTotal == before.expenseTotal + e.amount
      && after.netProfit == before.netProfit - e.amount
  {
    assert (es + [e])[..|es + [e]| - 1] == es;
  }

  /** Removing one expense from anywhere raises the profit by its amount. */
  lemma TotalsRemoveExpense(ts: seq<Transaction>, a: seq<Expense>, e: Expense, b: seq<Expense>)
    ensures var before, after := ComputeTotals(ts, a + [e] + b), ComputeTotals(ts, a + b);
      && after.earnings == before.earnings
      && after.collections == before.collections
      && after.expenseTotal == before.expenseTotal - e.amount
      && after.netProfit == before.netProfit + e.amount
  {
    SumAppend(a + [e], b, ExpenseAmount);
    SumAppend(a, [e], ExpenseAmount);
    SumAppend(a, b, ExpenseAmount);
    assert [e][..0] == [];
  }

  /** A per-category total does not depend on the order of the transactions. */
  lemma TypeTotalPermutation(ts: seq<Transaction>, ts': seq<Transaction>, k: TransactionType)
    requires multiset(ts) == multiset(ts')
    ensures TypeTotal(ts, k) == TypeTotal(ts', k)
  {
    FilterPermutation(ts, ts', IsType(k));
    SumPermutation(Filter(ts, IsType(k)), Filter(ts', IsType(k)), TxAmount);
  }

  /** Totals do not depend on the order of either store. */
  lemma TotalsPermutation(ts: seq<Transaction>, ts': seq<Transaction>, es: seq<Expense>, es': seq<Expense>)
    requires multiset(ts) == multiset(ts') && multiset(es) == multiset(es')
    ensures ComputeTotals(ts, es) == ComputeTotals(ts', es')
  {
    TypeTotalPermutation(ts, ts', DeliveryCharge);
    TypeTotalPermutation(ts, ts', Collection);
    SumPermutation(es, es', ExpenseAmount);
  }

  /** With non-negative amounts, earnings and collections are non-negative
      and the profit never exceeds the earnings. */
  lemma TotalsBounds(ts: seq<Transaction>, es: seq<Expense>)
    requires forall i :: 0 <= i < |ts| ==> ts[i].amount >= 0.0
    requires forall i :: 0 <= i < |es| ==> es[i].amount >= 0.0
    ensures var r := ComputeTotals(ts, es);
      r.earnings >= 0.0 && r.collections >= 0.0 && r.expenseTotal >= 0.0 && r.netProfit <= r.earnings
  {
    forall k | k == DeliveryCharge || k == Collection
      ensures TypeTotal(ts, k) >= 0.0
    {
      var f := Filter(ts, IsType(k));
      forall i | 0 <= i < |f| ensures TxAmount(f[i]) >= 0.0 {
        assert f[i] in multiset(f);
        assert f[i] in ts;
      }
      SumNonNegative(f, TxAmount);
    }
    SumNonNegative(es, ExpenseAmount);
  }

  /** A worked example: a delivery charge of 120, a collection of 500, a
      payment of 50 and a fuel expense of 40 give earnings 120, collections
      500, expenses 40 and a profit of 80, whatever the dates and ids. */
  lemma ExampleTotals(d: Transaction, c: Transaction, p: Transaction, fuel: Expense)
    requires d.kind == DeliveryCharge && d.amount == 120.0
    requires c.kind == Collection && c.amount == 500.0
    requires p.kind == Payment && p.amount == 50.0
    requires fuel.amount == 40.0
    ensures ComputeTotals([d] + [c] + [p], [fuel]) == Totals(120.0, 500.0, 40.0, 80.0)
  {
    TypeTotalSingle(d, DeliveryCharge);
    TypeTotalSingle(d, Collection);
    TypeTotalSingle(c, DeliveryCharge);
    TypeTotalSingle(c, Collection);
    TypeTotalSingle(p, DeliveryCharge);
    TypeTotalSingle(p, Collection);
    TotalsAppendTransactions([d], [c], []);
    TotalsAppendTransactions([d] + [c], [p], []);
    TotalsAppendExpense([d] + [c] + [p], [], fuel);
    assert [] + [fuel] == [fuel];
  }
}
