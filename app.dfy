/** The session state of the dashboard (App.tsx): two ordered stores that
    the event handlers replace, and the totals read from them. */
module App {
  import opened Types
  import opened Folds
  import opened Ledger
  import opened Normalizer

  /** The filter condition `t => t.id !== id` of `removeTransaction`. */
  function TransactionIdIsNot(id: string): Transaction -> bool
  {
    (t: Transaction) => t.id != id
  }

  /** The filter condition `e => e.id !== id` of `removeExpense`. */
  function ExpenseIdIsNot(id: string): Expense -> bool
  {
    (e: Expense) => e.id != id
  }

  /** The transactions kept by `removeTransaction(id)`: every entry with that
      id goes, all others stay with their multiplicity. */
  function WithoutTransaction(ts: seq<Transaction>, id: string): (r: seq<Transaction>)
    ensures forall i :: 0 <= i < |r| ==> r[i].id != id
    ensures forall t :: multiset(r)[t] == if t.id == id then 0 else multiset(ts)[t]
  {
    Filter(ts, TransactionIdIsNot(id))
  }

  /** The expenses kept by `removeExpense(id)`. */
  function WithoutExpense(es: seq<Expense>, id: string): (r: seq<Expense>)
    ensures forall i :: 0 <= i < |r| ==> r[i].id != id
    ensures forall e :: multiset(r)[e] == if e.id == id then 0 else multiset(es)[e]
  {
    Filter(es, ExpenseIdIsNot(id))
  }

  /** Removing an id that no transaction carries changes nothing. */
  lemma RemoveAbsentTransaction(ts: seq<Transaction>, id: string)
    requires forall i :: 0 <= i < |ts| ==> ts[i].id != id
    ensures WithoutTransaction(ts, id) == ts
  {
    FilterKeepsAll(ts, TransactionIdIsNot(id));
  }

  /** Removing an id that no expense carries changes nothing. */
  lemma RemoveAbsentExpense(es: seq<Expense>, id: string)
    requires forall i :: 0 <= i < |es| ==> es[i].id != id
    ensures WithoutExpense(es, id) == es
  {
    FilterKeepsAll(es, ExpenseIdIsNot(id));
  }

  /** Removing the id of a transaction that is the only one with that id
      takes out that one entry and keeps the rest in order. */
  lemma RemoveUniqueTransaction(a: seq<Transaction>, t: Transaction, b: seq<Transaction>)
    requires forall i :: 0 <= i < |a| ==> a[i].id != t.id
    requires forall i :: 0 <= i < |b| ==> b[i].id != t.id
    ensures WithoutTransaction(a + [t] + b, t.id) == a + b
    ensures |WithoutTransaction(a + [t] + b, t.id)| == |a + [t] + b| - 1
  {
    FilterDropsOne(a, t, b, TransactionIdIsNot(t.id));
  }

  /** The same for an expense. */
  lemma RemoveUniqueExpense(a: seq<Expense>, e: Expense, b: seq<Expense>)
    requires forall i :: 0 <= i < |a| ==> a[i].id != e.id
    requires forall i :: 0 <= i < |b| ==> b[i].id != e.id
    ensures WithoutExpense(a + [e] + b, e.id) == a + b
    ensures |WithoutExpense(a + [e] + b, e.id)| == |a + [e] + b| - 1
  {
    FilterDropsOne(a, e, b, ExpenseIdIsNot(e.id));
  }

  /** Removal is a filter, so it distributes over the parts of the store:
      what is kept from the front stays in front of what is kept from the back. */
  lemma RemoveTransactionAppend(a: seq<Transaction>, b: seq<Transaction>, id: string)
    ensures WithoutTransaction(a + b, id) == WithoutTransaction(a, id) + WithoutTransaction(b, id)
  {
    FilterAppend(a, b, TransactionIdIsNot(id));
  }

  /** The same for expenses, whose randomly drawn ids may collide. */
  lemma RemoveExpenseAppend(a: seq<Expense>, b: seq<Expense>, id: string)
    ensures WithoutExpense(a + b, id) == WithoutExpense(a, id) + WithoutExpense(b, id)
  {
    FilterAppend(a, b, ExpenseIdIsNot(id));
  }

  /** Duplicated ids are never merged: removing the id takes out every copy. */
  lemma RemoveDropsDuplicates(t: Transaction)
    ensures WithoutTransaction([t] + [t], t.id) == []
  {
    RemoveTransactionAppend([t], [t], t.id);
    FilterSingleton(t, TransactionIdIsNot(t.id));
  }

  /** Removing transactions none of which is a delivery charge leaves
      earnings and profit as they were. */
  lemma RemoveNonEarningKeepsProfit(ts: seq<Transaction>, es: seq<Expense>, id: string)
    requires forall i :: 0 <= i < |ts| && ts[i].id == id ==> ts[i].kind != DeliveryCharge
    ensures var before, after := ComputeTotals(ts, es), ComputeTotals(WithoutTransaction(ts, id), es);
      after.earnings == before.earnings && after.netProfit == before.netProfit
      && after.expenseTotal == before.expenseTotal
  {
    FilterOfFilter(ts, TransactionIdIsNot(id), IsType(DeliveryCharge));
  }

  /** The worked example continued: taking the collection out again leaves
      collections at 0 and earnings and profit unchanged. */
  lemma ExampleRemoveCollection(d: Transaction, c: Transaction, p: Transaction, fuel: Expense)
    requires d.kind == DeliveryCharge && d.amount == 120.0
    requires c.kind == Collection && c.amount == 500.0
    requires p.kind == Payment && p.amount == 50.0
    requires fuel.amount == 40.0
    requires d.id != c.id && p.id != c.id
    ensures ComputeTotals(WithoutTransaction([d] + [c] + [p], c.id), [fuel]) == Totals(120.0, 0.0, 40.0, 80.0)
  {
    ExampleTotals(d, c, p, fuel);
    RemoveUniqueTransaction([d], c, [p]);
    TotalsInsertTransaction([d], c, [p], [fuel]);
  }

  /** The two stores a session owns; each handler replaces them. */
  class Session {
    var transactions: seq<Transaction>
    var expenses: seq<Expense>

    /** Both stores start empty (`useState([])`). */
    constructor ()
      ensures transactions == [] && expenses == []
    {
      transactions := [];
      expenses := [];
    }

    /** The totals of the current stores. */
    function CurrentTotals(): Totals
      reads this
    {
      ComputeTotals(transactions, expenses)
    }

    /** An extraction arrives: its items, normalized, go after the existing
        transactions in their order (`[...prev, ...extracted]`). */
    method AppendExtracted(raw: seq<Extracted>)
      modifies this
      ensures transactions == old(transactions) + NormalizeBatch(raw)
      ensures expenses == old(expenses)
      ensures CurrentTotals().earnings == old(CurrentTotals().earnings) + Earnings(NormalizeBatch(raw))
      ensures CurrentTotals().expenseTotal == old(CurrentTotals().expenseTotal)
    {
      TotalsAppendTransactions(transactions, NormalizeBatch(raw), expenses);
      transactions := transactions + NormalizeBatch(raw);
    }

    /** `addExpense`: the new record goes at the end; its id is supplied by
        the caller. */
    method AddExpense(id: string, description: string, amount: real)
      modifies this
      ensures expenses == old(expenses) + [Expense(id, description, amount)]
      ensures transactions == old(transactions)
      ensures CurrentTotals().netProfit == old(CurrentTotals().netProfit) - amount
    {
      TotalsAppendExpense(transactions, expenses, Expense(id, description, amount));
      expenses := expenses + [Expense(id, description, amount)];
    }

    /** `removeTransaction`. */
    method RemoveTransaction(id: string)
      modifies this
      ensures transactions == WithoutTransaction(old(transactions), id)
      ensures expenses == old(expenses)
      ensures (forall i :: 0 <= i < |old(transactions)| && old(transactions)[i].id == id ==>
                 old(transactions)[i].kind != DeliveryCharge) ==>
              CurrentTotals().netProfit == old(CurrentTotals().netProfit)
    {
      ghost var nonEarning := forall i :: 0 <= i < |transactions| && transactions[i].id == id ==>
        transactions[i].kind != DeliveryCharge;
      if nonEarning {
        RemoveNonEarningKeepsProfit(transactions, expenses, id);
      }
      transactions := WithoutTransaction(transactions, id);
    }

    /** `removeExpense`. */
    method RemoveExpense(id: string)
      modifies this
      ensures expenses == WithoutExpense(old(expenses), id)
      ensures transactions == old(transactions)
    {
      expenses := WithoutExpense(expenses, id);
    }

    /** `clearAll`: `confirmed` is the user's answer to the confirmation prompt. */
    method ClearAll(confirmed: bool)
      modifies this
      ensures confirmed ==> transactions == [] && expenses == []
      ensures confirmed ==> CurrentTotals() == Totals(0.0, 0.0, 0.0, 0.0)
      ensures !confirmed ==> transactions == old(transactions) && expenses == old(expenses)
    {
      if confirmed {
        transactions := [];
        expenses := [];
      }
    }
  }
}
