/**
 * The dashboard page's own logic: the expense-by-category chart data, the
 * balance shown on the summary card, and the transaction form's submit,
 * edit, cancel and delete handlers
 * (personal-finance-tracker-react-app/src/pages/Dashboard.jsx).
 */
module Dashboard {

  import opened Wrappers
  import opened Sequences
  import opened Transactions
  import opened Ledger
  import opened Financial

  /** One pie-chart entry `{ name, value }`. */
  datatype Slice = Slice(name: string, value: int)

  /** The six buckets of the chart, in display order: the key summed into and the label shown. */
  const BucketKeys: seq<string> :=
    ["food", "transportation", "entertainment", "shopping", "bills", "others"]
  const BucketNames: seq<string> :=
    ["Food & Dining", "Transportation", "Entertainment", "Shopping", "Bills & Utilities", "Others"]

  /** The loop adds an entry to a bucket only when it is an expense with a non-empty category. */
  predicate Charted(t: Transaction)
  {
    t.kind == EXPENSE && t.category != ""
  }

  /** What the bucket `category` holds after the loop has seen `txs`. */
  function CategorySum(txs: seq<Transaction>, category: string): (r: int)
    ensures category == "" ==> r == 0
  {
    if txs == [] then 0
    else
      var t := txs[|txs| - 1];
      CategorySum(txs[..|txs| - 1], category)
        + (if Charted(t) && t.category == category then t.amount else 0)
  }

  function InCategory(category: string): Transaction -> bool
  {
    (t: Transaction) => t.category == category
  }

  /**
   * A bucket of the chart is the ledger's expense total over the entries
   * filed under its key.
   */
  lemma {:induction false} CategorySumIsExpenseTotal(txs: seq<Transaction>, category: string)
    requires category != ""
    ensures CategorySum(txs, category) == SumOfKind(Filter(txs, InCategory(category)), EXPENSE)
  {
    if txs != [] {
      var init, t := txs[..|txs| - 1], txs[|txs| - 1];
      assert txs == init + [t];
      CategorySumIsExpenseTotal(init, category);
      FilterSnoc(init, t, InCategory(category));
      if t.category == category {
        SumOfKindSnoc(Filter(init, InCategory(category)), t, EXPENSE);
      }
    }
  }

  /** A bucket stays at 0 when no entry is an expense filed under its key. */
  lemma {:induction false} CategorySumOfUnused(txs: seq<Transaction>, category: string)
    requires forall i :: 0 <= i < |txs| ==> txs[i].kind != EXPENSE || txs[i].category != category
    ensures CategorySum(txs, category) == 0
  {
    if txs != [] {
      CategorySumOfUnused(txs[..|txs| - 1], category);
    }
  }

  /** The six buckets before the filter, in display order. */
  function Buckets(txs: seq<Transaction>): seq<Slice>
  {
    seq(6, k requires 0 <= k < 6 => Slice(BucketNames[k], CategorySum(txs, BucketKeys[k])))
  }

  function Positive(): Slice -> bool
  {
    (s: Slice) => s.value > 0
  }

  /**
   * The chart data: the six buckets in their fixed order, those with a
   * value not above 0 dropped.
   */
  function CategoryChart(txs: seq<Transaction>): (r: seq<Slice>)
    ensures |r| <= 6
    ensures IsSubsequence(r, Buckets(txs))
    ensures forall i :: 0 <= i < |r| ==> r[i].value > 0 && r[i] in Buckets(txs)
    ensures forall k :: 0 <= k < 6 ==>
              (Slice(BucketNames[k], CategorySum(txs, BucketKeys[k])) in r
               <==> CategorySum(txs, BucketKeys[k]) > 0)
  {
    var all := Buckets(txs);
    var r := Filter(all, Positive());
    assert forall k :: 0 <= k < 6 ==> all[k] == Slice(BucketNames[k], CategorySum(txs, BucketKeys[k]));
    r
  }

  /**
   * `calculateCategoryTotals()`: a dictionary seeded with the six keys at 0
   * is updated entry by entry, then the six buckets are read out in order
   * and filtered.
   */
  method CalculateCategoryTotals(txs: seq<Transaction>) returns (r: seq<Slice>)
    ensures r == CategoryChart(txs)
  {
    var totals: map<string, int> := map[
      "food" := 0, "transportation" := 0, "entertainment" := 0,
      "shopping" := 0, "bills" := 0, "others" := 0];
    var i := 0;
    while i < |txs|
      invariant 0 <= i <= |txs|
      invariant "food" in totals && "transportation" in totals && "entertainment" in totals
      invariant "shopping" in totals && "bills" in totals && "others" in totals
      invariant forall c :: c in totals ==> totals[c] == CategorySum(txs[..i], c)
      invariant forall c :: c !in totals ==> CategorySum(txs[..i], c) == 0
    {
      var t := txs[i];
      if t.kind == EXPENSE && t.category != "" {
        var before := if t.category in totals then totals[t.category] else 0;
        totals := totals[t.category := before + t.amount];
      }
      assert txs[..i + 1][..i] == txs[..i];
      i := i + 1;
    }
    assert txs[..i] == txs;
    var all := [
      Slice("Food & Dining", totals["food"]),
      Slice("Transportation", totals["transportation"]),
      Slice("Entertainment", totals["entertainment"]),
      Slice("Shopping", totals["shopping"]),
      Slice("Bills & Utilities", totals["bills"]),
      Slice("Others", totals["others"])];
    assert all == Buckets(txs);
    r := Filter(all, Positive());
  }

  /**
   * An entry the loop skips (income, an empty category) or sums into a key
   * outside the six buckets leaves the chart as it was.
   */
  lemma UnchartedEntryIgnored(txs: seq<Transaction>, t: Transaction)
    requires !Charted(t) || t.category !in BucketKeys
    ensures CategoryChart(txs + [t]) == CategoryChart(txs)
  {
    assert (txs + [t])[..|txs|] == txs;
    assert Buckets(txs + [t]) == Buckets(txs);
  }

  /**
   * The expense category names seeded in every snapshot ("Food",
   * "Transport", ...) are none of the six keys, so entries filed under them
   * never reach the chart.
   */
  lemma SeededNamesNeverCharted(txs: seq<Transaction>, t: Transaction)
    requires t.category in DefaultCategories.expense
    ensures CategoryChart(txs + [t]) == CategoryChart(txs)
  {
    UnchartedEntryIgnored(txs, t);
  }

  /** `Number(x) || 0`: a missing or non-numeric value counts as 0. */
  function NumberOrZero(x: Option<int>): (r: int)
    ensures x.None? ==> r == 0
    ensures x.Some? ==> r == x.value
  {
    if x.Some? then x.value else 0
  }

  /** `totalBalance` from `financialData?.monthlyIncome` and `financialData?.monthlyExpenses`. */
  function TotalBalance(data: Option<Snapshot>): (r: int)
    ensures data.None? ==> r == 0
    ensures data.Some? ==> r == data.value.monthlyIncome - data.value.monthlyExpenses
    ensures data.Some? && Consistent(data.value) ==>
              && r == data.value.savings
              && r == SumOfKind(data.value.recentTransactions, INCOME)
                      - SumOfKind(data.value.recentTransactions, EXPENSE)
  {
    var income := NumberOrZero(if data.Some? then Some(data.value.monthlyIncome) else None);
    var expenses := NumberOrZero(if data.Some? then Some(data.value.monthlyExpenses) else None);
    income - expenses
  }

  /** The transaction form. `amount` None is the empty input `''`. */
  datatype Form = Form(kind: string, amount: Option<int>, category: string, description: string, date: string)

  /** The reset form; `today` is `new Date().toISOString().split('T')[0]`. */
  function EmptyForm(today: string): (f: Form)
    ensures f.kind == EXPENSE && f.amount == None
    ensures f.category == "" && f.description == "" && f.date == today
  {
    Form(EXPENSE, None, "", "", today)
  }

  /** The form object spread over an edited entry: every form field overrides, the id is kept. */
  function FormPatch(f: Form): Patch
  {
    Patch(None, Some(f.kind), f.amount, Some(f.category), Some(f.description), Some(f.date))
  }

  /** The form object handed to `addTransaction`; it has no id of its own (the add assigns one). */
  function FormEntry(f: Form): Transaction
    requires f.amount.Some?
  {
    Transaction("", f.kind, f.amount.value, f.category, f.description, f.date)
  }

  class DashboardPage {
    /** the `editingTransaction` state */
    var editingTransaction: Option<Transaction>
    /** the `newTransaction` state: the form's fields */
    var newTransaction: Form
    const financial: FinancialProvider

    constructor (financial: FinancialProvider, today: string)
      ensures this.financial == financial
      ensures editingTransaction == None && newTransaction == EmptyForm(today)
    {
      this.financial := financial;
      editingTransaction := None;
      newTransaction := EmptyForm(today);
    }

    /**
     * `handleTransactionSubmit`: update the entry being edited, or add a new
     * one, then reset the form. The amount input is `required`, so the
     * browser submits only with an amount filled in. `id` and `now` are the
     * clock's readings for an add.
     */
    method HandleTransactionSubmit(id: string, now: string, today: string)
      requires newTransaction.amount.Some?
      modifies this, financial
      ensures old(editingTransaction).Some? ==>
                financial.financialData
                == Ledger.UpdateTransaction(old(financial.financialData),
                                            old(editingTransaction).value.id, FormPatch(old(newTransaction)))
      ensures old(editingTransaction).None? ==>
                financial.financialData
                == Ledger.AddTransaction(old(financial.financialData), FormEntry(old(newTransaction)), id, now)
      ensures Consistent(financial.financialData)
      ensures editingTransaction == None && newTransaction == EmptyForm(today)
    {
      if editingTransaction.Some? {
        financial.UpdateTransaction(editingTransaction.value.id, FormPatch(newTransaction));
        editingTransaction := None;
      } else {
        financial.AddTransaction(FormEntry(newTransaction), id, now);
      }
      newTransaction := EmptyForm(today);
    }

    /** `handleEdit(transaction)`: load the entry's fields into the form and mark it as edited. */
    method HandleEdit(t: Transaction)
      modifies this
      ensures editingTransaction == Some(t)
      ensures newTransaction == Form(t.kind, Some(t.amount), t.category, t.description, t.date)
    {
      editingTransaction := Some(t);
      newTransaction := Form(t.kind, Some(t.amount), t.category, t.description, t.date);
    }

    /** The form's Cancel button: stop editing and reset the form. */
    method CancelEdit(today: string)
      modifies this
      ensures editingTransaction == None && newTransaction == EmptyForm(today)
    {
      editingTransaction := None;
      newTransaction := EmptyForm(today);
    }

    /** `handleDelete(id)`; `confirmed` is the answer to `window.confirm`. */
    method HandleDelete(id: string, confirmed: bool)
      modifies financial
      ensures confirmed ==> financial.financialData == Ledger.DeleteTransaction(old(financial.financialData), id)
      ensures !confirmed ==> financial.financialData == old(financial.financialData)
    {
      if confirmed {
        financial.DeleteTransaction(id);
      }
    }
  }
}
