/**
 * The per-user financial snapshot and the three updaters of the financial
 * context. Each updater builds the next snapshot from the previous one and
 * recomputes the derived totals from the whole transaction list
 * (personal-finance-tracker-react-app/src/context/FinancialContext.jsx).
 */
module Ledger {

  import opened Wrappers
  import opened Sequences
  import opened Transactions

  const INCOME: string := "income"
  const EXPENSE: string := "expense"

  datatype Categories = Categories(income: seq<string>, expense: seq<string>)

  /**
   * A user's stored state. The three totals are a cache of sums over
   * `recentTransactions`; `Consistent` says when the cache is right.
   */
  datatype Snapshot = Snapshot(
    monthlyIncome: int,
    monthlyExpenses: int,
    savings: int,
    recentTransactions: seq<Transaction>,
    categories: Categories)

  /** The category lists seeded with every fresh snapshot. */
  const DefaultCategories: Categories := Categories(
    ["Salary", "Freelance", "Investments", "Other"],
    ["Food", "Transport", "Entertainment", "Bills", "Shopping", "Other"])

  /** Zero totals, no transactions, default categories. */
  const EmptySnapshot: Snapshot := Snapshot(0, 0, 0, [], DefaultCategories)

  /** What one entry adds to the total of `kind`. */
  function Contribution(t: Transaction, kind: string): int
  {
    if t.kind == kind then t.amount else 0
  }

  /**
   * `txs.filter(t => t.type === kind).reduce((sum, t) => sum + t.amount, 0)`,
   * summed left to right as `reduce` does.
   */
  function SumOfKind(txs: seq<Transaction>, kind: string): (r: int)
    ensures (forall i :: 0 <= i < |txs| ==> txs[i].kind != kind) ==> r == 0
    ensures (forall i :: 0 <= i < |txs| ==> txs[i].amount >= 0) ==> r >= 0
  {
    if txs == [] then 0
    else SumOfKind(txs[..|txs| - 1], kind) + Contribution(txs[|txs| - 1], kind)
  }

  /** The cached totals agree with the transaction list. */
  predicate Consistent(s: Snapshot)
  {
    && s.monthlyIncome == SumOfKind(s.recentTransactions, INCOME)
    && s.monthlyExpenses == SumOfKind(s.recentTransactions, EXPENSE)
    && s.savings == s.monthlyIncome - s.monthlyExpenses
  }

  /**
   * `{ ...prev, recentTransactions: txs, monthlyIncome, monthlyExpenses, savings }`
   * with the totals recomputed from `txs` alone.
   */
  function WithTransactions(prev: Snapshot, txs: seq<Transaction>): (r: Snapshot)
    ensures Consistent(r)
    ensures r.recentTransactions == txs && r.categories == prev.categories
  {
    var income := SumOfKind(txs, INCOME);
    var expenses := SumOfKind(txs, EXPENSE);
    prev.(recentTransactions := txs,
          monthlyIncome := income,
          monthlyExpenses := expenses,
          savings := income - expenses)
  }

  /** `{ ...transaction, id: Date.now().toString(), date: new Date().toISOString() }` */
  function Stamped(t: Transaction, id: string, date: string): (r: Transaction)
    ensures r.id == id && r.date == date
    ensures r.kind == t.kind && r.amount == t.amount
    ensures r.category == t.category && r.description == t.description
  {
    t.(id := id, date := date)
  }

  /** The `addTransaction` updater; `id` and `date` are the clock's readings. */
  function AddTransaction(prev: Snapshot, t: Transaction, id: string, date: string): (r: Snapshot)
    ensures Consistent(r) && r.categories == prev.categories
    ensures |r.recentTransactions| == |prev.recentTransactions| + 1
    ensures r.recentTransactions[..|prev.recentTransactions|] == prev.recentTransactions
    ensures r.recentTransactions[|prev.recentTransactions|]
         == Transaction(id, t.kind, t.amount, t.category, t.description, date)
  {
    WithTransactions(prev, Transactions.AddTransaction(prev.recentTransactions, Stamped(t, id, date)))
  }

  /** The `deleteTransaction` updater. */
  function DeleteTransaction(prev: Snapshot, id: string): (r: Snapshot)
    ensures Consistent(r) && r.categories == prev.categories
    ensures IsSubsequence(r.recentTransactions, prev.recentTransactions)
    ensures forall i :: 0 <= i < |r.recentTransactions| ==> r.recentTransactions[i].id != id
    ensures forall i :: 0 <= i < |prev.recentTransactions| && prev.recentTransactions[i].id != id
              ==> prev.recentTransactions[i] in r.recentTransactions
    ensures |r.recentTransactions| + |Matching(prev.recentTransactions, id)| == |prev.recentTransactions|
  {
    WithTransactions(prev, Transactions.DeleteTransaction(prev.recentTransactions, id))
  }

  /** The `updateTransaction` updater. */
  function UpdateTransaction(prev: Snapshot, id: string, patch: Patch): (r: Snapshot)
    ensures Consistent(r) && r.categories == prev.categories
    ensures |r.recentTransactions| == |prev.recentTransactions|
    ensures forall i :: 0 <= i < |prev.recentTransactions| ==>
              r.recentTransactions[i]
              == if prev.recentTransactions[i].id == id
                 then Merge(prev.recentTransactions[i], patch)
                 else prev.recentTransactions[i]
  {
    WithTransactions(prev, EditTransaction(prev.recentTransactions, id, patch))
  }

  // ----- Properties of the totals -----

  /** The fresh snapshot is consistent and has a zero balance. */
  lemma EmptySnapshotConsistent()
    ensures Consistent(EmptySnapshot) && EmptySnapshot.savings == 0
  {
  }

  /** An entry appended at the end adds exactly its own contribution. */
  lemma SumOfKindSnoc(txs: seq<Transaction>, t: Transaction, kind: string)
    ensures SumOfKind(txs + [t], kind) == SumOfKind(txs, kind) + Contribution(t, kind)
  {
    assert (txs + [t])[..|txs|] == txs;
  }

  /** Every total splits into the entries a delete keeps and the entries it removes. */
  lemma {:induction false} SumSplitsById(txs: seq<Transaction>, id: string, kind: string)
    ensures SumOfKind(txs, kind)
         == SumOfKind(Transactions.DeleteTransaction(txs, id), kind) + SumOfKind(Matching(txs, id), kind)
  {
    if txs != [] {
      var init, t := txs[..|txs| - 1], txs[|txs| - 1];
      assert txs == init + [t];
      SumSplitsById(init, id, kind);
      FilterSnoc(init, t, LacksId(id));
      FilterSnoc(init, t, HasId(id));
      if t.id == id {
        SumOfKindSnoc(Matching(init, id), t, kind);
      } else {
        SumOfKindSnoc(Transactions.DeleteTransaction(init, id), t, kind);
      }
    }
  }

  /** After a delete, each total has dropped by what the removed entries contributed. */
  lemma DeleteSubtractsRemoved(prev: Snapshot, id: string)
    requires Consistent(prev)
    ensures DeleteTransaction(prev, id).monthlyIncome
         == prev.monthlyIncome - SumOfKind(Matching(prev.recentTransactions, id), INCOME)
    ensures DeleteTransaction(prev, id).monthlyExpenses
         == prev.monthlyExpenses - SumOfKind(Matching(prev.recentTransactions, id), EXPENSE)
  {
    SumSplitsById(prev.recentTransactions, id, INCOME);
    SumSplitsById(prev.recentTransactions, id, EXPENSE);
  }

  /** Deleting an unknown id leaves a consistent snapshot exactly as it was. */
  lemma DeleteUnknownIdNoop(prev: Snapshot, id: string)
    requires Consistent(prev) && IdAbsent(prev.recentTransactions, id)
    ensures DeleteTransaction(prev, id) == prev
  {
    DeleteUnknownId(prev.recentTransactions, id);
  }

  /** A second delete of the same id changes nothing. */
  lemma DeleteTwice(prev: Snapshot, id: string)
    ensures DeleteTransaction(DeleteTransaction(prev, id), id) == DeleteTransaction(prev, id)
  {
    DeleteIdempotent(prev.recentTransactions, id);
  }

  /** Updating an unknown id leaves a consistent snapshot exactly as it was. */
  lemma UpdateUnknownIdNoop(prev: Snapshot, id: string, patch: Patch)
    requires Consistent(prev) && IdAbsent(prev.recentTransactions, id)
    ensures UpdateTransaction(prev, id, patch) == prev
  {
    EditUnknownId(prev.recentTransactions, id, patch);
  }

  /**
   * Totals follow the resulting list, not the history: updating the entry
   * just added replaces its contribution instead of adding to it.
   */
  lemma UpdateOfAddedEntry(prev: Snapshot, t: Transaction, id: string, date: string, patch: Patch, kind: string)
    requires IdAbsent(prev.recentTransactions, id)
    ensures var r := UpdateTransaction(AddTransaction(prev, t, id, date), id, patch);
            SumOfKind(r.recentTransactions, kind)
            == SumOfKind(prev.recentTransactions, kind) + Contribution(Merge(Stamped(t, id, date), patch), kind)
  {
    var added := Stamped(t, id, date);
    EditOfAppendedEntry(prev.recentTransactions, added, patch);
    SumOfKindSnoc(prev.recentTransactions, Merge(added, patch), kind);
  }

  /** An expense of 100 whose amount is then updated to 300 counts 300, not 400. */
  lemma ExpenseUpdatedNotAccumulated(prev: Snapshot, t: Transaction, id: string, date: string)
    requires Consistent(prev) && IdAbsent(prev.recentTransactions, id)
    requires t.kind == EXPENSE && t.amount == 100
    ensures var r := UpdateTransaction(AddTransaction(prev, t, id, date), id,
                                       Patch(None, None, Some(300), None, None, None));
            r.monthlyExpenses == prev.monthlyExpenses + 300
            && r.monthlyIncome == prev.monthlyIncome
  {
    var patch := Patch(None, None, Some(300), None, None, None);
    UpdateOfAddedEntry(prev, t, id, date, patch, EXPENSE);
    UpdateOfAddedEntry(prev, t, id, date, patch, INCOME);
  }

  /**
   * Deleting the only entry with an id and adding it back (under a new id
   * and date) restores every total.
   */
  lemma DeleteThenReAddRestoresTotals(prev: Snapshot, t: Transaction, newId: string, date: string)
    requires Consistent(prev)
    requires Matching(prev.recentTransactions, t.id) == [t]
    ensures var r := AddTransaction(DeleteTransaction(prev, t.id), t, newId, date);
            r.monthlyIncome == prev.monthlyIncome
            && r.monthlyExpenses == prev.monthlyExpenses
            && r.savings == prev.savings
  {
    var kept := Transactions.DeleteTransaction(prev.recentTransactions, t.id);
    SumSplitsById(prev.recentTransactions, t.id, INCOME);
    SumSplitsById(prev.recentTransactions, t.id, EXPENSE);
    SumOfKindSnoc(kept, Stamped(t, newId, date), INCOME);
    SumOfKindSnoc(kept, Stamped(t, newId, date), EXPENSE);
    assert [t] == [] + [t];
    SumOfKindSnoc([], t, INCOME);
    SumOfKindSnoc([], t, EXPENSE);
  }
}
