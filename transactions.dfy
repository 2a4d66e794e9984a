/**
 * A ledger entry and the bare transaction list of the transaction context:
 * append, edit by id and delete by id, each building a new list from the
 * previous one (personal-finance-tracker-react-app/src/context/TransacationContext.jsx).
 */
module Transactions {

  import opened Wrappers
  import opened Sequences

  /**
   * One entry. `kind` is the JavaScript `type` field: "income", "expense" or
   * any other string the caller stored. `amount` is in the smallest currency unit.
   */
  datatype Transaction = Transaction(
    id: string,
    kind: string,
    amount: int,
    category: string,
    description: string,
    date: string)

  /** A partial transaction object: each present field overrides, absent ones keep their value. */
  datatype Patch = Patch(
    id: Option<string>,
    kind: Option<string>,
    amount: Option<int>,
    category: Option<string>,
    description: Option<string>,
    date: Option<string>)

  function Override<T>(current: T, update: Option<T>): T
  {
    if update.Some? then update.value else current
  }

  /** `{ ...t, ...patch }` */
  function Merge(t: Transaction, patch: Patch): (r: Transaction)
    ensures patch == Patch(None, None, None, None, None, None) ==> r == t
    ensures patch.id.Some? ==> r.id == patch.id.value
    ensures patch.id.None? ==> r.id == t.id
    ensures patch.kind.Some? ==> r.kind == patch.kind.value
    ensures patch.kind.None? ==> r.kind == t.kind
    ensures patch.amount.Some? ==> r.amount == patch.amount.value
    ensures patch.amount.None? ==> r.amount == t.amount
    ensures patch.category.Some? ==> r.category == patch.category.value
    ensures patch.category.None? ==> r.category == t.category
    ensures patch.description.Some? ==> r.description == patch.description.value
    ensures patch.description.None? ==> r.description == t.description
    ensures patch.date.Some? ==> r.date == patch.date.value
    ensures patch.date.None? ==> r.date == t.date
  {
    Transaction(
      Override(t.id, patch.id),
      Override(t.kind, patch.kind),
      Override(t.amount, patch.amount),
      Override(t.category, patch.category),
      Override(t.description, patch.description),
      Override(t.date, patch.date))
  }

  function HasId(id: string): Transaction -> bool
  {
    (t: Transaction) => t.id == id
  }

  function LacksId(id: string): Transaction -> bool
  {
    (t: Transaction) => t.id != id
  }

  /** The entries carrying `id`, in order. */
  function Matching(txs: seq<Transaction>, id: string): seq<Transaction>
  {
    Filter(txs, HasId(id))
  }

  predicate IdAbsent(txs: seq<Transaction>, id: string)
  {
    forall i :: 0 <= i < |txs| ==> txs[i].id != id
  }

  /** `[...prev, transaction]`: the transaction is appended unchanged, no id is assigned. */
  function AddTransaction(txs: seq<Transaction>, t: Transaction): (r: seq<Transaction>)
    ensures |r| == |txs| + 1
    ensures r[..|txs|] == txs && r[|txs|] == t
  {
    txs + [t]
  }

  /** The entry `t` after an edit of `id` by `patch`. */
  function EditedEntry(t: Transaction, id: string, patch: Patch): Transaction
  {
    if t.id == id then Merge(t, patch) else t
  }

  /** `prev.map(txn => txn.id === id ? { ...txn, ...patch } : txn)` */
  function EditTransaction(txs: seq<Transaction>, id: string, patch: Patch): (r: seq<Transaction>)
    ensures |r| == |txs|
    ensures forall i :: 0 <= i < |txs| && txs[i].id == id ==> r[i] == Merge(txs[i], patch)
    ensures forall i :: 0 <= i < |txs| && txs[i].id != id ==> r[i] == txs[i]
  {
    Map(txs, (t: Transaction) => EditedEntry(t, id, patch))
  }

  /** `prev.filter(txn => txn.id !== id)` */
  function DeleteTransaction(txs: seq<Transaction>, id: string): (r: seq<Transaction>)
    ensures forall i :: 0 <= i < |r| ==> r[i] in txs && r[i].id != id
    ensures forall i :: 0 <= i < |txs| && txs[i].id != id ==> txs[i] in r
    ensures IsSubsequence(r, txs)
    ensures |r| + |Matching(txs, id)| == |txs|
  {
    CountComplement(txs, LacksId(id), HasId(id));
    Filter(txs, LacksId(id))
  }

  // ----- Properties -----

  /** Merging the same patch twice is merging it once. */
  lemma MergeIdempotent(t: Transaction, patch: Patch)
    ensures Merge(Merge(t, patch), patch) == Merge(t, patch)
  {
  }

  /**
   * Delete is exactly "drop the entries with that id, keep the rest in order":
   * any order-preserving selection with no entry of that id and the right
   * length IS the result of the delete.
   */
  lemma DeleteCharacterized(txs: seq<Transaction>, id: string, s: seq<Transaction>)
    requires IsSubsequence(s, txs)
    requires forall i :: 0 <= i < |s| ==> s[i].id != id
    requires |s| + |Matching(txs, id)| == |txs|
    ensures s == DeleteTransaction(txs, id)
  {
    CountComplement(txs, LacksId(id), HasId(id));
    FilterUnique(s, txs, LacksId(id));
  }

  /** Deleting an id that no entry carries leaves the list as it was. */
  lemma DeleteUnknownId(txs: seq<Transaction>, id: string)
    requires IdAbsent(txs, id)
    ensures DeleteTransaction(txs, id) == txs
  {
    FilterKeepsAll(txs, LacksId(id));
  }

  /** Deleting the same id twice is the same as deleting it once. */
  lemma DeleteIdempotent(txs: seq<Transaction>, id: string)
    ensures DeleteTransaction(DeleteTransaction(txs, id), id) == DeleteTransaction(txs, id)
  {
    FilterIdempotent(txs, LacksId(id));
  }

  /** Editing an id that no entry carries leaves the list as it was. */
  lemma EditUnknownId(txs: seq<Transaction>, id: string, patch: Patch)
    requires IdAbsent(txs, id)
    ensures EditTransaction(txs, id, patch) == txs
  {
  }

  /** Editing twice with the same id and patch is editing once. */
  lemma EditIdempotent(txs: seq<Transaction>, id: string, patch: Patch)
    ensures EditTransaction(EditTransaction(txs, id, patch), id, patch) == EditTransaction(txs, id, patch)
  {
    var once := EditTransaction(txs, id, patch);
    forall i | 0 <= i < |txs|
      ensures EditTransaction(once, id, patch)[i] == once[i]
    {
      MergeIdempotent(txs[i], patch);
    }
  }

  /** Adding an entry with a fresh id and then deleting that id restores the list. */
  lemma AddThenDeleteRestores(txs: seq<Transaction>, t: Transaction)
    requires IdAbsent(txs, t.id)
    ensures DeleteTransaction(AddTransaction(txs, t), t.id) == txs
  {
    FilterSnoc(txs, t, LacksId(t.id));
    DeleteUnknownId(txs, t.id);
  }

  /** An edit of an entry appended with a fresh id touches only that entry. */
  lemma EditOfAppendedEntry(txs: seq<Transaction>, t: Transaction, patch: Patch)
    requires IdAbsent(txs, t.id)
    ensures EditTransaction(AddTransaction(txs, t), t.id, patch) == txs + [Merge(t, patch)]
  {
  }
}
