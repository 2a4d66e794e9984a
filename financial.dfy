/**
 * The financial context provider: the in-memory snapshot of the signed-in
 * user, replaced wholesale by each updater, and the load and save effects
 * that move it to and from the `financialData` storage map
 * (personal-finance-tracker-react-app/src/context/FinancialContext.jsx).
 */
module Financial {

  import opened Wrappers
  import opened Transactions
  import opened Ledger
  import opened Storage

  /** Every stored snapshot has totals that agree with its list. */
  ghost predicate AllConsistent(data: map<string, Snapshot>)
  {
    forall id :: id in data ==> Consistent(data[id])
  }

  class FinancialProvider {
    /** the `financialData` state */
    var financialData: Snapshot
    const store: LocalStorage

    constructor (store: LocalStorage)
      ensures this.store == store && financialData == EmptySnapshot
    {
      this.store := store;
      financialData := EmptySnapshot;
    }

    /**
     * The load effect: with a user signed in, take that user's stored
     * snapshot; when none is stored, keep the snapshot in memory.
     */
    method Load(user: Option<User>)
      modifies this
      ensures user.Some? && user.value.id in store.financialData ==>
                financialData == store.financialData[user.value.id]
      ensures !(user.Some? && user.value.id in store.financialData) ==>
                financialData == old(financialData)
      ensures AllConsistent(store.financialData) && Consistent(old(financialData)) ==> Consistent(financialData)
    {
      if user.Some? {
        var all := store.financialData;
        if user.value.id in all {
          financialData := all[user.value.id];
        }
      }
    }

    /**
     * The save effect: with a user signed in, store the snapshot under that
     * user's id; every other user's entry is left as it was.
     */
    method Save(user: Option<User>)
      modifies store
      ensures store.users == old(store.users) && store.user == old(store.user)
      ensures user.Some? ==> store.financialData == old(store.financialData)[user.value.id := financialData]
      ensures user.None? ==> store.financialData == old(store.financialData)
      ensures AllConsistent(old(store.financialData)) && Consistent(financialData) ==>
                AllConsistent(store.financialData)
    {
      if user.Some? {
        var all := store.financialData;
        store.financialData := all[user.value.id := financialData];
      }
    }

    /** `addTransaction(transaction)`; `id` and `date` are the clock's readings. */
    method AddTransaction(t: Transaction, id: string, date: string)
      modifies this
      ensures financialData == Ledger.AddTransaction(old(financialData), t, id, date)
      ensures Consistent(financialData)
    {
      financialData := Ledger.AddTransaction(financialData, t, id, date);
    }

    /** `deleteTransaction(transactionId)` */
    method DeleteTransaction(id: string)
      modifies this
      ensures financialData == Ledger.DeleteTransaction(old(financialData), id)
      ensures Consistent(financialData)
    {
      financialData := Ledger.DeleteTransaction(financialData, id);
    }

    /** `updateTransaction(transactionId, updatedTransaction)` */
    method UpdateTransaction(id: string, patch: Patch)
      modifies this
      ensures financialData == Ledger.UpdateTransaction(old(financialData), id, patch)
      ensures Consistent(financialData)
    {
      financialData := Ledger.UpdateTransaction(financialData, id, patch);
    }
  }

  /** Saving a snapshot and loading it back for the same user gives the same snapshot. */
  method SaveThenLoad(provider: FinancialProvider, user: User)
    modifies provider, provider.store
    ensures provider.financialData == old(provider.financialData)
    ensures user.id in provider.store.financialData && provider.store.financialData[user.id] == old(provider.financialData)
  {
    provider.Save(Some(user));
    provider.Load(Some(user));
  }
}
