# Personal finance tracker: ledger, totals and user registry in Dafny

This project models the logic core of a client-side personal finance tracker written in React.
Each signed-in user owns a ledger snapshot: an ordered list of income and expense transactions, plus three cached totals (`monthlyIncome`, `monthlyExpenses`, `savings`) and the seeded category lists.
The model covers four parts:

- **Transaction list** (`Transactions`, from `TransacationContext.jsx`): append, edit by id (merge a partial object), and delete by id (filter). These are pure functions over `seq<Transaction>`.
- **Financial snapshot** (`Ledger` and `Financial`, from `FinancialContext.jsx`):
  - `Ledger` holds the three updaters as pure functions. Each one recomputes every total from the whole resulting list.
  - `Financial.FinancialProvider` is a class. Its `financialData` field is replaced by the result of those functions. Its `Load` and `Save` methods move the snapshot to and from the per-user `financialData` map in storage.
- **Dashboard** (`Dashboard`, from `Dashboard.jsx`):
  - the expense-by-category chart data, computed by a loop that updates a local dictionary;
  - the `totalBalance` figure;
  - the transaction form's submit, edit, cancel and delete handlers, as a page class.
- **User registry** (`Auth`, from `AuthContext.jsx`): sign-up, sign-in and sign-out over the stored users list, the `financialData` map and the current user.

Browser storage (`Storage.LocalStorage`) is a class with one field per key: `users`, `user` and `financialData`. Values are kept already decoded, so JSON encoding is not part of the model.
Each provider takes the store as a constructor argument, and the dashboard page takes the financial provider; passing both providers the same `LocalStorage` object stands for the `localStorage` the real contexts share.
Amounts are integers in the smallest currency unit.
Clock readings are method parameters: `Date.now().toString()` ids, ISO dates and today's date for the form.
So is the answer to `window.confirm`.

Module `Sequences` holds JavaScript's left-to-right `filter`, `map` and `find`. The `reduce` that sums a total is `Ledger.SumOfKind`.
`Filter`, `Map`, `Count`, `SumOfKind` and `Dashboard.CategorySum` recurse on the last element, so the value for `s + [x]` is the value for `s` extended by `x`.
`FindFirst` recurses on the first element, because `find` stops at the first match.

In these points the model follows the code as written:

- An unknown id in update or delete is a silent no-op. No error is reported.
- Transactions are not validated.
- Loading a user with no stored snapshot keeps the snapshot already in memory.
- Sign-out leaves the in-memory snapshot as it is.
- The chart's six bucket keys are lowercase (`food`, `transportation`, ...). The seeded category names are capitalised (`Food`, `Transport`, ...), so entries filed under seeded names never show in the chart. `Dashboard.SeededNamesNeverCharted` proves this as the code's behaviour.

## Model

| member | source | states |
|---|---|---|
| `Sequences.FindFirst` | personal-finance-tracker-react-app/src/context/AuthContext.jsx:28 | `Array.find`: None iff no element satisfies the predicate; otherwise the position of an element that does, with no earlier element satisfying it |
| `Sequences.Filter` | personal-finance-tracker-react-app/src/context/FinancialContext.jsx:70 | `Array.filter`: exactly the elements satisfying the predicate, as an order-preserving subsequence, as many as satisfy it |
| `Sequences.FilterUnique` | personal-finance-tracker-react-app/src/context/TransacationContext.jsx:24 | the filter is the only order-preserving subsequence made of satisfying elements with the full count |
| `Sequences.Map` | personal-finance-tracker-react-app/src/context/TransacationContext.jsx:19 | `Array.map`: same length, element i is f of input element i |
| `Transactions.AddTransaction` | personal-finance-tracker-react-app/src/context/TransacationContext.jsx:13-15 | the given transaction is appended unchanged at the end, and earlier entries stay in place |
| `Transactions.EditTransaction` | personal-finance-tracker-react-app/src/context/TransacationContext.jsx:17-21 | same length and order; each entry with the id becomes that entry merged with the patch, and every other entry is untouched |
| `Transactions.DeleteTransaction` | personal-finance-tracker-react-app/src/context/TransacationContext.jsx:23-25 | the result keeps exactly the entries without the id, in their original order, and its length is the input's minus the number of matching entries |
| `Transactions.Merge` | personal-finance-tracker-react-app/src/context/TransacationContext.jsx:19 | `{ ...txn, ...patch }`: an empty patch changes nothing; for each of the six fields (id, type, amount, category, description, date), a field present in the patch takes the patch's value and an absent one keeps the entry's |
| `Transactions.MergeIdempotent` | personal-finance-tracker-react-app/src/context/TransacationContext.jsx:19 | spreading the same patch twice equals spreading it once |
| `Transactions.DeleteCharacterized` | personal-finance-tracker-react-app/src/context/TransacationContext.jsx:24 | any order-preserving selection without the id and of the right length is the delete's result |
| `Transactions.DeleteUnknownId` | personal-finance-tracker-react-app/src/context/TransacationContext.jsx:24 | deleting an id no entry carries returns the list unchanged |
| `Transactions.DeleteIdempotent` | personal-finance-tracker-react-app/src/context/TransacationContext.jsx:24 | deleting the same id twice equals deleting it once |
| `Transactions.EditUnknownId` | personal-finance-tracker-react-app/src/context/TransacationContext.jsx:19 | editing an id no entry carries returns the list unchanged |
| `Transactions.EditIdempotent` | personal-finance-tracker-react-app/src/context/TransacationContext.jsx:17-21 | editing twice with the same id and patch equals editing once |
| `Transactions.AddThenDeleteRestores` | personal-finance-tracker-react-app/src/context/TransacationContext.jsx:13-25 | adding a transaction with a fresh id and then deleting that id restores the original list |
| `Transactions.EditOfAppendedEntry` | personal-finance-tracker-react-app/src/context/TransacationContext.jsx:13-21 | editing the id of an entry just appended with a fresh id changes only that last entry |
| `Ledger.SumOfKind` | personal-finance-tracker-react-app/src/context/FinancialContext.jsx:50-56 | the filter-and-reduce total of one type: 0 when no entry has that type, and never negative when no amount is negative |
| `Ledger.Stamped` | personal-finance-tracker-react-app/src/context/FinancialContext.jsx:43-47 | the added entry takes id and date from the clock and every other field from the input |
| `Ledger.WithTransactions` | personal-finance-tracker-react-app/src/context/FinancialContext.jsx:49-64 | the new snapshot holds the given list, its totals agree with that list (`Consistent`), and its categories are the previous ones |
| `Ledger.AddTransaction` | personal-finance-tracker-react-app/src/context/FinancialContext.jsx:41-65 | exactly one entry appended at the end; it takes id and date from the clock and every other field from the input; earlier entries unchanged; totals consistent; categories unchanged |
| `Ledger.DeleteTransaction` | personal-finance-tracker-react-app/src/context/FinancialContext.jsx:68-88 | every entry with the id removed, the rest kept in order; totals consistent; categories unchanged |
| `Ledger.UpdateTransaction` | personal-finance-tracker-react-app/src/context/FinancialContext.jsx:91-113 | same length and order; matching entries merged with the patch and others untouched; totals consistent; categories unchanged |
| `Ledger.EmptySnapshotConsistent` | personal-finance-tracker-react-app/src/context/FinancialContext.jsx:12-21 | the seeded snapshot (zero totals, no transactions) is consistent, with zero savings |
| `Ledger.SumOfKindSnoc` | personal-finance-tracker-react-app/src/context/FinancialContext.jsx:50-56 | an appended entry adds its amount to the total of its own type and nothing to the others |
| `Ledger.SumSplitsById` | personal-finance-tracker-react-app/src/context/FinancialContext.jsx:70-79 | each total is the sum over the entries a delete keeps plus the sum over the entries it removes |
| `Ledger.DeleteSubtractsRemoved` | personal-finance-tracker-react-app/src/context/FinancialContext.jsx:68-88 | after a delete, income and expenses drop by exactly the removed entries' contributions |
| `Ledger.DeleteUnknownIdNoop` | personal-finance-tracker-react-app/src/context/FinancialContext.jsx:70 | deleting an unknown id leaves a consistent snapshot, list and totals, unchanged |
| `Ledger.DeleteTwice` | personal-finance-tracker-react-app/src/context/FinancialContext.jsx:68-88 | a second delete of the same id changes nothing |
| `Ledger.UpdateUnknownIdNoop` | personal-finance-tracker-react-app/src/context/FinancialContext.jsx:93-95 | updating an unknown id leaves a consistent snapshot unchanged |
| `Ledger.UpdateOfAddedEntry` | personal-finance-tracker-react-app/src/context/FinancialContext.jsx:91-104 | after adding an entry and updating it, each total is the old total plus the updated entry's contribution only |
| `Ledger.ExpenseUpdatedNotAccumulated` | personal-finance-tracker-react-app/src/context/FinancialContext.jsx:93-104 | an expense of 100 updated to 300 adds 300 to expenses, not 400, and leaves income alone |
| `Ledger.DeleteThenReAddRestoresTotals` | personal-finance-tracker-react-app/src/context/FinancialContext.jsx:41-88 | deleting the only entry with an id and adding it back restores income, expenses and savings |
| `Storage.LocalStorage.constructor` | personal-finance-tracker-react-app/src/context/AuthContext.jsx:25 | keys never written read as an empty users list, no current user and an empty data map |
| `Financial.FinancialProvider.constructor` | personal-finance-tracker-react-app/src/context/FinancialContext.jsx:12-21 | the initial in-memory state is the zeroed snapshot with the default categories |
| `Financial.FinancialProvider.Load` | personal-finance-tracker-react-app/src/context/FinancialContext.jsx:24-30 | with a user, the stored entry at the user's id replaces the snapshot if present; otherwise the snapshot in memory is kept |
| `Financial.FinancialProvider.Save` | personal-finance-tracker-react-app/src/context/FinancialContext.jsx:33-39 | with a user, the snapshot is written at the user's id and every other entry is unchanged; stored consistency is preserved |
| `Financial.FinancialProvider.AddTransaction` | personal-finance-tracker-react-app/src/context/FinancialContext.jsx:41-66 | the snapshot becomes the add updater's result, so its totals agree with its list |
| `Financial.FinancialProvider.DeleteTransaction` | personal-finance-tracker-react-app/src/context/FinancialContext.jsx:68-89 | the snapshot becomes the delete updater's result, with consistent totals |
| `Financial.FinancialProvider.UpdateTransaction` | personal-finance-tracker-react-app/src/context/FinancialContext.jsx:91-114 | the snapshot becomes the update updater's result, with consistent totals |
| `Financial.SaveThenLoad` | personal-finance-tracker-react-app/src/context/FinancialContext.jsx:26-37 | saving and then loading for the same user gives back the same snapshot, which is stored at that user's id |
| `Dashboard.CategoryChart` | personal-finance-tracker-react-app/src/pages/Dashboard.jsx:75-82 | at most six slices, all with values above 0, in the fixed bucket order; a bucket appears iff its expense sum is above 0 |
| `Dashboard.CalculateCategoryTotals` | personal-finance-tracker-react-app/src/pages/Dashboard.jsx:58-83 | the dictionary loop yields exactly the chart data: each bucket holds the sum of its expenses with a non-empty category |
| `Dashboard.UnchartedEntryIgnored` | personal-finance-tracker-react-app/src/pages/Dashboard.jsx:69-81 | an income entry, an entry with an empty category, or an expense under a key outside the six buckets does not change the chart |
| `Dashboard.SeededNamesNeverCharted` | personal-finance-tracker-react-app/src/pages/Dashboard.jsx:59-66 | expenses filed under the seeded capitalised category names never change the chart |
| `Dashboard.TotalBalance` | personal-finance-tracker-react-app/src/pages/Dashboard.jsx:49-52 | missing data counts as 0; for any stored snapshot the balance is `monthlyIncome - monthlyExpenses`; for a consistent snapshot it equals `savings`, that is, income sum minus expense sum |
| `Dashboard.NumberOrZero` | personal-finance-tracker-react-app/src/pages/Dashboard.jsx:49-50 | a missing value counts as 0 and a present number is kept |
| `Dashboard.CategorySum` | personal-finance-tracker-react-app/src/pages/Dashboard.jsx:69-73 | a bucket's accumulated value: expense amounts filed under that non-empty category; the empty category stays at 0 |
| `Dashboard.CategorySumIsExpenseTotal` | personal-finance-tracker-react-app/src/pages/Dashboard.jsx:69-73 | for a non-empty key, the bucket equals the expense total (as the ledger sums it) over the entries filed under that key |
| `Dashboard.CategorySumOfUnused` | personal-finance-tracker-react-app/src/pages/Dashboard.jsx:69-73 | a bucket stays at 0 when no entry is an expense filed under its key |
| `Dashboard.EmptyForm` | personal-finance-tracker-react-app/src/pages/Dashboard.jsx:40-46 | the reset form: type `expense`, empty amount, category and description, and today's date |
| `Dashboard.DashboardPage.constructor` | personal-finance-tracker-react-app/src/pages/Dashboard.jsx:39-46 | the page starts not editing, with the empty expense form |
| `Dashboard.DashboardPage.HandleTransactionSubmit` | personal-finance-tracker-react-app/src/pages/Dashboard.jsx:97-112 | while editing, it updates the edited entry's id with the form and stops editing; otherwise it adds the form as a new entry; either way it resets the form to an empty expense |
| `Dashboard.DashboardPage.HandleEdit` | personal-finance-tracker-react-app/src/pages/Dashboard.jsx:114-123 | type, amount, category, description and date are copied into the form, and the entry is marked as edited |
| `Dashboard.DashboardPage.CancelEdit` | personal-finance-tracker-react-app/src/pages/Dashboard.jsx:396-404 | editing stops and the form is reset |
| `Dashboard.DashboardPage.HandleDelete` | personal-finance-tracker-react-app/src/pages/Dashboard.jsx:125-129 | the entry is deleted only when the user confirms |
| `Auth.AppendKeepsEmailsUnique` | personal-finance-tracker-react-app/src/context/AuthContext.jsx:28-43 | appending a user whose email `find` does not find keeps emails unique |
| `Auth.FindByEmailIsUnique` | personal-finance-tracker-react-app/src/context/AuthContext.jsx:28 | with unique emails, looking up a stored user's email finds that user's own position |
| `Auth.SigninSucceedsIff` | personal-finance-tracker-react-app/src/context/AuthContext.jsx:76-80 | the credential lookup succeeds iff some stored user matches both email and password |
| `Auth.AuthProvider.constructor` | personal-finance-tracker-react-app/src/context/AuthContext.jsx:11 | no user is signed in initially; over a users list with unique emails the provider starts valid |
| `Auth.AuthProvider.Restore` | personal-finance-tracker-react-app/src/context/AuthContext.jsx:15-20 | a stored current user, if any, becomes the current user |
| `Auth.AuthProvider.Signup` | personal-finance-tracker-react-app/src/context/AuthContext.jsx:22-68 | a duplicate email fails with "User already exists" and changes nothing. Otherwise it succeeds: one user is appended at the end with the given email and password; the data map gains a zeroed snapshot at the new id and other ids are unchanged; the new user becomes current. If emails were unique before, they still are |
| `Auth.AuthProvider.Signin` | personal-finance-tracker-react-app/src/context/AuthContext.jsx:70-91 | success iff some user matches both credentials, and the first such user becomes current; on failure the current user is unchanged; users and data are never touched |
| `Auth.AuthProvider.Signout` | personal-finance-tracker-react-app/src/context/AuthContext.jsx:93-97 | the current user becomes none, in memory and in storage; the users list and data map are untouched |

## Left out

- JSON parsing and serialising, and `localStorage` itself: storage is the in-memory `Storage.LocalStorage` object holding decoded values.
- Auth.AuthProvider.Signup and Auth.AuthProvider.Signin: the `catch` branches are not modelled. They report exceptions from `JSON.parse` or from storage writes, and the model has neither.
- Auth.AuthProvider.Signup: does not check that the clock-based id is fresh, and neither does the code. Two sign-ups with the same id share an id; the second overwrites the first's stored snapshot, as the map update in the model shows.
- Ordering between the React effects is not modelled: `Load` and `Save` are explicit methods that take the current user. On a user change, the real save effect can briefly store the previous snapshot under the new id before the loaded one arrives.
- Navigation (`navigate('/login')` on sign-out, the dashboard's logout) and all rendering, charts, toasts and the dark-mode theme are not modelled.
- Form amounts typed as strings are not modelled. In the code they are added without `Number()` in the updaters and so concatenate. Amounts are integers, so `Number(amount)` in the chart loop is the identity.
- Floating point is not modelled: the savings-rate percentage, `toFixed` formatting and chart geometry are left out.
- Dashboard.TotalBalance: stored totals are integers in the model, so the `Number(x) || 0` normalisation only acts on missing data. A non-numeric stored total cannot occur.
- The page's browser validation is not modelled. The amount input is `required`, so `HandleTransactionSubmit` requires an amount to be present.
- Category management is not modelled. The code has none; `categories` is only seeded and carried along.
- The duplicated UI pages, routing and the remote identity provider used by other pages are not modelled.
