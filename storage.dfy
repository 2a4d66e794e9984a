/**
 * The browser's local storage as the application uses it: three keys holding
 * JSON values, kept here already decoded. A key that was never written reads
 * as its empty default (`'[]'`, `'{}'`, absent), which is what the
 * constructor produces.
 */
module Storage {

  import opened Wrappers
  import opened Ledger

  /** A registered account (the `users` records of personal-finance-tracker-react-app/src/context/AuthContext.jsx). */
  datatype User = User(id: string, email: string, password: string, createdAt: string)

  class LocalStorage {
    /** key `users`: every registered account, in registration order */
    var users: seq<User>
    /** key `user`: the signed-in account, if any */
    var user: Option<User>
    /** key `financialData`: each user's snapshot, by user id */
    var financialData: map<string, Snapshot>

    constructor ()
      ensures users == [] && user == None && financialData == map[]
    {
      users := [];
      user := None;
      financialData := map[];
    }
  }
}
