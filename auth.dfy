/**
 * The user registry of the authentication context: sign-up, sign-in and
 * sign-out over the `users` list, the `financialData` map and the current
 * user (personal-finance-tracker-react-app/src/context/AuthContext.jsx).
 */
module Auth {

  import opened Wrappers
  import opened Sequences
  import opened Ledger
  import opened Storage

  /** `{ success: true }` or `{ success: false, error }` */
  datatype AuthResult = Success | Failure(error: string)

  const USER_EXISTS: string := "User already exists"
  const INVALID_CREDENTIALS: string := "Invalid email or password"

  function WithEmail(email: string): User -> bool
  {
    (u: User) => u.email == email
  }

  function WithCredentials(email: string, password: string): User -> bool
  {
    (u: User) => u.email == email && u.password == password
  }

  /** No two registered accounts share an email. */
  predicate EmailsUnique(users: seq<User>)
  {
    forall i, j :: 0 <= i < j < |users| ==> users[i].email != users[j].email
  }

  /** An email that `users.find` does not find can be registered without a clash. */
  lemma AppendKeepsEmailsUnique(users: seq<User>, u: User)
    requires EmailsUnique(users)
    requires FindFirst(users, WithEmail(u.email)).None?
    ensures EmailsUnique(users + [u])
  {
    forall i | 0 <= i < |users|
      ensures users[i].email != u.email
    {
      assert !WithEmail(u.email)(users[i]);
    }
  }

  /** With unique emails, an account is found by its email exactly at its own position. */
  lemma FindByEmailIsUnique(users: seq<User>, k: nat)
    requires EmailsUnique(users) && k < |users|
    ensures FindFirst(users, WithEmail(users[k].email)) == Some(k)
  {
    assert WithEmail(users[k].email)(users[k]);
  }

  class AuthProvider {
    /** the `user` state */
    var user: Option<User>
    const store: LocalStorage

    /** Sign-up keeps emails unique, so this holds from an empty store on. */
    ghost predicate Valid()
      reads this, store
    {
      EmailsUnique(store.users)
    }

    constructor (store: LocalStorage)
      ensures this.store == store && user == None
      ensures EmailsUnique(store.users) ==> Valid()
    {
      this.store := store;
      user := None;
    }

    /** The mount effect: take the stored current user, if there is one. */
    method Restore()
      modifies this
      ensures user == if store.user.Some? then store.user else old(user)
    {
      if store.user.Some? {
        user := store.user;
      }
    }

    /**
     * `signup(email, password)`; `id` is `Date.now().toString()` and
     * `createdAt` is `new Date().toISOString()`.
     */
    method Signup(email: string, password: string, id: string, createdAt: string) returns (r: AuthResult)
      modifies this, store
      ensures old(Valid()) ==> Valid()
      ensures FindFirst(old(store.users), WithEmail(email)).Some? ==>
                && r == Failure(USER_EXISTS)
                && user == old(user)
                && store.users == old(store.users)
                && store.user == old(store.user)
                && store.financialData == old(store.financialData)
      ensures FindFirst(old(store.users), WithEmail(email)).None? ==>
                var newUser := User(id, email, password, createdAt);
                && r == Success
                && store.users == old(store.users) + [newUser]
                && store.financialData == old(store.financialData)[id := EmptySnapshot]
                && user == Some(newUser)
                && store.user == Some(newUser)
    {
      var users := store.users;
      var existing := FindFirst(users, WithEmail(email));
      if existing.Some? {
        return Failure(USER_EXISTS);
      }
      var newUser := User(id, email, password, createdAt);
      if EmailsUnique(users) {
        AppendKeepsEmailsUnique(users, newUser);
      }
      store.users := users + [newUser];
      store.financialData := store.financialData[newUser.id := EmptySnapshot];
      user := Some(newUser);
      store.user := Some(newUser);
      return Success;
    }

    /** `signin(email, password)`: the first account matching both becomes current. */
    method Signin(email: string, password: string) returns (r: AuthResult)
      modifies this, store
      ensures store.users == old(store.users) && store.financialData == old(store.financialData)
      ensures FindFirst(store.users, WithCredentials(email, password)).None? ==>
                && r == Failure(INVALID_CREDENTIALS)
                && user == old(user)
                && store.user == old(store.user)
      ensures FindFirst(store.users, WithCredentials(email, password)).Some? ==>
                && r == Success
                && user == Some(store.users[FindFirst(store.users, WithCredentials(email, password)).value])
                && store.user == user
    {
      var found := FindFirst(store.users, WithCredentials(email, password));
      if found.None? {
        return Failure(INVALID_CREDENTIALS);
      }
      var foundUser := store.users[found.value];
      user := Some(foundUser);
      store.user := Some(foundUser);
      return Success;
    }

    /** `signout()`: no current user, in memory or in storage; accounts and data stay. */
    method Signout()
      modifies this, store
      ensures user == None && store.user == None
      ensures store.users == old(store.users) && store.financialData == old(store.financialData)
    {
      user := None;
      store.user := None;
    }
  }

  /** Sign-in succeeds exactly when some account matches both email and password. */
  lemma SigninSucceedsIff(users: seq<User>, email: string, password: string)
    ensures FindFirst(users, WithCredentials(email, password)).Some?
        <==> exists i :: 0 <= i < |users| && users[i].email == email && users[i].password == password
  {
    if FindFirst(users, WithCredentials(email, password)).None? {
      forall i | 0 <= i < |users|
        ensures !(users[i].email == email && users[i].password == password)
      {
        assert !WithCredentials(email, password)(users[i]);
      }
    } else {
      var k := FindFirst(users, WithCredentials(email, password)).value;
      assert WithCredentials(email, password)(users[k]);
    }
  }
}
