/** The web app's accounts (`AuthProvider` in `src/context/AuthContext.tsx`):
    a list of registered users kept in the browser's storage, the persisted
    session, the signed-in user and the loading flag. Storage is modelled as
    two fields of the store: `users` for the registered accounts and
    `session` for the persisted signed-in user. */
module Auth {
  import opened Wrappers

  datatype User = User(email: string, name: string)

  /** A registered account as stored. */
  datatype Account = Account(name: string, email: string, password: string)

  /** No two accounts share an email. */
  predicate DistinctEmails(users: seq<Account>)
  {
    forall i, j :: 0 <= i < j < |users| ==> users[i].email != users[j].email
  }

  /** `users.some(u => u.email === email)` */
  predicate EmailTaken(users: seq<Account>, email: string)
  {
    exists i :: 0 <= i < |users| && users[i].email == email
  }

  /** `users.find(u => u.email === email && u.password === password)`: the
      first account matching both. */
  function FindAccount(users: seq<Account>, email: string, password: string): (r: Option<Account>)
    ensures r.None? <==> forall i :: 0 <= i < |users| ==> users[i].email != email || users[i].password != password
    ensures r.Some? ==> r.value in users && r.value.email == email && r.value.password == password
  {
    if users == [] then None
    else if users[0].email == email && users[0].password == password then Some(users[0])
    else FindAccount(users[1..], email, password)
  }

  /** With emails kept distinct, signing in with an account's email succeeds
      exactly when the password is that account's, and finds that account. */
  lemma {:induction false} SignInFindsTheAccount(users: seq<Account>, i: nat, password: string)
    requires DistinctEmails(users) && i < |users|
    ensures FindAccount(users, users[i].email, password).Some? <==> users[i].password == password
    ensures users[i].password == password ==> FindAccount(users, users[i].email, password) == Some(users[i])
  {
    if i > 0 {
      var rest := users[1..];
      assert DistinctEmails(rest) by {
        forall j, l | 0 <= j < l < |rest|
          ensures rest[j].email != rest[l].email
        {
          assert rest[j] == users[j + 1] && rest[l] == users[l + 1];
        }
      }
      assert rest[i - 1] == users[i];
      SignInFindsTheAccount(rest, i - 1, password);
    }
  }

  /** Appending an account whose email is not taken keeps emails distinct. */
  lemma AppendKeepsEmailsDistinct(users: seq<Account>, account: Account)
    requires DistinctEmails(users) && !EmailTaken(users, account.email)
    ensures DistinctEmails(users + [account])
  {
    var s := users + [account];
    forall i, j | 0 <= i < j < |s|
      ensures s[i].email != s[j].email
    {
      if j == |users| {
        assert s[i] == users[i];
      }
    }
  }

  class AuthStore {
    /** Accounts in storage (`visionix_users`). */
    var users: seq<Account>
    /** The persisted session (`visionix_user`). */
    var session: Option<User>
    var user: Option<User>
    var isLoading: bool

    ghost predicate Valid()
      reads this
    {
      DistinctEmails(users)
    }

    /** The provider's first render, over whatever storage holds. */
    constructor(storedUsers: seq<Account>, storedSession: Option<User>)
      requires DistinctEmails(storedUsers)
      ensures Valid()
      ensures users == storedUsers && session == storedSession && user == None && isLoading
    {
      users := storedUsers;
      session := storedSession;
      user := None;
      isLoading := true;
    }

    /** The mount effect: restores the persisted session, if any. */
    method Restore()
      modifies this
      ensures user == (if old(session).Some? then old(session) else old(user))
      ensures !isLoading && users == old(users) && session == old(session)
    {
      if session.Some? {
        user := session;
      }
      isLoading := false;
    }

    /** `isAuthenticated` */
    predicate IsAuthenticated()
      reads this
    {
      user.Some?
    }

    /** `login` */
    method Login(email: string, password: string) returns (ok: bool)
      modifies this
      ensures ok <==> exists i :: 0 <= i < |users| && users[i].email == email && users[i].password == password
      ensures ok ==> var a := FindAccount(users, email, password).value;
        user == Some(User(a.email, a.name)) && session == user
      ensures !ok ==> user == old(user) && session == old(session)
      ensures users == old(users) && !isLoading
    {
      isLoading := true;
      var found := FindAccount(users, email, password);
      if found.Some? {
        var data := User(found.value.email, found.value.name);
        user := Some(data);
        session := Some(data);
        isLoading := false;
        return true;
      }
      isLoading := false;
      return false;
    }

    /** `register`: adds the account unless its email is taken; does not
        sign in. */
    method Register(name: string, email: string, password: string) returns (ok: bool)
      requires Valid()
      modifies this
      ensures Valid()
      ensures ok <==> !EmailTaken(old(users), email)
      ensures users == if ok then old(users) + [Account(name, email, password)] else old(users)
      ensures user == old(user) && session == old(session) && !isLoading
    {
      isLoading := true;
      if EmailTaken(users, email) {
        isLoading := false;
        return false;
      }
      var account := Account(name, email, password);
      AppendKeepsEmailsDistinct(users, account);
      users := users + [account];
      isLoading := false;
      return true;
    }

    /** `logout` */
    method Logout()
      modifies this
      ensures user == None && session == None
      ensures users == old(users) && isLoading == old(isLoading)
      ensures !IsAuthenticated()
    {
      user := None;
      session := None;
    }
  }
}
