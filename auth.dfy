/**
 * The mock session store: the signed-in user, a loading flag, and the storage
 * the session survives in, keyed by "foodapp_user". Each login or signup call
 * is two events: the request starts (loading) and the simulated reply arrives.
 */
module Auth {

  import opened Wrappers

  datatype User = User(id: string, name: string, email: string)

  const STORAGE_KEY: string := "foodapp_user"
  const MIN_PASSWORD_LENGTH: int := 6
  /** Every account the mock back end creates carries this id. */
  const MOCK_USER_ID: string := "1"

  /** The browser storage, with the serialised record read back as the record itself. */
  type Storage = map<string, User>

  /** The part of the address before its first '@' (the whole address when there is none). */
  function NameFromEmail(email: string): (name: string)
    ensures name <= email
    ensures '@' !in name
    ensures name == email || email[|name|] == '@'
  {
    if email == [] || email[0] == '@' then []
    else [email[0]] + NameFromEmail(email[1..])
  }

  /** The three properties above pin the name down: no other prefix has them. */
  lemma {:induction false} NameFromEmailUnique(email: string, p: string)
    requires p <= email && '@' !in p
    requires p == email || email[|p|] == '@'
    ensures p == NameFromEmail(email)
  {
    if email != [] && email[0] != '@' {
      assert p != [];
      assert p[0] == email[0];
      assert p[1..] <= email[1..];
      assert '@' !in p[1..] by {
        forall k | 0 <= k < |p[1..]| ensures p[1..][k] != '@' {
          assert p[1..][k] == p[k + 1];
        }
      }
      NameFromEmailUnique(email[1..], p[1..]);
      assert p == [p[0]] + p[1..];
    }
  }

  /** The login rule: a non-empty email and a password of six characters or more. */
  predicate LoginAccepted(email: string, password: string)
  {
    email != "" && |password| >= MIN_PASSWORD_LENGTH
  }

  /** The signup rule: login's rule plus a non-empty name. */
  predicate SignupAccepted(name: string, email: string, password: string)
  {
    name != "" && LoginAccepted(email, password)
  }

  /** The saved session, if any. */
  function Saved(storage: Storage): (u: Option<User>)
    ensures u.Some? <==> STORAGE_KEY in storage
    ensures u.Some? ==> u.value == storage[STORAGE_KEY]
  {
    if STORAGE_KEY in storage then Some(storage[STORAGE_KEY]) else None
  }

  /** The record a successful login creates. */
  function LoginUser(email: string): (u: User)
    ensures u.id == MOCK_USER_ID && u.email == email
    ensures u.name <= email && '@' !in u.name
    ensures u.name == email || email[|u.name|] == '@'
  {
    User(MOCK_USER_ID, NameFromEmail(email), email)
  }

  class AuthStore {

    var user: Option<User>
    var isLoading: bool
    var storage: Storage
    /** Whether the startup effect has run. */
    ghost var restored: bool

    /** Once started, the user in memory is the saved session; before that nobody is signed in and the app is loading. */
    ghost predicate Valid()
      reads this
    {
      && (restored ==> user == Saved(storage))
      && (!restored ==> user == None && isLoading)
    }

    /** No user and loading, over whatever storage the browser holds. */
    constructor (saved: Storage)
      ensures Valid() && !restored
      ensures user == None && isLoading && storage == saved
    {
      user, isLoading, storage := None, true, saved;
      restored := false;
    }

    /** The startup effect: a saved record becomes the user, and loading ends. */
    method RestoreSession()
      requires Valid() && !restored
      modifies this
      ensures Valid() && restored
      ensures user == Saved(storage) && !isLoading
      ensures storage == old(storage)
    {
      if STORAGE_KEY in storage {
        user := Some(storage[STORAGE_KEY]);
      }
      isLoading := false;
      restored := true;
    }

    /** A login or signup request starts: loading, nothing else changes. */
    method BeginRequest()
      requires Valid() && !isLoading
      modifies this
      ensures Valid() && isLoading
      ensures user == old(user) && storage == old(storage) && restored == old(restored)
    {
      isLoading := true;
    }

    /** The simulated login reply: on success the user is created and saved; loading ends either way. */
    method CompleteLogin(email: string, password: string) returns (ok: bool)
      requires Valid() && restored && isLoading
      modifies this
      ensures Valid() && restored && !isLoading
      ensures ok == LoginAccepted(email, password)
      ensures ok ==> user == Some(LoginUser(email)) && storage == old(storage)[STORAGE_KEY := LoginUser(email)]
      ensures !ok ==> user == old(user) && storage == old(storage)
    {
      if email != "" && |password| >= MIN_PASSWORD_LENGTH {
        var userData := User(MOCK_USER_ID, NameFromEmail(email), email);
        user := Some(userData);
        storage := storage[STORAGE_KEY := userData];
        isLoading := false;
        return true;
      }
      isLoading := false;
      return false;
    }

    /** The simulated signup reply: as login, but the name is the one given. */
    method CompleteSignup(name: string, email: string, password: string) returns (ok: bool)
      requires Valid() && restored && isLoading
      modifies this
      ensures Valid() && restored && !isLoading
      ensures ok == SignupAccepted(name, email, password)
      ensures ok ==> user == Some(User(MOCK_USER_ID, name, email))
      ensures ok ==> storage == old(storage)[STORAGE_KEY := User(MOCK_USER_ID, name, email)]
      ensures !ok ==> user == old(user) && storage == old(storage)
    {
      if name != "" && email != "" && |password| >= MIN_PASSWORD_LENGTH {
        var userData := User(MOCK_USER_ID, name, email);
        user := Some(userData);
        storage := storage[STORAGE_KEY := userData];
        isLoading := false;
        return true;
      }
      isLoading := false;
      return false;
    }

    /** Logout: nobody is signed in and the saved session is gone. */
    method Logout()
      requires Valid()
      modifies this
      ensures Valid()
      ensures user == None && storage == old(storage) - {STORAGE_KEY}
      ensures isLoading == old(isLoading) && restored == old(restored)
    {
      user := None;
      storage := storage - {STORAGE_KEY};
    }
  }

  /**
   * A session over empty storage: a five-character password is refused and
   * leaves nobody signed in; six characters sign "ann" in, and a new store over
   * the resulting storage restores that same user.
   */
  method LoginScenario() returns (first: bool, second: bool, restoredUser: Option<User>)
    ensures !first && second
    ensures restoredUser == Some(User("1", "ann", "ann@example.com"))
  {
    var store := new AuthStore(map[]);
    store.RestoreSession();
    store.BeginRequest();
    first := store.CompleteLogin("ann@example.com", "12345");
    assert store.user == None;
    store.BeginRequest();
    second := store.CompleteLogin("ann@example.com", "123456");
    assert NameFromEmail("ann@example.com") == "ann" by {
      NameFromEmailUnique("ann@example.com", "ann");
    }
    var reopened := new AuthStore(store.storage);
    reopened.RestoreSession();
    restoredUser := reopened.user;
  }
}
