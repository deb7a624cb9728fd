/**
 * The authentication context (`AuthProvider`): the signed-in user and an
 * "authenticated" flag, backed by the "user" entry of browser storage.
 * Sign-up stores the record unconditionally; sign-in only compares the
 * e-mail address with the stored record's, never the password; sign-out
 * removes the entry.
 */
module Auth {
  import opened Wrappers
  import opened UserStore

  /** The value `signup` and `signin` return. */
  datatype AuthResult = AuthResult(success: bool, error: Option<string>)

  const InvalidCredentials := "Invalid credentials"

  /** Everything the provider's operations read or change. */
  datatype Session = Session(user: Option<UserRecord>, isAuthenticated: bool, store: map<string, UserRecord>)

  /** The flag says "authenticated" exactly when there is a user. */
  predicate Consistent(s: Session) {
    s.isAuthenticated <==> s.user.Some?
  }

  /** The stored record exists and carries exactly this e-mail address. */
  predicate StoredEmailIs(store: map<string, UserRecord>, email: string) {
    UserKey in store && store[UserKey].email == Some(email)
  }

  /** A freshly mounted provider over `store`: signed in as the stored record, if there is one. */
  function Mounted(store: map<string, UserRecord>): (s: Session)
    ensures s.store == store && Consistent(s)
    ensures s.isAuthenticated <==> UserKey in store
    ensures UserKey in store ==> s.user == Some(store[UserKey])
  {
    if UserKey in store then Session(Some(store[UserKey]), true, store)
    else Session(None, false, store)
  }

  /** `signup(record)`: always succeeds, replacing any stored record. */
  function SignupStep(s: Session, record: UserRecord): (r: (Session, AuthResult))
    ensures r.1.success && r.1.error == None
    ensures r.0.store == s.store[UserKey := record]
    ensures r.0.user == Some(record) && Consistent(r.0)
  {
    (Session(Some(record), true, s.store[UserKey := record]), AuthResult(true, None))
  }

  /** `signin(email, password)`: succeeds iff the stored record's e-mail is `email`. */
  function SigninStep(s: Session, email: string, password: string): (r: (Session, AuthResult))
    ensures r.1.success <==> StoredEmailIs(s.store, email)
    ensures r.1.success ==> r.0 == Session(Some(s.store[UserKey]), true, s.store) && r.1.error == None
    ensures !r.1.success ==> r.0 == s && r.1.error == Some(InvalidCredentials)
  {
    if UserKey in s.store && s.store[UserKey].email == Some(email) then
      (Session(Some(s.store[UserKey]), true, s.store), AuthResult(true, None))
    else
      (s, AuthResult(false, Some(InvalidCredentials)))
  }

  /** `signout()`: forgets the user and removes the stored record. */
  function SignoutStep(s: Session): (r: Session)
    ensures UserKey !in r.store && r.store == s.store - {UserKey}
    ensures r.user == None && !r.isAuthenticated && Consistent(r)
  {
    Session(None, false, s.store - {UserKey})
  }

  class AuthProvider {
    const storage: Storage
    var user: Option<UserRecord>
    var isAuthenticated: bool

    /** The provider before its mount effect has run. */
    constructor (storage: Storage)
      ensures this.storage == storage
      ensures user == None && !isAuthenticated
    {
      this.storage := storage;
      user := None;
      isAuthenticated := false;
    }

    function State(): Session
      reads this, storage
    {
      Session(user, isAuthenticated, storage.items)
    }

    /** The mount effect: picks up a persisted record. */
    method Mount()
      modifies this
      ensures old(UserKey in storage.items) ==> user == Some(storage.items[UserKey]) && isAuthenticated
      ensures old(UserKey !in storage.items) ==> user == old(user) && isAuthenticated == old(isAuthenticated)
      ensures old(user) == None && !old(isAuthenticated) ==> State() == Mounted(old(storage.items))
    {
      var stored := storage.GetItem(UserKey);
      if stored.Some? {
        user := stored;
        isAuthenticated := true;
      }
    }

    method Signup(record: UserRecord) returns (result: AuthResult)
      modifies this, storage
      ensures (State(), result) == SignupStep(old(State()), record)
    {
      storage.SetItem(UserKey, record);
      user := Some(record);
      isAuthenticated := true;
      result := AuthResult(true, None);
    }

    method Signin(email: string, password: string) returns (result: AuthResult)
      modifies this
      ensures (State(), result) == SigninStep(old(State()), email, password)
    {
      var stored := storage.GetItem(UserKey);
      if stored.Some? {
        var userData := stored.value;
        if userData.email == Some(email) {
          user := Some(userData);
          isAuthenticated := true;
          return AuthResult(true, None);
        }
      }
      return AuthResult(false, Some(InvalidCredentials));
    }

    method Signout()
      modifies this, storage
      ensures State() == SignoutStep(old(State()))
    {
      storage.RemoveItem(UserKey);
      user := None;
      isAuthenticated := false;
    }
  }

  /** The client's operations on the provider, for reasoning about whole sessions. */
  datatype Op = Mount | Signup(record: UserRecord) | Signin(email: string, password: string) | Signout

  /** One operation. `Mount` stands for a page load: a fresh provider over the same storage. */
  function Apply(s: Session, op: Op): Session {
    match op
    case Mount => Mounted(s.store)
    case Signup(r) => SignupStep(s, r).0
    case Signin(e, p) => SigninStep(s, e, p).0
    case Signout => SignoutStep(s)
  }

  function Run(s: Session, ops: seq<Op>): Session
    decreases |ops|
  {
    if ops == [] then s else Run(Apply(s, ops[0]), ops[1..])
  }

  /** Every run from a consistent state, such as the initial one, stays consistent. */
  lemma {:induction false} RunConsistent(s: Session, ops: seq<Op>)
    requires Consistent(s)
    ensures Consistent(Run(s, ops))
    decreases |ops|
  {
    if ops != [] {
      var next := Apply(s, ops[0]);
      assert Consistent(next);
      RunConsistent(next, ops[1..]);
    }
  }

  /** After signing up, signing in with the record's e-mail succeeds, whatever the password. */
  lemma SignupThenSignin(s: Session, record: UserRecord, password: string)
    requires record.email.Some?
    ensures SigninStep(SignupStep(s, record).0, record.email.value, password).1.success
  {
  }

  /** After signing out, every sign-in fails. */
  lemma SignoutThenSigninFails(s: Session, email: string, password: string)
    ensures !SigninStep(SignoutStep(s), email, password).1.success
  {
  }

  /** The password never influences sign-in. */
  lemma PasswordIgnored(s: Session, email: string, p1: string, p2: string)
    ensures SigninStep(s, email, p1) == SigninStep(s, email, p2)
  {
  }

  /** A later sign-up replaces the earlier record: the earlier e-mail no longer signs in unless both match. */
  lemma SignupOverwrites(s: Session, first: UserRecord, second: UserRecord, email: string, password: string)
    requires first.email == Some(email) && second.email != Some(email)
    ensures !SigninStep(SignupStep(SignupStep(s, first).0, second).0, email, password).1.success
  {
  }
}
