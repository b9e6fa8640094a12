// The session store (src/stores/auth.ts): the current user and token, their
// persisted copies under `auth_user` and `auth_token`, and the derived flags.
// Each action is specified by a transition on a `Session` value (the two
// fields plus the storage entries); the store's methods follow the source
// step by step and are proved to perform exactly that transition.

module Auth {
  import opened Util
  import opened Types
  import opened Storage

  const TokenKey: string := "auth_token"
  const UserKey: string := "auth_user"

  /** The e-mail that the mock login turns into the administrator. */
  const AdminEmail: string := "admin@flowsyndicate.pl"
  const AdminId: string := "admin_1"

  /** The phone number the mock login gives every user. */
  const LoginPhone: string := "+48123456789"

  /** What the session store holds, together with the storage it persists to. */
  datatype Session = Session(user: Option<User>, token: Option<string>, entries: seq<Entry>)

  // ---- derived flags (auth.ts:17-19) ----

  /** `isAuthenticated`: a user is present and the token is a non-empty string. */
  predicate Authenticated(user: Option<User>, token: Option<string>)
  {
    user.Some? && token.Some? && token.value != ""
  }

  /** `isAdmin`: `user?.role === 'admin'`. */
  predicate AdminRole(user: Option<User>)
  {
    user.Some? && user.value.role == Admin
  }

  /** `isUser`: `user?.role === 'user'`. */
  predicate MemberRole(user: Option<User>)
  {
    user.Some? && user.value.role == Member
  }

  /**
   * The invariant the actions keep: user and token are present together, and
   * a present token is never empty (no half-written identity/token pair).
   */
  predicate Consistent(s: Session)
  {
    (s.user.Some? <==> s.token.Some?) && (s.token.Some? ==> s.token.value != "")
  }

  // ---- transitions ----

  function MintedToken(now: nat): string
  {
    "token_" + Decimal(now)
  }

  /** The user `register` builds from its input. */
  function RegisteredUser(data: RegisterData, now: nat, iso: string): User
  {
    User("user_" + Decimal(now), data.email, data.phone, Member, iso, iso)
  }

  /** The user the mock `login` builds: the designated e-mail becomes the administrator. */
  function LoginUser(data: LoginData, now: nat, iso: string): User
  {
    var isAdminEmail := data.email == AdminEmail;
    User(if isAdminEmail then AdminId else "user_" + Decimal(now),
         data.email, LoginPhone,
         if isAdminEmail then Admin else Member,
         iso, iso)
  }

  /** Set user and token, then write `auth_token` and `auth_user`, in that order. */
  function SignedIn(s: Session, u: User, token: string): Session
  {
    Session(Some(u), Some(token), Put(Put(s.entries, TokenKey, Text(token)), UserKey, UserDoc(u)))
  }

  function AfterRegister(s: Session, data: RegisterData, now: nat, iso: string): Session
  {
    SignedIn(s, RegisteredUser(data, now, iso), MintedToken(now))
  }

  function AfterLogin(s: Session, data: LoginData, now: nat, iso: string): Session
  {
    SignedIn(s, LoginUser(data, now, iso), MintedToken(now))
  }

  function AfterLogout(s: Session): Session
  {
    Session(None, None, Remove(Remove(s.entries, TokenKey), UserKey))
  }

  /** `getItem('auth_token')` when it is a non-empty (truthy) string. */
  function StoredToken(v: Option<Value>): Option<string>
  {
    match v
    case Some(Text(t)) => if t != "" then Some(t) else None
    case _ => None
  }

  /** `getItem('auth_user')` is truthy: present and not the empty string. */
  predicate StoredUserPresent(v: Option<Value>)
  {
    v.Some? && v.value != Text("")
  }

  /**
   * `restoreSession`: with both keys present, the token is adopted and the
   * user parsed; a user that does not parse sends the store through `logout`.
   */
  function AfterRestore(s: Session): Session
  {
    var storedToken := StoredToken(Lookup(s.entries, TokenKey));
    var storedUser := Lookup(s.entries, UserKey);
    if storedToken.Some? && StoredUserPresent(storedUser) then
      match storedUser.value
      case UserDoc(u) => Session(Some(u), storedToken, s.entries)
      case _ => AfterLogout(s.(token := storedToken))
    else s
  }

  // ---- properties ----

  /** `isAdmin` and `isUser` never hold together; a present user has one of them. */
  lemma RoleFlags(user: Option<User>)
    ensures !(AdminRole(user) && MemberRole(user))
    ensures user.Some? <==> AdminRole(user) || MemberRole(user)
  {
  }

  /** Under the invariant, `isAuthenticated` is just "a user is present". */
  lemma AuthenticatedIffUser(s: Session)
    requires Consistent(s)
    ensures Authenticated(s.user, s.token) <==> s.user.Some?
  {
  }

  /** The designated e-mail yields `admin_1` with role admin; any other e-mail a `user_` id with role user. */
  lemma LoginRole(data: LoginData, now: nat, iso: string)
    ensures var u := LoginUser(data, now, iso);
      && (u.role == Admin <==> data.email == AdminEmail)
      && (u.role == Member <==> data.email != AdminEmail)
      && (data.email == AdminEmail ==> u.id == AdminId)
      && (data.email != AdminEmail ==> StartsWith(u.id, "user_") && u.id != AdminId)
      && u.email == data.email
  {
    var u := LoginUser(data, now, iso);
    if data.email != AdminEmail {
      StartsWithConcat("user_", Decimal(now));
      assert u.id[0] == 'u' != AdminId[0];
    }
  }

  /** `register` always yields role user and copies e-mail and phone. */
  lemma RegisterCopiesInput(s: Session, data: RegisterData, now: nat, iso: string)
    ensures var r := AfterRegister(s, data, now, iso);
      && r.user.Some? && r.user.value.role == Member && MemberRole(r.user) && !AdminRole(r.user)
      && r.user.value.email == data.email && r.user.value.phone == data.phone
  {
  }

  /** After signing in, memory and storage hold the same pair and the session is authenticated. */
  lemma SignedInAgrees(s: Session, u: User, token: string)
    requires token != ""
    ensures var r := SignedIn(s, u, token);
      && Lookup(r.entries, TokenKey) == Some(Text(token))
      && Lookup(r.entries, UserKey) == Some(UserDoc(u))
      && Authenticated(r.user, r.token) && Consistent(r)
  {
    var once := Put(s.entries, TokenKey, Text(token));
    LookupPut(s.entries, TokenKey, Text(token), TokenKey);
    LookupPut(once, UserKey, UserDoc(u), TokenKey);
    LookupPut(once, UserKey, UserDoc(u), UserKey);
  }

  lemma LoginAuthenticates(s: Session, data: LoginData, now: nat, iso: string)
    ensures var r := AfterLogin(s, data, now, iso);
      && Authenticated(r.user, r.token) && Consistent(r)
      && Lookup(r.entries, TokenKey) == Some(Text(r.token.value))
      && Lookup(r.entries, UserKey) == Some(UserDoc(r.user.value))
  {
    SignedInAgrees(s, LoginUser(data, now, iso), MintedToken(now));
  }

  lemma RegisterAuthenticates(s: Session, data: RegisterData, now: nat, iso: string)
    ensures var r := AfterRegister(s, data, now, iso);
      && Authenticated(r.user, r.token) && Consistent(r)
      && Lookup(r.entries, TokenKey) == Some(Text(r.token.value))
      && Lookup(r.entries, UserKey) == Some(UserDoc(r.user.value))
  {
    SignedInAgrees(s, RegisteredUser(data, now, iso), MintedToken(now));
  }

  /** A reload after signing in restores exactly the signed-in session. */
  lemma RestoreAfterSignIn(s: Session, u: User, token: string)
    requires token != ""
    ensures AfterRestore(Session(None, None, SignedIn(s, u, token).entries)) == SignedIn(s, u, token)
    ensures AfterRestore(SignedIn(s, u, token)) == SignedIn(s, u, token)
  {
    SignedInAgrees(s, u, token);
  }

  /** `logout` clears both fields and both keys, and leaves every other key as it was. */
  lemma LogoutClears(s: Session)
    ensures var r := AfterLogout(s);
      && r.user.None? && r.token.None? && !Authenticated(r.user, r.token) && Consistent(r)
      && Lookup(r.entries, TokenKey).None? && Lookup(r.entries, UserKey).None?
      && forall k :: k != TokenKey && k != UserKey ==> Lookup(r.entries, k) == Lookup(s.entries, k)
  {
    var once := Remove(s.entries, TokenKey);
    forall k ensures Lookup(AfterLogout(s).entries, k) ==
        if k == TokenKey || k == UserKey then None else Lookup(s.entries, k) {
      LookupRemove(s.entries, TokenKey, k);
      LookupRemove(once, UserKey, k);
    }
  }

  /** Calling `logout` twice is the same as calling it once. */
  lemma LogoutIdempotent(s: Session)
    ensures AfterLogout(AfterLogout(s)) == AfterLogout(s)
  {
    var es := AfterLogout(s).entries;
    LogoutClears(s);
    RemoveAbsent(es, TokenKey);
    RemoveAbsent(es, UserKey);
  }

  /** A stored user that does not parse ends in the fully logged-out state, although the token was adopted first. */
  lemma CorruptUserClears(s: Session)
    requires StoredToken(Lookup(s.entries, TokenKey)).Some?
    requires StoredUserPresent(Lookup(s.entries, UserKey))
    requires !Lookup(s.entries, UserKey).value.UserDoc?
    ensures AfterRestore(s) == AfterLogout(s)
    ensures !Authenticated(AfterRestore(s).user, AfterRestore(s).token)
  {
  }

  /** With either key missing, `restoreSession` changes nothing. */
  lemma RestoreWithoutStoredPair(s: Session)
    requires Lookup(s.entries, TokenKey).None? || Lookup(s.entries, UserKey).None?
    ensures AfterRestore(s) == s
  {
  }

  /** With both keys present and a parseable user, the state becomes the stored pair. */
  lemma RestoreAdoptsStoredPair(s: Session, token: string, u: User)
    requires token != ""
    requires Lookup(s.entries, TokenKey) == Some(Text(token))
    requires Lookup(s.entries, UserKey) == Some(UserDoc(u))
    ensures AfterRestore(s) == Session(Some(u), Some(token), s.entries)
    ensures Authenticated(AfterRestore(s).user, AfterRestore(s).token)
  {
  }

  /** Restoring twice is restoring once. */
  lemma RestoreIdempotent(s: Session)
    ensures AfterRestore(AfterRestore(s)) == AfterRestore(s)
  {
    var storedToken := StoredToken(Lookup(s.entries, TokenKey));
    var storedUser := Lookup(s.entries, UserKey);
    if storedToken.Some? && StoredUserPresent(storedUser) && !storedUser.value.UserDoc? {
      LogoutClears(s.(token := storedToken));
    }
  }

  /** `logout` followed by `restoreSession` leaves the session logged out. */
  lemma RestoreAfterLogout(s: Session)
    ensures AfterRestore(AfterLogout(s)) == AfterLogout(s)
    ensures !Authenticated(AfterRestore(AfterLogout(s)).user, AfterRestore(AfterLogout(s)).token)
  {
    LogoutClears(s);
  }

  /** Every action keeps the session consistent. */
  lemma ActionsKeepConsistent(s: Session, rd: RegisterData, ld: LoginData, now: nat, iso: string)
    requires Consistent(s)
    ensures Consistent(AfterRegister(s, rd, now, iso))
    ensures Consistent(AfterLogin(s, ld, now, iso))
    ensures Consistent(AfterLogout(s))
    ensures Consistent(AfterRestore(s))
  {
  }

  // ---- the store ----

  class AuthStore {
    var user: Option<User>
    var token: Option<string>
    var error: Option<string>
    const storage: LocalStorage

    constructor(storage: LocalStorage)
      ensures this.storage == storage
      ensures user.None? && token.None? && error.None?
    {
      this.storage := storage;
      user, token, error := None, None, None;
    }

    function Snapshot(): Session
      reads this, storage
    {
      Session(user, token, storage.entries)
    }

    /** `isAuthenticated`; in a consistent session it holds exactly when a user is signed in. */
    predicate IsAuthenticated()
      reads this
      ensures IsAuthenticated() ==> user.Some? && token.Some?
      ensures (user.Some? ==> token.Some? && token.value != "") ==> (IsAuthenticated() <==> user.Some?)
    {
      Authenticated(user, token)
    }

    /** `isAdmin`: a signed-in user with role admin, never one with role user. */
    predicate IsAdmin()
      reads this
      ensures IsAdmin() ==> user.Some? && !MemberRole(user)
      ensures user.Some? <==> IsAdmin() || MemberRole(user)
    {
      AdminRole(user)
    }

    /** `isUser`: a signed-in user with role user, never one with role admin. */
    predicate IsUser()
      reads this
      ensures IsUser() ==> user.Some? && !AdminRole(user)
      ensures user.Some? <==> IsUser() || AdminRole(user)
    {
      MemberRole(user)
    }

    /** `register`; `now` is `Date.now()` and `iso` is `new Date().toISOString()`. */
    method Register(data: RegisterData, now: nat, iso: string)
      requires storage.Valid()
      modifies this, storage
      ensures storage.Valid()
      ensures Snapshot() == AfterRegister(old(Snapshot()), data, now, iso)
      ensures error.None?
    {
      error := None;
      var u := User("user_" + Decimal(now), data.email, data.phone, Member, iso, iso);
      var t := "token_" + Decimal(now);
      user := Some(u);
      token := Some(t);
      storage.SetItem(TokenKey, Text(t));
      storage.SetItem(UserKey, UserDoc(u));
    }

    method Login(data: LoginData, now: nat, iso: string)
      requires storage.Valid()
      modifies this, storage
      ensures storage.Valid()
      ensures Snapshot() == AfterLogin(old(Snapshot()), data, now, iso)
      ensures error.None?
    {
      error := None;
      var isAdminEmail := data.email == AdminEmail;
      var u := User(if isAdminEmail then AdminId else "user_" + Decimal(now),
                    data.email, LoginPhone,
                    if isAdminEmail then Admin else Member,
                    iso, iso);
      var t := "token_" + Decimal(now);
      user := Some(u);
      token := Some(t);
      storage.SetItem(TokenKey, Text(t));
      storage.SetItem(UserKey, UserDoc(u));
    }

    method Logout()
      requires storage.Valid()
      modifies this, storage
      ensures storage.Valid()
      ensures Snapshot() == AfterLogout(old(Snapshot()))
      ensures error == old(error)
    {
      user := None;
      token := None;
      storage.RemoveItem(TokenKey);
      storage.RemoveItem(UserKey);
    }

    method RestoreSession()
      requires storage.Valid()
      modifies this, storage
      ensures storage.Valid()
      ensures Snapshot() == AfterRestore(old(Snapshot()))
      ensures error == old(error)
    {
      var storedToken := StoredToken(storage.GetItem(TokenKey));
      var storedUser := storage.GetItem(UserKey);
      if storedToken.Some? && StoredUserPresent(storedUser) {
        token := storedToken;
        match storedUser.value
        case UserDoc(u) =>
          user := Some(u);
        case _ =>
          Logout();
      }
    }

    method ClearError()
      modifies this
      ensures error.None?
      ensures user == old(user) && token == old(token)
    {
      error := None;
    }
  }
}
