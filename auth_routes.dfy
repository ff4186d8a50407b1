/**
 * routes/auth.js: the first-run admin seed, `POST /register` and
 * `POST /login` over the user table.
 */
module AuthRoutes {
  import opened Wrappers
  import opened Models
  import opened Gate
  import opened Store

  const MissingCredentials: HttpError := HttpError(400, "이메일/비밀번호 필요")
  const EmailTaken: HttpError := HttpError(409, "이미 존재하는 이메일")
  const NoAccount: HttpError := HttpError(401, "계정이 없습니다")
  const WrongPassword: HttpError := HttpError(401, "비밀번호 오류")

  predicate EmailRegistered(users: seq<User>, email: string) {
    exists k :: 0 <= k < |users| && users[k].email == email
  }

  // ---------------------------------------------------------------------------
  // Admin seed

  /** The user table after seeding `email` as admin under `id`; ADMIN_EMAIL and ADMIN_PASS are "" when unset. */
  function Seeded(users: seq<User>, id: Id, email: string, password: string, passwordHash: string): (r: seq<User>)
    ensures email == "" || password == "" || EmailRegistered(users, email) ==> r == users
    ensures email != "" && password != "" && !EmailRegistered(users, email) ==>
      r == users + [User(id, email, passwordHash, AdminRole)]
  {
    if email == "" || password == "" then users
    else if FindUserByEmail(users, email).Some? then users
    else users + [User(id, email, passwordHash, AdminRole)]
  }

  /** Seeding twice is seeding once, whatever id and salt the second run would use. */
  lemma SeedIdempotent(users: seq<User>, id1: Id, id2: Id, email: string, password: string, hash1: string, hash2: string)
    ensures Seeded(Seeded(users, id1, email, password, hash1), id2, email, password, hash2)
            == Seeded(users, id1, email, password, hash1)
    ensures EmailRegistered(Seeded(users, id1, email, password, hash1), email) <==>
            (email != "" && password != "") || EmailRegistered(users, email)
  {
    var once := Seeded(users, id1, email, password, hash1);
    if email != "" && password != "" && !EmailRegistered(users, email) {
      assert once[|once| - 1].email == email;
    }
  }

  /** `ensureAdminSeed`. */
  method EnsureAdminSeed(db: Database, adminEmail: string, adminPass: string, salt: string, crypto: Crypto)
    requires db.Valid()
    modifies db
    ensures db.Valid()
    ensures db.users == Seeded(old(db.users), old(db.nextId), adminEmail, adminPass, crypto.hash(adminPass, salt))
    ensures db.searches == old(db.searches) && db.recommendations == old(db.recommendations)
    ensures db.audit == old(db.audit)
  {
    if adminEmail == "" || adminPass == "" {
      return;
    }
    var existing := FindUserByEmail(db.users, adminEmail);
    if existing.None? {
      var passwordHash := crypto.hash(adminPass, salt);
      var _ := db.CreateUser(adminEmail, passwordHash, AdminRole);
    }
  }

  // ---------------------------------------------------------------------------
  // Register

  /** The checks `register` makes before writing, in their order. */
  function RegisterCheck(users: seq<User>, email: string, password: string): (r: Option<HttpError>)
    ensures r == Some(MissingCredentials) <==> email == "" || password == ""
    ensures r == Some(EmailTaken) <==> email != "" && password != "" && EmailRegistered(users, email)
    ensures r.None? <==> email != "" && password != "" && !EmailRegistered(users, email)
  {
    if email == "" || password == "" then Some(MissingCredentials)
    else if FindUserByEmail(users, email).Some? then Some(EmailTaken)
    else None
  }

  /** `POST /register`: 201 `{ ok: true }`. */
  method Register(db: Database, email: string, password: string, salt: string, crypto: Crypto)
    returns (r: Reply<bool>)
    requires db.Valid()
    modifies db
    ensures db.Valid()
    ensures RegisterCheck(old(db.users), email, password).Some? ==>
      r == Fail(RegisterCheck(old(db.users), email, password).value) && unchanged(db)
    ensures RegisterCheck(old(db.users), email, password).None? ==>
      var user := User(old(db.nextId), email, crypto.hash(password, salt), UserRole);
      && r == Ok(201, true)
      && db.users == old(db.users) + [user]
      && db.audit == old(db.audit) + [AuditEntry(Some(user.id), RegisterAction, None)]
      && db.searches == old(db.searches) && db.recommendations == old(db.recommendations)
  {
    var check := RegisterCheck(db.users, email, password);
    if check.Some? {
      return Fail(check.value);
    }
    var passwordHash := crypto.hash(password, salt);
    var user := db.CreateUser(email, passwordHash, UserRole);
    db.AppendAudit(AuditEntry(Some(user.id), RegisterAction, None));
    r := Ok(201, true);
  }

  /** Registration keeps emails unique: a second register of the same email is refused. */
  lemma RegisterKeepsEmailsUnique(users: seq<User>, id: Id, email: string, password: string, hash: string)
    requires UniqueEmails(users)
    requires RegisterCheck(users, email, password).None?
    ensures UniqueEmails(users + [User(id, email, hash, UserRole)])
    ensures forall password2 :: password2 != "" ==>
      RegisterCheck(users + [User(id, email, hash, UserRole)], email, password2) == Some(EmailTaken)
  {
    var after := users + [User(id, email, hash, UserRole)];
    assert after[|users|].email == email;
  }

  // ---------------------------------------------------------------------------
  // Login

  /** The login reply: `{ token, user: { email, role } }`. */
  datatype Session = Session(token: string, email: string, role: string)

  /** The payload a token is signed with. */
  function Payload(user: User): (claims: Claims)
    ensures claims.uid == user.id && claims.email == user.email
    ensures claims.role == "admin" <==> user.role == AdminRole
  {
    Claims(user.id, RoleName(user.role), user.email)
  }

  /** Lookup by email, then the password check; on success the stored user. */
  function LoginCheck(users: seq<User>, email: string, password: string, crypto: Crypto): (r: Result<User, HttpError>)
    ensures r == Failure(NoAccount) <==> !EmailRegistered(users, email)
    ensures r.Failure? ==> r.error == NoAccount || r.error == WrongPassword
    ensures r.Success? ==>
      r.value in users && r.value.email == email && crypto.compare(password, r.value.passwordHash)
    ensures UniqueEmails(users) ==> forall k :: 0 <= k < |users| && users[k].email == email ==>
      (r == Failure(WrongPassword) <==> !crypto.compare(password, users[k].passwordHash))
  {
    match FindUserByEmail(users, email)
    case None => Failure(NoAccount)
    case Some(user) =>
      if !crypto.compare(password, user.passwordHash) then Failure(WrongPassword) else Success(user)
  }

  /** `POST /login`: a token for the stored user's id, role and email, and a LOGIN audit entry. */
  method Login(db: Database, email: string, password: string, crypto: Crypto) returns (r: Reply<Session>)
    requires db.Valid()
    modifies db
    ensures db.Valid()
    ensures LoginCheck(old(db.users), email, password, crypto).Failure? ==>
      r == Fail(LoginCheck(old(db.users), email, password, crypto).error) && unchanged(db)
    ensures LoginCheck(old(db.users), email, password, crypto).Success? ==>
      var user := LoginCheck(old(db.users), email, password, crypto).value;
      && r == Ok(200, Session(crypto.sign(Payload(user)), user.email, RoleName(user.role)))
      && db.audit == old(db.audit) + [AuditEntry(Some(user.id), LoginAction, None)]
      && db.users == old(db.users) && db.searches == old(db.searches)
      && db.recommendations == old(db.recommendations) && db.nextId == old(db.nextId)
  {
    var check := LoginCheck(db.users, email, password, crypto);
    if check.Failure? {
      return Fail(check.error);
    }
    var user := check.value;
    var token := crypto.sign(Payload(user));
    db.AppendAudit(AuditEntry(Some(user.id), LoginAction, None));
    r := Ok(200, Session(token, user.email, RoleName(user.role)));
  }

  /** The token a login issues passes `requireAuth` with the stored user's id, role and email. */
  lemma LoginTokenAuthenticates(users: seq<User>, email: string, password: string, crypto: Crypto)
    requires Sound(crypto)
    requires LoginCheck(users, email, password, crypto).Success?
    ensures var user := LoginCheck(users, email, password, crypto).value;
      Authenticate(BearerPrefix + crypto.sign(Payload(user)), crypto.verify) == Success(Claims(user.id, RoleName(user.role), user.email))
  {
    var user := LoginCheck(users, email, password, crypto).value;
    BearerRoundTrip(crypto.sign(Payload(user)));
  }

  /** A freshly registered user can log in with the same password and is a plain user. */
  lemma RegisteredUserCanLogIn(users: seq<User>, id: Id, email: string, password: string, salt: string, crypto: Crypto)
    requires Sound(crypto)
    requires RegisterCheck(users, email, password).None?
    ensures var after := users + [User(id, email, crypto.hash(password, salt), UserRole)];
      LoginCheck(after, email, password, crypto) == Success(User(id, email, crypto.hash(password, salt), UserRole))
    ensures Payload(User(id, email, crypto.hash(password, salt), UserRole)) == Claims(id, "user", email)
  {
    var user := User(id, email, crypto.hash(password, salt), UserRole);
    var after := users + [user];
    assert after[|users|] == user;
    assert IndexWhere(after, (u: User) => u.email == email) == Some(|users|);
  }
}
