/**
 * The account handlers: session and invite token issue, registration from an invite,
 * login, logout, profile update and invitation.
 */
module UserController {
  import opened Wrappers
  import opened Primitives
  import opened Errors
  import opened Tokens
  import opened UserModel
  import opened InvitationModel

  /** "7d": a session token lives a week. */
  const SessionTtl: int := 604800
  /** "1d": an invite token lives a day. */
  const InviteTtl: int := 86400

  /** `generateAuthJWT(userId)`: a session token with the sole claim `{userId}`. */
  function GenerateAuthJwt(userId: string, key: Key, nowMs: int): (t: Jwt)
    ensures t.claims == Claims(Some(userId), None) && t.signedWith == key
    ensures t.iat == Seconds(nowMs) && t.exp == t.iat + SessionTtl
  {
    Sign(Claims(Some(userId), None), key, nowMs, SessionTtl)
  }

  /** `generateInviteToken(email)`: an invite token with the sole claim `{email}`. */
  function GenerateInviteToken(email: string, key: Key, nowMs: int): (t: Jwt)
    ensures t.claims == Claims(None, Some(email)) && t.signedWith == key
    ensures t.iat == Seconds(nowMs) && t.exp == t.iat + InviteTtl
  {
    Sign(Claims(None, Some(email)), key, nowMs, InviteTtl)
  }

  /** A session token verifies, yielding its account id, for exactly a week of whole seconds. */
  lemma {:induction false} SessionTokenLifetime(userId: string, key: Key, issuedMs: int, nowMs: int)
    ensures var v := Verify(Compact(GenerateAuthJwt(userId, key, issuedMs)), key, nowMs);
      && (v.Ok? <==> Seconds(nowMs) < Seconds(issuedMs) + 604800)
      && (v.Ok? ==> v.value.claims.userId == Some(userId) && v.value.claims.email == None)
  {
    SignThenVerify(Claims(Some(userId), None), key, issuedMs, SessionTtl, nowMs);
  }

  /** An invite token verifies, yielding its email, for exactly a day of whole seconds. */
  lemma {:induction false} InviteTokenLifetime(email: string, key: Key, issuedMs: int, nowMs: int)
    ensures var v := Verify(Compact(GenerateInviteToken(email, key, issuedMs)), key, nowMs);
      && (v.Ok? <==> Seconds(nowMs) < Seconds(issuedMs) + 86400)
      && (v.Ok? ==> v.value.claims.email == Some(email) && v.value.claims.userId == None)
  {
    SignThenVerify(Claims(None, Some(email)), key, issuedMs, InviteTtl, nowMs);
  }

  /**
   * The document `createUser` builds: the body's name and password through their
   * setters, the email bound by the invite check (missing if it bound none), no
   * sessions, and never an administrator.
   */
  function Registration(newId: string, email: Option<string>, body: Body): (u: User)
    ensures u.email == email.GetOr("") && !u.isAdmin && u.tokens == []
  {
    User(newId, NameFrom(Field(body, "name")), email.GetOr(""), PasswordFrom(Field(body, "password")),
         [], false, None, None, None)
  }

  /**
   * `createUser`: the body cannot choose the email or admin rights. On success the
   * stored account holds the hash of the trimmed password.
   */
  method CreateUser(users: UserCollection, email: Option<string>, body: Body, newId: string, nowMs: int)
    returns (r: Result<User, Fault>)
    requires users.Valid()
    modifies users
    ensures users.Valid()
    ensures r.Ok? <==> SaveSucceeds(old(users.users), Registration(newId, email, body), true, true, users.isEmail)
    ensures r.Ok? ==>
      && r.value.email == email.GetOr("") && !r.value.isAdmin && r.value.tokens == []
      && r.value.password == Hashed(Bcrypt(Trim(AsText(body["password"]))))
      && r.value.passwordChangedAt == Some(nowMs)
      && users.users == old(users.users) + [r.value]
    ensures r.Err? ==> users.users == old(users.users)
  {
    var doc := Registration(newId, email, body);
    r := users.Save(doc, true, true, nowMs);
  }

  /**
   * `userLogin`: with good credentials, one new session token is appended to the
   * account's list (earlier ones kept, in order) and the account is saved; the
   * token is returned.
   */
  method UserLogin(users: UserCollection, body: Body, key: Key, nowMs: int) returns (r: Result<(User, Jwt), Fault>)
    requires users.Valid()
    modifies users
    ensures users.Valid()
    ensures var c := GetUserByCredentials(old(users.users), Field(body, "email"), Field(body, "password"));
      && (c.Err? ==> r == Err(c.error) && users.users == old(users.users))
      && (c.Ok? ==>
            var i := UserModel.EmailIndex(old(users.users), c.value.email).value;
            var token := GenerateAuthJwt(c.value.id, key, nowMs);
            && r == Ok((c.value.(tokens := c.value.tokens + [token]), token))
            && users.users == old(users.users)[i := r.value.0])
  {
    var c := GetUserByCredentials(users.users, Field(body, "email"), Field(body, "password"));
    if c.Err? {
      return Err(c.error);
    }
    var user := c.value;
    var i := UserModel.EmailIndex(users.users, user.email).value;
    EmailIndexUnique(users.users, users.isEmail, i);
    IdIndexUnique(users.users, users.isEmail, i);
    var token := GenerateAuthJwt(user.id, key, nowMs);
    user := user.(tokens := user.tokens + [token]);
    var saved := users.Save(user, false, true, nowMs);
    assert saved.Ok?;
    r := Ok((saved.value, token));
  }

  /** A password given with surrounding whitespace never logs in: the stored hash is of its trimmed form. */
  lemma UntrimmedPasswordRejected(users: seq<User>, isEmail: string -> bool, i: nat, password: string)
    requires ValidStore(users, isEmail) && i < |users|
    requires users[i].password == Hashed(Bcrypt(Trim(password))) && Trim(password) != password
    ensures GetUserByCredentials(users, Some(Str(users[i].email)), Some(Str(password))) == Err(AppError("Unable to login.", 401))
  {
    EmailIndexUnique(users, isEmail, i);
  }

  /**
   * `userLogout`: the caller (the account the session check loaded) is saved with an
   * empty session list; everything else about it is kept. Logging out twice is the
   * same as once.
   */
  method UserLogout(users: UserCollection, caller: User) returns (r: Result<User, Fault>)
    requires users.Valid() && caller in users.users
    modifies users
    ensures users.Valid()
    ensures r == Ok(caller.(tokens := []))
    ensures users.users == old(users.users)[IdIndex(old(users.users), caller.id).value := r.value]
    ensures caller.tokens == [] ==> users.users == old(users.users)
  {
    var i :| 0 <= i < |users.users| && users.users[i] == caller;
    EmailIndexUnique(users.users, users.isEmail, i);
    IdIndexUnique(users.users, users.isEmail, i);
    var saved := users.Save(caller.(tokens := []), false, true, 0);
    assert saved.Ok?;
    r := saved;
  }

  /** The keys `updateMe` accepts. */
  predicate UpdatableByOwner(body: Body) {
    forall k :: k in body ==> k in {"name", "email"}
  }

  /**
   * `updateMe`: a body with any key other than `name` and `email` is refused with 400
   * before anything is read; otherwise the caller's account is updated by id, and a
   * vanished account is a 401.
   */
  method UpdateMe(users: UserCollection, caller: User, body: Body) returns (r: Result<User, Fault>)
    requires users.Valid()
    modifies users
    ensures users.Valid()
    ensures !UpdatableByOwner(body) ==> r == Err(AppError("Invalid Updates.", 400)) && users.users == old(users.users)
    ensures r.Ok? ==>
      && UpdatableByOwner(body)
      && IdIndex(old(users.users), caller.id).Some?
      && var i := IdIndex(old(users.users), caller.id).value;
         r.value == WithProfile(old(users.users)[i], Field(body, "name"), Field(body, "email"))
         && users.users == old(users.users)[i := r.value]
    ensures r.Err? ==> users.users == old(users.users)
    ensures r.Ok? <==>
      && UpdatableByOwner(body)
      && ProfileMessages(Field(body, "name"), Field(body, "email"), users.isEmail) == []
      && IdIndex(old(users.users), caller.id).Some?
      && !EmailTaken(old(users.users),
           WithProfile(old(users.users)[IdIndex(old(users.users), caller.id).value], Field(body, "name"), Field(body, "email")).email,
           caller.id)
    ensures UpdatableByOwner(body) && ProfileMessages(Field(body, "name"), Field(body, "email"), users.isEmail) != [] ==>
      r == Err(ValidationFailure("Validation", ProfileMessages(Field(body, "name"), Field(body, "email"), users.isEmail)))
    ensures UpdatableByOwner(body) && ProfileMessages(Field(body, "name"), Field(body, "email"), users.isEmail) == []
            && IdIndex(old(users.users), caller.id).None? ==>
      r == Err(AppError("Unauthorized Access", 401))
  {
    if !UpdatableByOwner(body) {
      return Err(AppError("Invalid Updates.", 400));
    }
    var found := users.FindByIdAndUpdate(caller.id, Field(body, "name"), Field(body, "email"));
    if found.Err? {
      return Err(found.error);
    }
    if found.value.None? {
      return Err(AppError("Unauthorized Access", 401));
    }
    r := Ok(found.value.value);
  }

  /** `isValidEmail`: a non-empty string the email validator accepts. */
  predicate IsValidEmail(v: Option<Value>, isEmail: string -> bool) {
    v.Some? && v.value.Str? && v.value.s != "" && isEmail(v.value.s)
  }

  /**
   * `createUserInvite`: an invalid email is an operational 500 and leaves the ledger
   * alone; otherwise the email's invitation (new or existing) gets a fresh invite
   * token, marked valid, and the token is returned.
   */
  method CreateUserInvite(invitations: InvitationCollection, email: Option<Value>, key: Key, nowMs: int)
    returns (r: Result<Jwt, Fault>)
    requires invitations.Valid()
    modifies invitations
    ensures invitations.Valid()
    ensures !IsValidEmail(email, invitations.isEmail) ==>
      r == Err(AppError("Invalid Email address", 500)) && invitations.invitations == old(invitations.invitations)
    ensures IsValidEmail(email, invitations.isEmail) ==>
      && r == Ok(GenerateInviteToken(email.value.s, key, nowMs))
      && var k := InvitationModel.EmailIndex(old(invitations.invitations), email.value.s);
         invitations.invitations ==
           if k.Some? then old(invitations.invitations)[k.value := Invitation(email.value.s, r.value, true)]
           else old(invitations.invitations) + [Invitation(email.value.s, r.value, true)]
  {
    if !IsValidEmail(email, invitations.isEmail) {
      return Err(AppError("Invalid Email address", 500));
    }
    var token := GenerateInviteToken(email.value.s, key, nowMs);
    var _ := invitations.Upsert(email.value.s, token);
    r := Ok(token);
  }

  /** After an invite, the email has exactly one invitation, and it holds the returned token. */
  lemma InviteIsUnique(invitations: seq<Invitation>, isEmail: string -> bool, email: string, token: Jwt)
    requires ValidLedger(invitations, isEmail)
    requires exists i :: 0 <= i < |invitations| && invitations[i] == Invitation(email, token, true)
    ensures forall i :: 0 <= i < |invitations| && invitations[i].email == email ==> invitations[i] == Invitation(email, token, true)
  {
  }
}
