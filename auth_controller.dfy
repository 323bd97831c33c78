/**
 * The request guards (session check, invite check, admin check) and the two steps of
 * the password-reset flow.
 */
module AuthController {
  import opened Wrappers
  import opened Primitives
  import opened Errors
  import opened Tokens
  import opened UserModel
  import opened InvitationModel
  import opened UserController

  /** `User.findOne({_id: userId, "tokens.token": token})`. */
  function SessionHolder(users: seq<User>, userId: string, token: Jwt): Option<nat> {
    FirstIndex(users, (u: User) => u.id == userId && token in u.tokens)
  }

  /**
   * The staleness test: the password changed after the token was issued. The change
   * time in milliseconds is divided (exactly, in fractional seconds) by 1000 and
   * compared with the whole-second `iat`; an absent change time or an `iat` of 0
   * skips the test.
   */
  predicate Stale(passwordChangedAt: Option<int>, iat: int) {
    passwordChangedAt.Some? && iat != 0 && (passwordChangedAt.value as real) / 1000.0 > iat as real
  }

  const LoginFirst := "Please login to access this resource."
  const NotASession := "Please log in to access this resource. This might be the result of a password change"
  const PasswordChanged := "User password recently change, Please log in again"

  /**
   * `isAuthenticated`: the account a request acts as. The header's second word must be
   * a token that verifies; its `userId` must name an account whose session list holds
   * that very token; and the account's password must not have changed after the token
   * was issued. Every refusal reaches the client as a 401.
   */
  function IsAuthenticated(header: Option<seq<Word>>, users: seq<User>, key: Key, nowMs: int): (r: Result<User, Fault>)
    ensures SecondWord(header).None? ==> r == Err(AppError(LoginFirst, 401))
    ensures r.Ok? ==>
      && SecondWord(header).Some? && SecondWord(header).value.Compact?
      && var t := SecondWord(header).value.jwt;
         && t.signedWith == key && Seconds(nowMs) < t.exp
         && r.value in users && t.claims.userId == Some(r.value.id) && t in r.value.tokens
         && !Stale(r.value.passwordChangedAt, t.iat)
    ensures r.Err? ==> Respond(r.error).statusCode == 401
  {
    match SecondWord(header)
    case None => Err(AppError(LoginFirst, 401))
    case Some(w) =>
      match Verify(w, key, nowMs)
      case Err(e) => Err(e)
      case Ok(payload) =>
        var holder :=
          if payload.claims.userId.Some? && payload.claims.userId.value != ""
          then SessionHolder(users, payload.claims.userId.value, w.jwt)
          else None;
        if holder.None? then Err(AppError(NotASession, 401))
        else if Stale(users[holder.value].passwordChangedAt, payload.iat) then Err(AppError(PasswordChanged, 401))
        else Ok(users[holder.value])
  }

  /**
   * A session token authenticates its account while it is listed, unexpired and not
   * older than the last password change, whatever the header's first word.
   */
  lemma {:induction false} ListedSessionAuthenticates(
    users: seq<User>, isEmail: string -> bool, i: nat, scheme: Word, t: Jwt, key: Key, nowMs: int)
    requires ValidStore(users, isEmail) && i < |users|
    requires t in users[i].tokens && t.claims.userId == Some(users[i].id) && users[i].id != ""
    requires t.signedWith == key && Seconds(nowMs) < t.exp
    requires !Stale(users[i].passwordChangedAt, t.iat)
    ensures IsAuthenticated(Some([scheme, Compact(t)]), users, key, nowMs) == Ok(users[i])
  {
    var holder := SessionHolder(users, users[i].id, t);
    assert holder.Some?;
  }

  /** Only a listed session authenticates: once an account's list is emptied, nothing acts as it. */
  lemma LoggedOutNeverAuthenticates(
    users: seq<User>, isEmail: string -> bool, i: nat, header: Option<seq<Word>>, key: Key, nowMs: int)
    requires ValidStore(users, isEmail) && i < |users| && users[i].tokens == []
    ensures var r := IsAuthenticated(header, users, key, nowMs);
      r.Ok? ==> r.value.id != users[i].id
  {
  }

  /** An account whose list holds one token can be acted as through that token only. */
  lemma {:induction false} OnlySoleSessionAuthenticates(
    users: seq<User>, isEmail: string -> bool, i: nat, t: Jwt, header: Option<seq<Word>>, key: Key, nowMs: int)
    requires ValidStore(users, isEmail) && i < |users| && users[i].tokens == [t]
    ensures var r := IsAuthenticated(header, users, key, nowMs);
      r.Ok? && r.value.id == users[i].id ==> SecondWord(header) == Some(Compact(t))
  {
    var r := IsAuthenticated(header, users, key, nowMs);
    if r.Ok? && r.value.id == users[i].id {
      var k :| 0 <= k < |users| && users[k] == r.value;
      IdIndexUnique(users, isEmail, k);
      IdIndexUnique(users, isEmail, i);
      assert k == i;
    }
  }

  /**
   * The token issued with a password change at the same instant `nowMs` (as a reset
   * does) is rejected as stale exactly when `nowMs` is not a whole second: its `iat`
   * is rounded down while the change time is not.
   */
  lemma {:induction false} SameInstantTokenStale(nowMs: int)
    requires nowMs >= 1000
    ensures Stale(Some(nowMs), Seconds(nowMs)) <==> nowMs % 1000 != 0
  {
    var q := nowMs / 1000;
    var m := nowMs % 1000;
    assert nowMs == 1000 * q + m;
    assert q != 0;
    assert (nowMs as real) / 1000.0 == q as real + (m as real) / 1000.0;
  }

  /**
   * A password change stamped at any millisecond after a token's issue makes the token
   * stale: the change time is not rounded while `iat` is rounded down.
   */
  lemma {:induction false} LaterChangeStale(issuedMs: int, changedMs: int)
    requires 1000 <= issuedMs < changedMs
    ensures Stale(Some(changedMs), Seconds(issuedMs))
  {
    var q := issuedMs / 1000;
    assert q != 0 && 1000 * q <= issuedMs;
    assert (changedMs as real) / 1000.0 > (issuedMs as real) / 1000.0 >= q as real;
  }

  /** An account whose only session token is stale is never acted as. */
  lemma {:induction false} StaleSoleSessionRefused(
    users: seq<User>, isEmail: string -> bool, i: nat, t: Jwt, header: Option<seq<Word>>, key: Key, nowMs: int)
    requires ValidStore(users, isEmail) && i < |users| && users[i].tokens == [t]
    requires Stale(users[i].passwordChangedAt, t.iat)
    ensures var r := IsAuthenticated(header, users, key, nowMs);
      r.Ok? ==> r.value.id != users[i].id
  {
    var r := IsAuthenticated(header, users, key, nowMs);
    if r.Ok? && r.value.id == users[i].id {
      assert false;
    }
  }

  /** `isInvited`: the email claim of a verified invite token equals that of the invitation stored under it. */
  function IsInvited(param: Word, invitations: seq<Invitation>, key: Key, nowMs: int): (r: Result<Option<string>, Fault>)
    ensures r.Ok? ==>
      && param.Compact? && param.jwt.signedWith == key && Seconds(nowMs) < param.jwt.exp
      && r.value == param.jwt.claims.email
      && var found := FindByToken(invitations, param.jwt);
         r.value == if found.Some? then Some(found.value.email) else None
    ensures (&& param.Compact? && param.jwt.signedWith == key && Seconds(nowMs) < param.jwt.exp
             && var found := FindByToken(invitations, param.jwt);
                param.jwt.claims.email == (if found.Some? then Some(found.value.email) else None))
            ==> r.Ok?
    ensures r.Err? ==> Respond(r.error).statusCode == 401
  {
    if param == Text("") then Err(AppError("Invalid Token", 401))
    else
      match Verify(param, key, nowMs)
      case Err(e) => Err(e)
      case Ok(payload) =>
        var found := FindByToken(invitations, param.jwt);
        var stored := if found.Some? then Some(found.value.email) else None;
        if payload.claims.email == stored then Ok(payload.claims.email)
        else Err(AppError("Invalid Token", 401))
  }

  /** The latest invite token for an email, while unexpired, binds that email. */
  lemma {:induction false} CurrentInviteAccepted(
    invitations: seq<Invitation>, isEmail: string -> bool, k: nat, key: Key, nowMs: int)
    requires ValidLedger(invitations, isEmail) && k < |invitations|
    requires invitations[k].token.signedWith == key && Seconds(nowMs) < invitations[k].token.exp
    ensures IsInvited(Compact(invitations[k].token), invitations, key, nowMs) == Ok(Some(invitations[k].email))
  {
    var found := FindByToken(invitations, invitations[k].token);
    FoundUnderOwnEmail(invitations, isEmail, invitations[k].token);
    assert found.Some?;
  }

  /** Re-inviting an email makes the token it replaced unusable. */
  lemma {:induction false} SupersededInviteRejected(
    invitations: seq<Invitation>, isEmail: string -> bool, k: nat, newToken: Jwt, key: Key, nowMs: int)
    requires ValidLedger(invitations, isEmail) && k < |invitations| && newToken != invitations[k].token
    ensures var old_token := invitations[k].token;
      var ledger := invitations[k := Invitation(invitations[k].email, newToken, true)];
      IsInvited(Compact(old_token), ledger, key, nowMs).Err?
  {
    var old_token := invitations[k].token;
    var ledger := invitations[k := Invitation(invitations[k].email, newToken, true)];
    forall j | 0 <= j < |ledger|
      ensures ledger[j].token != old_token
    {
      if j < k {
        assert invitations[j].token != invitations[k].token;
      } else if k < j {
        assert invitations[k].token != invitations[j].token;
      }
    }
    assert FindByToken(ledger, old_token).None?;
  }

  /** A verified token with no email claim passes when no invitation holds it: absent equals absent. */
  lemma NoEmailNoInvitationAccepted(invitations: seq<Invitation>, t: Jwt, key: Key, nowMs: int)
    requires t.claims.email == None && t.signedWith == key && Seconds(nowMs) < t.exp
    requires forall j :: 0 <= j < |invitations| ==> invitations[j].token != t
    ensures IsInvited(Compact(t), invitations, key, nowMs) == Ok(None)
  {
  }

  /** `isAdmin`: only an administrator passes; anyone else gets a 401. */
  function IsAdmin(user: User): (r: Option<Fault>)
    ensures r.None? <==> user.isAdmin
    ensures r.Some? ==> Respond(r.value) == Response(401, "error", "This endpoint requires Admin rights")
  {
    if user.isAdmin then None else Some(AppError("This endpoint requires Admin rights", 401))
  }

  /** Ten minutes, in milliseconds. */
  const ResetWindow: int := 600000

  /** The collection after account `i` requested a reset with `secret` at `nowMs`. */
  function Requested(users: seq<User>, i: nat, secret: string, nowMs: int): (after: seq<User>)
    requires i < |users|
    ensures |after| == |users|
    ensures forall j :: 0 <= j < |users| && j != i ==> after[j] == users[j]
  {
    users[i := users[i].(passwordResetToken := Some(Sha256(secret)), passwordResetExpires := Some(nowMs + ResetWindow))]
  }

  /**
   * `forgotPassword`: for a known email, the account stores the digest of the random
   * `secret` and an expiry ten minutes after `nowMs`, saved without validation; the
   * plaintext secret is returned. An unknown email is a 404 and changes nothing.
   */
  method ForgotPassword(users: UserCollection, email: Option<Value>, secret: string, nowMs: int)
    returns (r: Result<string, Fault>)
    requires users.Valid()
    modifies users
    ensures users.Valid()
    ensures var at := if email.Some? then UserModel.EmailIndex(old(users.users), AsText(email.value)) else None;
      && (at.None? ==>
            r == Err(AppError("There is no user with email address.", 404)) && users.users == old(users.users))
      && (at.Some? ==>
            && r == Ok(secret)
            && users.users == Requested(old(users.users), at.value, secret, nowMs)
            && users.users[at.value].passwordResetToken == Some(Sha256(secret))
            && users.users[at.value].passwordResetExpires == Some(nowMs + ResetWindow))
  {
    var at := if email.Some? then UserModel.EmailIndex(users.users, AsText(email.value)) else None;
    if at.None? {
      return Err(AppError("There is no user with email address.", 404));
    }
    var i := at.value;
    IdIndexUnique(users.users, users.isEmail, i);
    var user := users.users[i];
    user := user.(passwordResetToken := Some(Sha256(secret)));
    user := user.(passwordResetExpires := Some(nowMs + ResetWindow));
    var saved := users.Save(user, false, false, nowMs);
    assert saved.Ok?;
    r := Ok(secret);
  }

  /** `User.findOne({passwordResetToken: digest, passwordResetExpires: {$gt: nowMs}})`. */
  function ResetHolder(users: seq<User>, digest: Digest, nowMs: int): Option<nat> {
    FirstIndex(users, (u: User) =>
      u.passwordResetToken == Some(digest) && u.passwordResetExpires.Some? && u.passwordResetExpires.value > nowMs)
  }

  /** The account a successful reset saves, before the save hook runs. */
  function AfterReset(u: User, password: Option<Value>, key: Key, nowMs: int): User {
    u.(password := PasswordFrom(password),
       passwordResetToken := None,
       passwordResetExpires := None,
       tokens := [GenerateAuthJwt(u.id, key, nowMs)])
  }

  /**
   * What a reset that passes validation saves: a new password was given, and the
   * account holds its hash, the change time, no reset fields and one new session.
   */
  lemma ResetSaves(u: User, password: Option<Value>, key: Key, nowMs: int, changedMs: int, isEmail: string -> bool)
    requires Conforms(AfterReset(u, password, key, nowMs), isEmail)
    ensures password.Some?
    ensures var saved := PreSave(AfterReset(u, password, key, nowMs), changedMs);
      && saved.id == u.id
      && saved.tokens == [GenerateAuthJwt(u.id, key, nowMs)]
      && saved.passwordResetToken == None && saved.passwordResetExpires == None
      && saved.password == Hashed(Bcrypt(Trim(AsText(password.value))))
      && saved.passwordChangedAt == Some(changedMs)
  {
  }

  /**
   * `resetPassword`: the secret's digest must be held by an account whose reset has
   * not expired (else 400, nothing changed). That account then gets the new password,
   * loses its reset fields and has every session replaced by one new token, which is
   * returned; the password's validators can still refuse the save, which then changes
   * nothing. The token is issued at `nowMs`; the save hook reads the clock again after
   * hashing and stamps `changedMs`. When that is a later millisecond, the returned token
   * is already stale, so it never authenticates (`ResetSessionRefused`).
   */
  method ResetPassword(users: UserCollection, param: string, password: Option<Value>, key: Key, nowMs: int, changedMs: int)
    returns (r: Result<Jwt, Fault>)
    requires users.Valid()
    modifies users
    ensures users.Valid()
    ensures var at := ResetHolder(old(users.users), Sha256(param), nowMs);
      && (at.None? ==> r == Err(AppError("Token is invalid or has expired", 400)))
      && (r.Ok? ==>
            && at.Some? && password.Some?
            && var saved := PreSave(AfterReset(old(users.users)[at.value], password, key, nowMs), changedMs);
               && r.value == GenerateAuthJwt(saved.id, key, nowMs)
               && saved.tokens == [r.value]
               && saved.passwordResetToken == None && saved.passwordResetExpires == None
               && saved.password == Hashed(Bcrypt(Trim(AsText(password.value))))
               && saved.passwordChangedAt == Some(changedMs)
               && users.users == old(users.users)[at.value := saved])
      && (at.Some? ==> (r.Ok? <==> Conforms(AfterReset(old(users.users)[at.value], password, key, nowMs), users.isEmail)))
    ensures r.Err? ==> users.users == old(users.users)
  {
    var at := ResetHolder(users.users, Sha256(param), nowMs);
    if at.None? {
      return Err(AppError("Token is invalid or has expired", 400));
    }
    var i := at.value;
    IdIndexUnique(users.users, users.isEmail, i);
    var user := users.users[i];
    user := user.(password := PasswordFrom(password));
    user := user.(passwordResetToken := None, passwordResetExpires := None);
    var token := GenerateAuthJwt(user.id, key, nowMs);
    user := user.(tokens := [token]);
    assert user == AfterReset(users.users[i], password, key, nowMs);
    OwnKeysFree(users.users, users.isEmail, i, user);
    var saved := users.Save(user, false, true, changedMs);
    if saved.Err? {
      return Err(saved.error);
    }
    assert saved.value == PreSave(AfterReset(old(users.users)[i], password, key, nowMs), changedMs);
    assert users.users == old(users.users)[i := saved.value];
    ResetSaves(old(users.users)[i], password, key, nowMs, changedMs, users.isEmail);
    r := Ok(token);
  }

  /**
   * The account a reset saved, whose change was stamped a millisecond or more after its
   * new session token was issued, is never acted as, through that token or any other.
   */
  lemma {:induction false} ResetSessionRefused(
    users: seq<User>, isEmail: string -> bool, i: nat, u: User, password: Option<Value>, key: Key,
    nowMs: int, changedMs: int, header: Option<seq<Word>>, laterMs: int)
    requires ValidStore(users, isEmail) && i < |users|
    requires Conforms(AfterReset(u, password, key, nowMs), isEmail)
    requires users[i] == PreSave(AfterReset(u, password, key, nowMs), changedMs)
    requires 1000 <= nowMs < changedMs
    ensures var r := IsAuthenticated(header, users, key, laterMs);
      r.Ok? ==> r.value.id != users[i].id
  {
    ResetSaves(u, password, key, nowMs, changedMs, isEmail);
    var t := GenerateAuthJwt(u.id, key, nowMs);
    assert t.iat == Seconds(nowMs);
    LaterChangeStale(nowMs, changedMs);
    StaleSoleSessionRefused(users, isEmail, i, t, header, key, laterMs);
  }

  /** No account other than the one at `i` holds this reset digest. */
  predicate SoleHolder(users: seq<User>, i: nat, digest: Digest) {
    forall j :: 0 <= j < |users| && j != i ==> users[j].passwordResetToken != Some(digest)
  }

  /**
   * A requested secret, held by no other account, finds the requesting account at any
   * time before its expiry and no account from the expiry on.
   */
  lemma {:induction false} RequestedSecretRedeems(users: seq<User>, i: nat, secret: string, requestedMs: int, nowMs: int)
    requires i < |users| && SoleHolder(users, i, Sha256(secret))
    ensures ResetHolder(Requested(users, i, secret, requestedMs), Sha256(secret), nowMs) ==
      if nowMs < requestedMs + ResetWindow then Some(i) else None
  {
    var after := Requested(users, i, secret, requestedMs);
    assert after[i].passwordResetToken == Some(Sha256(secret));
    assert after[i].passwordResetExpires == Some(requestedMs + ResetWindow);
  }

  /** Once a reset has saved the requesting account, its reset fields are cleared and the secret finds no account. */
  lemma {:induction false} RedeemedSecretSpent(
    users: seq<User>, i: nat, secret: string, password: Option<Value>, key: Key, nowMs: int, changedMs: int, laterMs: int)
    requires i < |users| && SoleHolder(users, i, Sha256(secret))
    ensures ResetHolder(users[i := PreSave(AfterReset(users[i], password, key, nowMs), changedMs)], Sha256(secret), laterMs) == None
  {
    var after := users[i := PreSave(AfterReset(users[i], password, key, nowMs), changedMs)];
    assert after[i].passwordResetToken == None;
  }

  /** A conforming account given a new password of at least eight characters after trimming still conforms. */
  lemma ResetConforms(u: User, password: string, key: Key, nowMs: int, isEmail: string -> bool)
    requires Conforms(u, isEmail) && |Trim(password)| >= 8
    ensures Conforms(AfterReset(u, Some(Str(password)), key, nowMs), isEmail)
  {
  }

  /**
   * The reset round trip on a collection where no account holds the secret's digest
   * yet: a secret requested for a stored email redeems, with a valid new password,
   * exactly when it is redeemed before its ten minutes are up; once redeemed, it is
   * refused the second time.
   */
  method ResetRoundTrip(users: UserCollection, email: string, secret: string, password: string, key: Key,
                        requestedMs: int, redeemMs: int, againMs: int, changedMs: int)
    returns (first: Result<Jwt, Fault>, second: Result<Jwt, Fault>)
    requires users.Valid()
    requires UserModel.EmailIndex(users.users, email).Some?
    requires forall j :: 0 <= j < |users.users| ==> users.users[j].passwordResetToken != Some(Sha256(secret))
    requires |Trim(password)| >= 8
    modifies users
    ensures first.Ok? <==> redeemMs < requestedMs + ResetWindow
    ensures first.Ok? ==> second == Err(AppError("Token is invalid or has expired", 400))
  {
    ghost var i := UserModel.EmailIndex(users.users, email).value;
    assert SoleHolder(users.users, i, Sha256(secret));
    var requested := ForgotPassword(users, Some(Str(email)), secret, requestedMs);
    ghost var afterRequest := users.users;
    assert AsText(Str(email)) == email;
    assert afterRequest == Requested(old(users.users), i, secret, requestedMs);
    RequestedSecretRedeems(old(users.users), i, secret, requestedMs, redeemMs);
    ResetConforms(afterRequest[i], password, key, redeemMs, users.isEmail);
    first := ResetPassword(users, secret, Some(Str(password)), key, redeemMs, changedMs);
    if first.Ok? {
      assert SoleHolder(afterRequest, i, Sha256(secret));
      RedeemedSecretSpent(afterRequest, i, secret, Some(Str(password)), key, redeemMs, changedMs, againMs);
    }
    second := ResetPassword(users, secret, Some(Str(password)), key, againMs, changedMs);
  }
}
