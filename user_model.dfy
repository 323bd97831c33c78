/**
 * The account record, its schema constraints, the credential lookup used at login,
 * and `save()` with its pre-save password hook, over the `users` collection.
 */
module UserModel {
  import opened Wrappers
  import opened Primitives
  import opened Errors
  import opened Tokens

  /**
   * The `password` path of an account document: unset, a plaintext just assigned
   * (already trimmed by the schema's setter), or the bcrypt hash as stored.
   */
  datatype Secret = Absent | Plain(text: string) | Hashed(hash: PasswordHash)

  /**
   * An account. A missing `name` or `email` is the empty string (the `required`
   * validator treats both alike); the session list holds the issued tokens; the
   * three optional timestamps and the reset digest are absent until set. Times are
   * in milliseconds.
   */
  datatype User = User(
    id: string,
    name: string,
    email: string,
    password: Secret,
    tokens: seq<Jwt>,
    isAdmin: bool,
    passwordChangedAt: Option<int>,
    passwordResetToken: Option<Digest>,
    passwordResetExpires: Option<int>)

  /** The `password` setter: a given value is cast to a string and trimmed. */
  function PasswordFrom(v: Option<Value>): Secret {
    if v.None? then Absent else Plain(Trim(AsText(v.value)))
  }

  /** The `name` setter: a given value is cast to a string and trimmed. */
  function NameFrom(v: Option<Value>): string {
    if v.None? then "" else Trim(AsText(v.value))
  }

  /** The messages of the schema's validators that fail on `u`, one per path, in path order. */
  function ValidationMessages(u: User, isEmail: string -> bool): (msgs: seq<string>)
    ensures msgs == [] <==>
      && u.name != ""
      && u.email != "" && isEmail(u.email)
      && (u.password.Hashed? || (u.password.Plain? && |u.password.text| >= 8))
  {
    (if u.name == "" then ["Name must be provided for the User."] else [])
    + (if u.email == "" then ["Email must be provided for the User"]
       else if !isEmail(u.email) then [u.email + " is not a valid email address."]
       else [])
    + (match u.password
       case Absent => ["Path `password` is required."]
       case Plain(t) =>
         if t == "" then ["Path `password` is required."]
         else if |t| < 8 then ["User password must be atleast 8 characters long."]
         else []
       case Hashed(_) => [])
  }

  predicate Conforms(u: User, isEmail: string -> bool) {
    ValidationMessages(u, isEmail) == []
  }

  /**
   * The pre-save hook: a newly assigned password is replaced by its hash and the change
   * time is stamped; a document whose password was not assigned passes unchanged.
   */
  function PreSave(u: User, nowMs: int): (d: User)
    ensures !d.password.Plain?
    ensures u.password.Plain? ==>
      d.password.Hashed? && Compare(u.password.text, d.password.hash) && d.passwordChangedAt == Some(nowMs)
    ensures !u.password.Plain? ==> d == u
    ensures d.(password := u.password, passwordChangedAt := u.passwordChangedAt) == u
  {
    match u.password
    case Plain(t) => u.(password := Hashed(Bcrypt(t)), passwordChangedAt := Some(nowMs))
    case _ => u
  }

  /** Where the account with this id sits in the collection. */
  function IdIndex(users: seq<User>, id: string): Option<nat> {
    FirstIndex(users, (u: User) => u.id == id)
  }

  /** `User.findOne({email})`. */
  function EmailIndex(users: seq<User>, email: string): Option<nat> {
    FirstIndex(users, (u: User) => u.email == email)
  }

  /** Another account (one with a different id) already uses this email. */
  predicate EmailTaken(users: seq<User>, email: string, id: string) {
    exists i :: 0 <= i < |users| && users[i].email == email && users[i].id != id
  }

  /**
   * The collection's invariant: ids and emails are unique (the indexes), every stored
   * password is a hash, and every stored account satisfies the schema.
   */
  ghost predicate ValidStore(users: seq<User>, isEmail: string -> bool) {
    && (forall i, j :: 0 <= i < j < |users| ==> users[i].id != users[j].id && users[i].email != users[j].email)
    && (forall i :: 0 <= i < |users| ==> users[i].password.Hashed? && Conforms(users[i], isEmail))
  }

  /** In a valid store the first account with an email is the only one. */
  lemma EmailIndexUnique(users: seq<User>, isEmail: string -> bool, i: nat)
    requires ValidStore(users, isEmail) && i < |users|
    ensures EmailIndex(users, users[i].email) == Some(i)
  {
  }

  /** ... and so is the first account with an id. */
  lemma IdIndexUnique(users: seq<User>, isEmail: string -> bool, i: nat)
    requires ValidStore(users, isEmail) && i < |users|
    ensures IdIndex(users, users[i].id) == Some(i)
  {
  }

  /**
   * `User.getUserByCredentials(email, password)`: the same 401 "Unable to login." for
   * an unknown email and for a wrong password. A password that is missing or not a
   * string makes bcrypt throw, which is not an operational error.
   */
  function GetUserByCredentials(users: seq<User>, email: Option<Value>, password: Option<Value>): (r: Result<User, Fault>)
    ensures r.Ok? <==>
      && email.Some? && EmailIndex(users, AsText(email.value)).Some?
      && password.Some? && password.value.Str?
      && var u := users[EmailIndex(users, AsText(email.value)).value];
         u.password.Hashed? && Compare(password.value.s, u.password.hash)
    ensures r.Ok? ==> r.value in users && r.value.email == AsText(email.value)
    ensures r.Err? && r.error.isOperational ==> r.error == AppError("Unable to login.", 401)
  {
    var at := if email.Some? then EmailIndex(users, AsText(email.value)) else None;
    if at.None? then Err(AppError("Unable to login.", 401))
    else
      var u := users[at.value];
      if password.None? || !password.value.Str? then Err(LibraryError(OtherError, "data and hash arguments required"))
      else if !(u.password.Hashed? && Compare(password.value.s, u.password.hash)) then Err(AppError("Unable to login.", 401))
      else Ok(u)
  }

  /** In a valid store, an account's email with the password its hash was made from logs in. */
  lemma CredentialsAccepted(users: seq<User>, isEmail: string -> bool, i: nat, password: string)
    requires ValidStore(users, isEmail) && i < |users|
    requires users[i].password == Hashed(Bcrypt(password))
    ensures GetUserByCredentials(users, Some(Str(users[i].email)), Some(Str(password))) == Ok(users[i])
  {
    EmailIndexUnique(users, isEmail, i);
  }

  /** An account rewritten under its own id and email clashes with no other account. */
  lemma OwnKeysFree(users: seq<User>, isEmail: string -> bool, i: nat, u: User)
    requires ValidStore(users, isEmail) && i < |users|
    requires u.id == users[i].id && u.email == users[i].email
    ensures IdIndex(users, u.id) == Some(i) && !EmailTaken(users, u.email, u.id)
  {
    IdIndexUnique(users, isEmail, i);
  }

  /** Inserting a conforming, hashed account whose id and email are both new keeps the store valid. */
  lemma AppendKeepsStore(users: seq<User>, u: User, isEmail: string -> bool)
    requires ValidStore(users, isEmail) && u.password.Hashed? && Conforms(u, isEmail)
    requires IdIndex(users, u.id).None? && !EmailTaken(users, u.email, u.id)
    ensures ValidStore(users + [u], isEmail)
  {
  }

  /**
   * Replacing an account by a conforming, hashed one with the same id, whose email no
   * other account uses, keeps the store valid.
   */
  lemma ReplaceKeepsStore(users: seq<User>, k: nat, u: User, isEmail: string -> bool)
    requires ValidStore(users, isEmail) && k < |users| && u.id == users[k].id
    requires u.password.Hashed? && Conforms(u, isEmail) && !EmailTaken(users, u.email, u.id)
    ensures ValidStore(users[k := u], isEmail)
  {
  }

  /** When `save()` reaches the database: validation passes and neither unique index objects. */
  predicate SaveSucceeds(users: seq<User>, doc: User, isNew: bool, validate: bool, isEmail: string -> bool) {
    && (validate ==> Conforms(doc, isEmail))
    && (isNew <==> IdIndex(users, doc.id).None?)
    && !EmailTaken(users, doc.email, doc.id)
  }

  /** The validators an update `{name?, email?}` runs: only those of the paths it sets. */
  function ProfileMessages(name: Option<Value>, email: Option<Value>, isEmail: string -> bool): (msgs: seq<string>)
    ensures msgs == [] <==>
      && (name.Some? ==> NameFrom(name) != "")
      && (email.Some? ==> AsText(email.value) != "" && isEmail(AsText(email.value)))
  {
    (if name.Some? && NameFrom(name) == "" then ["Name must be provided for the User."] else [])
    + (if email.Some? && AsText(email.value) == "" then ["Email must be provided for the User"]
       else if email.Some? && !isEmail(AsText(email.value)) then [AsText(email.value) + " is not a valid email address."]
       else [])
  }

  /** An account with the paths an update sets replaced (the name through its trimming setter). */
  function WithProfile(u: User, name: Option<Value>, email: Option<Value>): User {
    u.(name := if name.Some? then NameFrom(name) else u.name,
       email := if email.Some? then AsText(email.value) else u.email)
  }

  /** The `users` collection. `isEmail` is the email-syntax validator the schema uses. */
  class UserCollection {
    const isEmail: string -> bool
    var users: seq<User>

    ghost predicate Valid()
      reads this
    {
      ValidStore(users, isEmail)
    }

    constructor (isEmail: string -> bool)
      ensures Valid() && users == [] && this.isEmail == isEmail
    {
      this.isEmail := isEmail;
      users := [];
    }

    /**
     * `doc.save()` at time `nowMs`: validation (unless skipped), the pre-save hook,
     * then an insert (`isNew`) or a replacement of the stored account with the same id,
     * which the unique indexes may refuse. A refused save changes nothing.
     * Only a document as loaded, whose password was not assigned, is saved unvalidated.
     */
    method Save(doc: User, isNew: bool, validate: bool, nowMs: int) returns (r: Result<User, Fault>)
      requires Valid()
      requires !validate ==> doc.password.Hashed? && Conforms(doc, isEmail)
      modifies this
      ensures Valid()
      ensures r.Ok? <==> SaveSucceeds(old(users), doc, isNew, validate, isEmail)
      ensures r.Ok? ==> r.value == PreSave(doc, nowMs)
      ensures r.Ok? && isNew ==> users == old(users) + [r.value]
      ensures r.Ok? && !isNew ==> users == old(users)[IdIndex(old(users), doc.id).value := r.value]
      ensures r.Err? ==> users == old(users)
      ensures r.Err? && validate && !Conforms(doc, isEmail) ==>
        r.error == ValidationFailure("user", ValidationMessages(doc, isEmail))
      ensures r.Err? ==> Respond(r.error).statusCode in {400, 500}
    {
      if validate && ValidationMessages(doc, isEmail) != [] {
        r := Err(ValidationFailure("user", ValidationMessages(doc, isEmail)));
        DatabaseRejectionsAre400("user", ValidationMessages(doc, isEmail), "", "", "");
        return;
      }
      var saved := PreSave(doc, nowMs);
      var at := IdIndex(users, doc.id);
      if isNew && at.Some? {
        var message := DupKeyMessage("users", "_id_", "_id", doc.id);
        DatabaseRejectionsAre400("", [], "", "", message);
        return Err(DuplicateKeyError(message));
      }
      if !isNew && at.None? {
        var message := "No document found for query \"{ _id: \"" + doc.id + "\" }\" on model \"user\"";
        LibraryFailuresAre500(message);
        return Err(LibraryError(OtherError, message));
      }
      if EmailTaken(users, doc.email, doc.id) {
        var message := DupKeyMessage("users", "email_1", "email", doc.email);
        DatabaseRejectionsAre400("", [], "", "", message);
        return Err(DuplicateKeyError(message));
      }
      if isNew {
        AppendKeepsStore(users, saved, isEmail);
        users := users + [saved];
      } else {
        ReplaceKeepsStore(users, at.value, saved, isEmail);
        users := users[at.value := saved];
      }
      r := Ok(saved);
    }

    /**
     * `User.findByIdAndUpdate(id, {name?, email?}, {runValidators: true, new: true})`:
     * the update's validators run first, then the account with this id, if any, gets
     * the new values unless the email index objects. The save hook does not run.
     */
    method FindByIdAndUpdate(id: string, name: Option<Value>, email: Option<Value>) returns (r: Result<Option<User>, Fault>)
      requires Valid()
      modifies this
      ensures Valid()
      ensures ProfileMessages(name, email, isEmail) != [] ==>
        r == Err(ValidationFailure("Validation", ProfileMessages(name, email, isEmail))) && users == old(users)
      ensures ProfileMessages(name, email, isEmail) == [] ==> match IdIndex(old(users), id)
        case None => r == Ok(None) && users == old(users)
        case Some(i) =>
          var u := WithProfile(old(users)[i], name, email);
          if EmailTaken(old(users), u.email, id) then r.Err? && r.error.code == Some(11000) && users == old(users)
          else r == Ok(Some(u)) && users == old(users)[i := u]
    {
      var msgs := ProfileMessages(name, email, isEmail);
      if msgs != [] {
        return Err(ValidationFailure("Validation", msgs));
      }
      var at := IdIndex(users, id);
      if at.None? {
        return Ok(None);
      }
      var u := WithProfile(users[at.value], name, email);
      if EmailTaken(users, u.email, id) {
        return Err(DuplicateKeyError(DupKeyMessage("users", "email_1", "email", u.email)));
      }
      assert Conforms(u, isEmail);
      ReplaceKeepsStore(users, at.value, u, isEmail);
      users := users[at.value := u];
      r := Ok(Some(u));
    }
  }
}
