/**
 * The invitation ledger: at most one invitation per email, each holding the latest
 * invite token issued for that email.
 */
module InvitationModel {
  import opened Wrappers
  import opened Primitives
  import opened Errors
  import opened Tokens

  /** An invitation; `email`, `token` and `valid` are all required, so all are always present. */
  datatype Invitation = Invitation(email: string, token: Jwt, valid: bool)

  /**
   * The ledger's invariant: emails and tokens are unique (the two indexes), every
   * email is a valid address, and every token is one issued for its own email.
   */
  ghost predicate ValidLedger(invitations: seq<Invitation>, isEmail: string -> bool) {
    && (forall i, j :: 0 <= i < j < |invitations| ==>
          invitations[i].email != invitations[j].email && invitations[i].token != invitations[j].token)
    && (forall i :: 0 <= i < |invitations| ==>
          invitations[i].email != "" && isEmail(invitations[i].email)
          && invitations[i].token.claims.email == Some(invitations[i].email))
  }

  /** `Invitation.findOne({email})`. */
  function EmailIndex(invitations: seq<Invitation>, email: string): Option<nat> {
    FirstIndex(invitations, (v: Invitation) => v.email == email)
  }

  /** `Invitation.findOne({token})`. */
  function FindByToken(invitations: seq<Invitation>, token: Jwt): (r: Option<Invitation>)
    ensures r.Some? ==> r.value in invitations && r.value.token == token
    ensures r.None? ==> forall i :: 0 <= i < |invitations| ==> invitations[i].token != token
  {
    match FirstIndex(invitations, (v: Invitation) => v.token == token)
    case Some(i) => Some(invitations[i])
    case None => None
  }

  /** In a valid ledger, the invitation found under a token is the one for the token's email. */
  lemma FoundUnderOwnEmail(invitations: seq<Invitation>, isEmail: string -> bool, token: Jwt)
    requires ValidLedger(invitations, isEmail)
    ensures FindByToken(invitations, token).Some? ==>
      token.claims.email == Some(FindByToken(invitations, token).value.email)
  {
  }

  /** The `invitations` collection. `isEmail` is the email-syntax validator. */
  class InvitationCollection {
    const isEmail: string -> bool
    var invitations: seq<Invitation>

    ghost predicate Valid()
      reads this
    {
      ValidLedger(invitations, isEmail)
    }

    constructor (isEmail: string -> bool)
      ensures Valid() && invitations == [] && this.isEmail == isEmail
    {
      this.isEmail := isEmail;
      invitations := [];
    }

    /**
     * `findOneAndUpdate({email}, {email, token, valid: true}, {upsert: true})`: the
     * invitation for `email` gets the new token, or a new one is inserted. The token
     * index never objects, because a token carries its own email and the email index
     * keeps one invitation per email.
     */
    method Upsert(email: string, token: Jwt) returns (r: Result<Invitation, Fault>)
      requires Valid()
      requires email != "" && isEmail(email) && token.claims.email == Some(email)
      modifies this
      ensures Valid()
      ensures r == Ok(Invitation(email, token, true))
      ensures var k := EmailIndex(old(invitations), email);
        invitations == if k.Some? then old(invitations)[k.value := r.value] else old(invitations) + [r.value]
    {
      var entry := Invitation(email, token, true);
      var k := EmailIndex(invitations, email);
      // The unique index on `token`: no other invitation holds this token.
      assert forall j :: 0 <= j < |invitations| && (k.None? || j != k.value) ==> invitations[j].token != token;
      if k.Some? {
        invitations := invitations[k.value := entry];
      } else {
        invitations := invitations + [entry];
      }
      r := Ok(entry);
    }
  }
}
