/**
 * The token codec: compact, signed, expiring tokens carrying a small claim set.
 * Signing and verification are abstract. A token is the value it encodes (its claims,
 * issue and expiry times in whole seconds, and the key it was signed with), so two
 * token strings are equal exactly when they encode the same value.
 */
module Tokens {
  import opened Wrappers
  import opened Errors

  /** The signing secret (process configuration). */
  type Key = string

  /** The claims a token carries: `{userId}` for a session, `{email}` for an invitation. */
  datatype Claims = Claims(userId: Option<string>, email: Option<string>)

  /** A signed token: claims, `iat` and `exp` in whole seconds, and the key it was signed with. */
  datatype Jwt = Jwt(claims: Claims, iat: int, exp: int, signedWith: Key)

  /**
   * One space-free word of a header or one path segment: either a well-formed compact
   * token or any other text.
   */
  datatype Word = Text(text: string) | Compact(jwt: Jwt)

  /** What a successful verification returns. */
  datatype Payload = Payload(claims: Claims, iat: int, exp: int)

  /** `Math.floor(ms / 1000)`: the codec's clock is in whole seconds. */
  function Seconds(ms: int): int {
    ms / 1000
  }

  /** `jwt.sign(claims, key, {expiresIn: ttl})` at time `nowMs`. */
  function Sign(claims: Claims, key: Key, nowMs: int, ttl: int): (t: Jwt)
    ensures t.claims == claims && t.signedWith == key
    ensures t.iat == Seconds(nowMs) && t.exp - t.iat == ttl
  {
    Jwt(claims, Seconds(nowMs), Seconds(nowMs) + ttl, key)
  }

  /**
   * `jwt.verify(word, key)` at time `nowMs`: text that is not a token and a token signed
   * with another key are rejected as invalid; a token whose expiry second has been
   * reached is rejected as expired.
   */
  function Verify(w: Word, key: Key, nowMs: int): (r: Result<Payload, Fault>)
    ensures r.Ok? ==> w.Compact? && w.jwt.signedWith == key && Seconds(nowMs) < w.jwt.exp
    ensures r.Ok? ==> r.value == Payload(w.jwt.claims, w.jwt.iat, w.jwt.exp)
    ensures r.Err? ==> r.error.name in {JsonWebTokenError, TokenExpiredError} && r.error.code == None
  {
    match w
    case Text(s) => Err(LibraryError(JsonWebTokenError, if s == "" then "jwt must be provided" else "jwt malformed"))
    case Compact(t) =>
      if t.signedWith != key then Err(LibraryError(JsonWebTokenError, "invalid signature"))
      else if Seconds(nowMs) >= t.exp then Err(LibraryError(TokenExpiredError, "jwt expired"))
      else Ok(Payload(t.claims, t.iat, t.exp))
  }

  /** A token verifies under the key that signed it until its expiry second, and yields its claims. */
  lemma SignThenVerify(claims: Claims, key: Key, issuedMs: int, ttl: int, nowMs: int)
    ensures var t := Sign(claims, key, issuedMs, ttl);
      Verify(Compact(t), key, nowMs) ==
        if Seconds(nowMs) < Seconds(issuedMs) + ttl then Ok(Payload(claims, Seconds(issuedMs), Seconds(issuedMs) + ttl))
        else Err(LibraryError(TokenExpiredError, "jwt expired"))
  {
  }

  /** A token signed with any other key never verifies. */
  lemma ForeignKeyRejected(t: Jwt, key: Key, nowMs: int)
    requires t.signedWith != key
    ensures Verify(Compact(t), key, nowMs) == Err(LibraryError(JsonWebTokenError, "invalid signature"))
  {
  }

  /**
   * `headers.authorization?.split(" ")[1]`, given the header as its single-space
   * separated pieces: the second piece, if there is one and it is not empty. The
   * first piece is not looked at, so no literal "Bearer" is required.
   */
  function SecondWord(header: Option<seq<Word>>): Option<Word> {
    if header.Some? && |header.value| >= 2 && header.value[1] != Text("") then Some(header.value[1])
    else None
  }
}
