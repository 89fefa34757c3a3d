/** Session tokens, the `@jwt_required` gate with its two error callbacks, and
    the password hasher (deployed_api/main.py:13-16, 45, 90, 322-330). */
module Auth {
  import opened Records

  /** `JWT_ACCESS_TOKEN_EXPIRES = timedelta(days=7)`, in seconds. */
  const TokenLifetime: nat := 7 * 24 * 60 * 60

  /** `create_access_token(identity=email)` at wall-clock second `now`: the
      token is not valid before `now` (its `nbf` claim) and expires
      `JWT_ACCESS_TOKEN_EXPIRES` later. */
  function Issue(identity: string, now: nat): (t: Token)
    ensures t.identity == identity && t.issuedAt == now
    ensures t.expiresAt - t.issuedAt == TokenLifetime
  {
    Token(identity, now, now + TokenLifetime)
  }

  /** A token as presented in a request: one signed with the server's secret,
      or anything else (tampered, malformed, signed with another key). */
  datatype Presented = Signed(token: Token) | Forged

  /** What the JWT layer decides before a protected handler runs. */
  datatype Verdict = Valid(identity: string) | Expired | Invalid

  /** The `@jwt_required()` gate: a bad signature and a token presented
      before its `nbf` instant are invalid; a signed token is expired from its
      `exp` second on; otherwise it asserts its identity. */
  function Verify(p: Presented, now: nat): (v: Verdict)
    ensures v.Valid? <==> p.Signed? && p.token.issuedAt <= now < p.token.expiresAt
    ensures v.Valid? ==> v.identity == p.token.identity
    ensures v.Expired? <==> p.Signed? && p.token.issuedAt <= now && p.token.expiresAt <= now
    ensures v.Invalid? <==> p.Forged? || now < p.token.issuedAt
  {
    match p
    case Forged => Invalid
    case Signed(t) =>
      if now < t.issuedAt then Invalid
      else if now < t.expiresAt then Valid(t.identity)
      else Expired
  }

  /** A token issued at `issuedAt` asserts its identity for exactly seven days
      from that instant and is expired afterwards; so it is valid six days on
      and expired eight days on. Before it was issued it is invalid. */
  lemma IssuedTokenLifetime(email: string, issuedAt: nat, now: nat)
    ensures Verify(Signed(Issue(email, issuedAt)), now) == Valid(email) <==> issuedAt <= now < issuedAt + 7 * 86400
    ensures Verify(Signed(Issue(email, issuedAt)), now) == Expired <==> now >= issuedAt + 7 * 86400
    ensures Verify(Signed(Issue(email, issuedAt)), now) == Invalid <==> now < issuedAt
    ensures Verify(Signed(Issue(email, issuedAt)), issuedAt + 6 * 86400) == Valid(email)
    ensures Verify(Signed(Issue(email, issuedAt)), issuedAt + 8 * 86400) == Expired
  {
  }

  /** The `expired_token_loader` and `invalid_token_loader` callbacks: the
      response sent instead of running a protected handler. */
  function TokenError(v: Verdict): (r: Response)
    requires !v.Valid?
    ensures r.status == 401 && r.body.Message?
    ensures r.body.text == TokenExpired <==> v.Expired?
    ensures r.body.text == TokenInvalid <==> v.Invalid?
  {
    if v.Expired? then Response(401, Message(TokenExpired))
    else Response(401, Message(TokenInvalid))
  }

  /** bcrypt, left uninterpreted: `hashpw(password, salt)` and
      `checkpw(password, digest)`. No law relating the two is assumed. */
  datatype Crypto = Crypto(hashpw: (string, string) -> string, checkpw: (string, string) -> bool)
}
