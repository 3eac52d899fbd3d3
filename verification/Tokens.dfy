/** JSON web tokens and their digests. Signing is deterministic and injective in the claims and the
    secret, so a token is represented by what was signed; SHA-256 is injective, so a digest is
    represented by its preimage. `iat` and `exp` are whole seconds (sections 4.1.4 and 4.1.6 of
    RFC 7519), clock readings are milliseconds. */
module Tokens {
  import opened Duration

  type UserId = nat
  type Millis = nat

  datatype Role = Admin | Member

  datatype TokenType = AccessType | RefreshType

  datatype Claims = Claims(sub: UserId, email: string, role: Role, typ: TokenType, iat: nat, exp: nat)

  datatype Token = Jwt(secret: string, claims: Claims) | Opaque(text: string)

  datatype TokenHash = Sha256(token: Token)

  datatype TokenPair = TokenPair(accessToken: Token, refreshToken: Token)

  /** The configuration the auth service reads; `compare` is bcrypt's comparison of a plain text
      with a stored digest. */
  datatype Config = Config(
    accessSecret: string,
    refreshSecret: string,
    accessExpiresIn: string,
    refreshExpiresIn: string,
    compare: (string, string) -> bool)
  {
    predicate Valid() {
      WellFormed(accessExpiresIn) && WellFormed(refreshExpiresIn)
    }
  }

  datatype Identity = Identity(id: UserId, email: string, role: Role)

  function SignAccess(cfg: Config, who: Identity, at: Millis): Token {
    Jwt(cfg.accessSecret,
        Claims(who.id, who.email, who.role, AccessType, at / 1000, at / 1000 + JwtLifetime(cfg.accessExpiresIn)))
  }

  function SignRefresh(cfg: Config, who: Identity, at: Millis): Token {
    Jwt(cfg.refreshSecret,
        Claims(who.id, who.email, who.role, RefreshType, at / 1000, at / 1000 + JwtLifetime(cfg.refreshExpiresIn)))
  }

  /** Signature and `exp` check of the JWT library against one secret. */
  predicate Verifies(secret: string, token: Token, now: Millis) {
    token.Jwt? && token.secret == secret && now / 1000 < token.claims.exp
  }

  /** What refresh asks of the presented token before it looks at the database. */
  predicate VerifiesAsRefresh(cfg: Config, token: Token, now: Millis) {
    Verifies(cfg.refreshSecret, token, now) && token.claims.typ == RefreshType
  }

  /** The instant, in milliseconds, from which the JWT library calls the token expired. */
  function ExpiryInstant(token: Token): Millis
    requires token.Jwt?
  {
    1000 * token.claims.exp
  }

  lemma VerifiesUntilExpiryInstant(secret: string, token: Token, now: Millis)
    requires token.Jwt?
    ensures Verifies(secret, token, now) <==> token.secret == secret && now < ExpiryInstant(token)
  {
  }
}
