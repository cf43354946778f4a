/**
  Entities and value objects of the authorization server that its stores and
  its request programs share, and the errors a /token request can end in.
 */
module Domain {
  import opened Wrappers
  import opened Scopes

  // ---- time, in nanoseconds, and lifetimes ----

  type Time = int

  const SECOND: Time := 1_000_000_000
  const MINUTE: Time := 60 * SECOND
  const HOUR: Time := 60 * MINUTE
  const REFRESH_TOKEN_TTL: Time := 30 * 24 * HOUR
  const CODE_TTL: Time := 10 * MINUTE

  // ---- identifiers ----

  datatype ClientID = ClientID(value: string)
  datatype UserID = UserID(value: string)
  datatype FamilyID = FamilyID(value: string)
  datatype Code = Code(value: string)
  datatype TokenHash = TokenHash(value: string)

  /** SHA-256 of a refresh token's plaintext, taken to be collision-free. */
  function HashToken(plaintext: string): TokenHash { TokenHash(plaintext) }

  // ---- clients ----

  const AUTHORIZATION_CODE := "authorization_code"
  const REFRESH_TOKEN := "refresh_token"
  const CODE_RESPONSE := "code"

  /** A registered client; None as secret marks a public client. */
  datatype Client = Client(
    secret: Option<string>,
    redirectURIs: set<string>,
    allowedScopes: set<string>,
    responseTypes: set<string>,
    grantTypes: set<string>
  ) {
    /** bcrypt comparison, taken to accept exactly the secret that was hashed. */
    predicate VerifySecret(candidate: string) {
      secret.None? || (candidate != "" && candidate == secret.value)
    }
  }

  // ---- authorization codes ----

  /** The aggregate handed around by the service; consumed is never set on its request path. */
  datatype AuthorizationCode = AuthorizationCode(
    code: Code,
    client: ClientID,
    user: UserID,
    redirectURI: string,
    scope: Scope,
    nonce: string,
    challenge: string,
    authTime: Option<Time>,
    expiresAt: Time
  )

  // ---- refresh tokens ----

  datatype RefreshToken = RefreshToken(
    hash: TokenHash,
    family: FamilyID,
    client: ClientID,
    user: UserID,
    scope: Scope,
    authTime: Option<Time>,
    expiresAt: Time,
    consumed: bool
  )

  /** refreshtoken.Issue: the first link of a new family. */
  function Issue(hash: TokenHash, family: FamilyID, client: ClientID, user: UserID, scope: Scope,
                 authTime: Option<Time>, now: Time): RefreshToken
  {
    RefreshToken(hash, family, client, user, scope, authTime, now + REFRESH_TOKEN_TTL, false)
  }

  /** RefreshToken.Rotate: the next link of rt's family, with a sliding expiry. */
  function NextLink(rt: RefreshToken, hash: TokenHash, scope: Scope, now: Time): RefreshToken {
    RefreshToken(hash, rt.family, rt.client, rt.user, scope, rt.authTime, now + REFRESH_TOKEN_TTL, false)
  }

  // ---- errors of /token ----

  datatype Error =
    | UnsupportedGrantType
    | InvalidClientID
    | ClientNotFound
    | ClientAuthFailed
    | UserNotFound
    | CodeNotFound
    | CodeExpired
    | RedirectURIMismatch
    | CodeClientMismatch
    | PKCEVerificationFailed
    | InvalidCodeVerifier
    | RefreshInvalidScope
    | RefreshNotFound
    | RefreshReused
    | RefreshClientMismatch
    | AuthorizeRejected
    | Internal

  datatype ErrorReply = ErrorReply(status: nat, code: string, description: string)

  /** tokenErrorCode, with writeTokenError's fallback for errors it must not expose. */
  function TokenErrorCode(e: Error): ErrorReply {
    match e
    case UnsupportedGrantType => ErrorReply(400, "unsupported_grant_type",
      "only grant_type=authorization_code and grant_type=refresh_token are supported")
    case InvalidClientID => ErrorReply(400, "invalid_request", "client_id is required")
    case ClientNotFound => ErrorReply(400, "invalid_client", "unknown client")
    case ClientAuthFailed => ErrorReply(401, "invalid_client", "client authentication failed")
    case UserNotFound => ErrorReply(400, "invalid_grant", "the authorization grant is invalid, expired, or already used")
    case CodeNotFound | CodeExpired | RedirectURIMismatch | CodeClientMismatch
       | PKCEVerificationFailed | InvalidCodeVerifier => ErrorReply(400, "invalid_grant",
      "the authorization code is invalid, expired, already used, or code_verifier does not match")
    case RefreshInvalidScope => ErrorReply(400, "invalid_scope",
      "requested scope exceeds the scope originally granted to this refresh token")
    case RefreshNotFound | RefreshReused | RefreshClientMismatch => ErrorReply(400, "invalid_grant",
      "the refresh token is invalid, expired, already used, or was not issued to this client")
    case AuthorizeRejected | Internal => ErrorReply(500, "server_error", "")
  }
}
