/**
  validateAuthorize and the error side of /authorize: which requests are
  accepted, and which failures may be reported by redirecting the browser.
 */
module Authorize {
  import opened Wrappers
  import opened Scopes
  import opened Domain

  datatype AuthorizeRequest = AuthorizeRequest(
    responseType: string,
    clientID: string,
    redirectURI: string,
    scope: string,
    state: string,
    nonce: string,
    codeChallenge: string,
    codeChallengeMethod: string
  )

  datatype AuthorizeError =
    | MissingClientID
    | UnknownClient
    | UnregisteredRedirectURI
    | MissingResponseType
    | UnsupportedResponseType
    | ScopeWithoutOpenID
    | ScopeNotPermitted
    | UnsupportedChallengeMethod
    | MissingChallenge
    | AccessDenied

  /** AuthorizeResult of a validation: the verified redirect URI, if it got that far, and the error. */
  datatype Verdict = Verdict(redirectURI: Option<string>, error: Option<AuthorizeError>)

  type Clients = map<ClientID, Client>

  /** The checks of validateAuthorize that follow client and redirect URI. */
  function CheckParameters(c: Client, req: AuthorizeRequest): Option<AuthorizeError> {
    if req.responseType == "" then Some(MissingResponseType)
    else if req.responseType != CODE_RESPONSE || CODE_RESPONSE !in c.responseTypes then Some(UnsupportedResponseType)
    else
      match ParseAuth(req.scope)
      case Err(MissingOpenID) => Some(ScopeWithoutOpenID)
      case Err(InvalidScope) => Some(ScopeNotPermitted)
      case Ok(sc) =>
        if !(sc.values <= c.allowedScopes + {OPENID}) then Some(ScopeNotPermitted)
        else if req.codeChallengeMethod != "plain" && req.codeChallengeMethod != "S256" then Some(UnsupportedChallengeMethod)
        else if req.codeChallenge == "" then Some(MissingChallenge)
        else if req.codeChallengeMethod != "S256" then Some(UnsupportedChallengeMethod)
        else None
  }

  function Validate(clients: Clients, req: AuthorizeRequest): Verdict {
    var cid := ClientID(req.clientID);
    if req.clientID == "" then Verdict(None, Some(MissingClientID))
    else if cid !in clients then Verdict(None, Some(UnknownClient))
    else if req.redirectURI !in clients[cid].redirectURIs then Verdict(None, Some(UnregisteredRedirectURI))
    else Verdict(Some(req.redirectURI), CheckParameters(clients[cid], req))
  }

  /** isUnverifiedAuthorizeError. */
  predicate Unverified(e: AuthorizeError) {
    e == MissingClientID || e == UnknownClient || e == UnregisteredRedirectURI
  }

  datatype ErrorReport = JsonBody(code: string) | ErrorRedirect(location: string, code: string, state: string)

  /** authorizeErrorCode. */
  function ErrorCode(e: AuthorizeError): string {
    match e
    case UnknownClient => "invalid_client"
    case MissingClientID | UnregisteredRedirectURI | MissingResponseType => "invalid_request"
    case UnsupportedResponseType => "unsupported_response_type"
    case ScopeWithoutOpenID | ScopeNotPermitted => "invalid_scope"
    case UnsupportedChallengeMethod | MissingChallenge => "invalid_request"
    case AccessDenied => "access_denied"
  }

  /** writeAuthorizeError, up to the encoding of the query. */
  function WriteError(redirectURI: Option<string>, state: string, e: AuthorizeError): ErrorReport {
    if redirectURI.None? || Unverified(e) then JsonBody(ErrorCode(e))
    else ErrorRedirect(redirectURI.value, ErrorCode(e), state)
  }

  /** The code Authorize mints for an accepted request. */
  function MintCode(code: Code, owner: UserID, req: AuthorizeRequest, authTime: Option<Time>, now: Time): AuthorizationCode
    requires ParseAuth(req.scope).Ok?
  {
    AuthorizationCode(code, ClientID(req.clientID), owner, req.redirectURI, ParseAuth(req.scope).value,
                      req.nonce, req.codeChallenge, authTime, now + CODE_TTL)
  }

  /**
    A validation failure is reported by redirect exactly when the client and
    its redirect URI were confirmed, and then only to that registered URI.
   */
  lemma ErrorsRedirectOnlyToRegisteredURIs(clients: Clients, req: AuthorizeRequest)
    requires Validate(clients, req).error.Some?
    ensures var v := Validate(clients, req);
            var report := WriteError(v.redirectURI, req.state, v.error.value);
            var cid := ClientID(req.clientID);
            && (report.ErrorRedirect? <==>
                  req.clientID != "" && cid in clients && req.redirectURI in clients[cid].redirectURIs)
            && (report.ErrorRedirect? ==> report.location == req.redirectURI && report.state == req.state)
  {
  }

  /** Which error a refused request is reported with: the first of these that is wrong with it. */
  lemma RefusalsNameTheCause(clients: Clients, req: AuthorizeRequest)
    requires Validate(clients, req).error.Some?
    ensures var cid, code := ClientID(req.clientID), ErrorCode(Validate(clients, req).error.value);
            if req.clientID == "" then code == "invalid_request"
            else if cid !in clients then code == "invalid_client"
            else if req.redirectURI !in clients[cid].redirectURIs || req.responseType == "" then code == "invalid_request"
            else if req.responseType != "code" || "code" !in clients[cid].responseTypes then code == "unsupported_response_type"
            else if "openid" !in Fields(req.scope) || !(ValueSet(req.scope) <= clients[cid].allowedScopes + {"openid"})
                 then code == "invalid_scope"
            else code == "invalid_request" && (req.codeChallenge == "" || req.codeChallengeMethod != "S256")
  {
    hide Fields;
  }

  /** The requests validateAuthorize accepts, all of them and no others. */
  lemma AcceptedExactly(clients: Clients, req: AuthorizeRequest)
    ensures Validate(clients, req).error.None? <==>
              && req.clientID != "" && ClientID(req.clientID) in clients
              && var c := clients[ClientID(req.clientID)];
                 && req.redirectURI in c.redirectURIs
                 && req.responseType == CODE_RESPONSE && CODE_RESPONSE in c.responseTypes
                 && OPENID in ValueSet(req.scope) && ValueSet(req.scope) <= c.allowedScopes + {OPENID}
                 && req.codeChallenge != "" && req.codeChallengeMethod == "S256"
  {
    hide Fields;
  }

  /** An accepted request asks for openid and otherwise only for scopes its client may have. */
  lemma AcceptedScopeIsAllowed(clients: Clients, req: AuthorizeRequest)
    requires Validate(clients, req).error.None?
    ensures ClientID(req.clientID) in clients
    ensures req.redirectURI in clients[ClientID(req.clientID)].redirectURIs
    ensures ParseAuth(req.scope).Ok? && OPENID in ParseAuth(req.scope).value.values
    ensures ParseAuth(req.scope).value.values <= clients[ClientID(req.clientID)].allowedScopes + {OPENID}
    ensures req.codeChallenge != ""
  {
  }

  lemma AcceptedNormalizes(clients: Clients, req: AuthorizeRequest)
    requires Validate(clients, req).error.None?
    ensures NormalizeScope(req.scope).Ok?
  {
    AcceptedScopeIsAllowed(clients, req);
  }
}
