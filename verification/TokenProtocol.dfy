/**
  The token lifecycle as a concurrent protocol. Each request is a program
  whose steps are its repository calls; steps of any number of requests
  interleave with each other, with administration and with the purge of
  expired rows. An action names the request that moves and the random values
  it may draw; Apply computes the next state.

  Beside the tables the state keeps a history that no program reads: what was
  ever issued, stored, redeemed or revoked, and by which request.
 */
module TokenProtocol {
  import opened Wrappers
  import opened Scopes
  import opened Domain
  import opened Pkce
  import opened Authorize
  import RT = RefreshTokenStore
  import AC = AuthCodeStore

  // ---- requests and replies ----

  datatype RequestId = RequestId(n: nat)

  datatype TokenRequest = TokenRequest(
    grantType: string,
    code: string,
    redirectURI: string,
    clientID: string,
    clientSecret: string,
    codeVerifier: string,
    refreshToken: string,
    scope: string
  )

  datatype RevokeRequest = RevokeRequest(token: string, clientID: string, clientSecret: string)

  datatype Request =
    | TokenCall(tok: TokenRequest)
    | AuthorizeCall(auth: AuthorizeRequest, owner: UserID, authTime: Option<Time>)
    | RevokeCall(rev: RevokeRequest)

  datatype Reply =
    | Granted(client: ClientID, user: UserID, scope: Scope, authTime: Option<Time>, refresh: Option<RefreshToken>)
    | CodeIssued(ac: AuthorizationCode)
    | Revoked
    | Failed(error: Error)

  // ---- program counters with the locals that are live there ----

  datatype Proc =
    | Arrived(req: Request)
    // refreshTokenGrant
    | RefreshFind(tok: TokenRequest, cid: ClientID)
    | RefreshOwner(tok: TokenRequest, cid: ClientID, rt: RefreshToken, scope: Scope)
    | RefreshMint(tok: TokenRequest, cid: ClientID, rt: RefreshToken, scope: Scope)
    | RefreshRotate(tok: TokenRequest, cid: ClientID, rt: RefreshToken, next: RefreshToken)
    | RefreshRevoke(tok: TokenRequest, cid: ClientID, rt: RefreshToken)
    // authorizationCodeGrant
    | CodeFind(tok: TokenRequest, cid: ClientID, client: Client)
    | CodeVerify(tok: TokenRequest, cid: ClientID, client: Client, ac: AuthorizationCode)
    | CodeConsume(tok: TokenRequest, cid: ClientID, client: Client, ac: AuthorizationCode)
    | CodeOwner(tok: TokenRequest, cid: ClientID, client: Client, ac: AuthorizationCode)
    | CodeMint(tok: TokenRequest, cid: ClientID, client: Client, ac: AuthorizationCode)
    | CodeSave(tok: TokenRequest, cid: ClientID, ac: AuthorizationCode, rt: RefreshToken)
    // Authorize, after the consent lookup
    | AuthorizeIssue(auth: AuthorizeRequest, owner: UserID, authTime: Option<Time>)
    | AuthorizeSave(auth: AuthorizeRequest, owner: UserID, ac: AuthorizationCode, allowed: set<string>)
    // Revoke
    | RevokeClient(rev: RevokeRequest, rt: RefreshToken)
    | RevokeDelete(rev: RevokeRequest, rt: RefreshToken)
    | Finished(req: Request, reply: Reply)

  /** The request a program is working on. */
  function RequestOf(p: Proc): Request {
    match p
    case Arrived(req) => req
    case AuthorizeIssue(auth, owner, authTime) => AuthorizeCall(auth, owner, authTime)
    case AuthorizeSave(auth, owner, ac, _) => AuthorizeCall(auth, owner, ac.authTime)
    case RevokeClient(rev, _) => RevokeCall(rev)
    case RevokeDelete(rev, _) => RevokeCall(rev)
    case Finished(req, _) => req
    case _ => TokenCall(p.tok)
  }

  // ---- state ----

  datatype Consent = Consent(user: UserID, client: ClientID, scope: string)

  /** A stored refresh token as inserted, and its place in its family's rotation chain. */
  datatype Link = Link(row: RT.TokenRow, pos: nat)

  datatype TokenLedger = TokenLedger(
    rows: RT.Rows,
    links: map<TokenHash, Link>,
    chain: map<FamilyID, seq<TokenHash>>,
    origin: map<FamilyID, Code>,
    revoked: set<FamilyID>,
    makers: map<TokenHash, RequestId>,
    founders: map<FamilyID, RequestId>
  )

  datatype Issued = Issued(row: AC.CodeRow, allowed: set<string>)

  datatype Redemption = Redemption(redeemer: RequestId, time: Time)

  datatype CodeLedger = CodeLedger(
    rows: AC.Rows,
    issued: map<Code, Issued>,
    redeemed: map<Code, Redemption>,
    makers: map<Code, RequestId>
  )

  datatype State = State(
    clock: Time,
    clients: Clients,
    users: set<UserID>,
    consents: set<Consent>,
    consented: set<Consent>,
    codes: CodeLedger,
    tokens: TokenLedger,
    presented: set<TokenHash>,
    procs: map<RequestId, Proc>
  )

  // ---- actions ----

  /** Random values a step may draw; most steps draw none of them. */
  datatype Draw = Draw(hash: TokenHash, family: FamilyID, code: Code)

  datatype Action =
    | Arrive(r: RequestId, req: Request)
    | Step(r: RequestId, draw: Draw)
    | Fail(r: RequestId)
    | Tick(now: Time)
    | PurgeTokens
    | PurgeCodes
    | GrantConsent(user: UserID, client: ClientID, scope: string)
    | PutClient(cid: ClientID, record: Client)
    | DeleteClient(cid: ClientID)
    | PutUser(uid: UserID)
    | DeleteUser(uid: UserID)

  predicate Running(s: State, r: RequestId) { r in s.procs && !s.procs[r].Finished? }

  predicate IsFresh(s: State, draw: Draw) {
    && draw.hash !in s.tokens.makers && draw.hash !in s.presented
    && draw.family !in s.tokens.founders
    && draw.code !in s.codes.makers
  }

  predicate Enabled(s: State, a: Action) {
    match a
    case Arrive(r, _) => r !in s.procs
    case Step(r, draw) => Running(s, r) && IsFresh(s, draw)
    case Fail(r) => Running(s, r)
    case Tick(now) => s.clock <= now
    case _ => true
  }

  // ---- ledger updates: a repository call plus its history ----

  function AddLink(l: TokenLedger, rows: RT.Rows, rt: RefreshToken, chain: seq<TokenHash>): TokenLedger {
    l.(rows := rows,
       links := l.links[rt.hash := Link(RT.RowOf(rt), |chain|)],
       chain := l.chain[rt.family := chain + [rt.hash]])
  }

  function SaveFirst(l: TokenLedger, rt: RefreshToken, x: Code): (TokenLedger, Result<(), Error>) {
    var (rows, res) := RT.Save(l.rows, rt);
    if res.Err? then (l, res)
    else (AddLink(l, rows, rt, []).(origin := l.origin[rt.family := x]), res)
  }

  function RotateLink(l: TokenLedger, h: TokenHash, next: RefreshToken, now: Time): (TokenLedger, Result<(), Error>) {
    var (rows, res) := RT.Rotate(l.rows, h, next, now);
    if res.Err? then (l, res)
    else (AddLink(l, rows, next, if next.family in l.chain then l.chain[next.family] else []), res)
  }

  function RevokeChain(l: TokenLedger, f: FamilyID): TokenLedger {
    l.(rows := RT.RevokeFamily(l.rows, f), revoked := l.revoked + {f})
  }

  // ---- request programs ----

  function To(s: State, r: RequestId, p: Proc): State { s.(procs := s.procs[r := p]) }

  function Answer(s: State, r: RequestId, p: Proc, reply: Reply): State { To(s, r, Finished(RequestOf(p), reply)) }

  function Stop(s: State, r: RequestId, p: Proc, e: Error): State { Answer(s, r, p, Failed(e)) }

  /** Requests other than r are untouched between s and s'. */
  ghost predicate OnlyMoves(s: State, s': State, r: RequestId) {
    && s'.procs.Keys == s.procs.Keys + {r}
    && forall q :: q in s.procs && q != r ==> s'.procs[q] == s.procs[q]
  }

  /** What request programs never touch. */
  ghost predicate SameWorld(s: State, s': State) {
    && s'.clock == s.clock && s'.clients == s.clients && s'.users == s.users
    && s'.consents == s.consents && s'.consented == s.consented && s'.presented == s.presented
  }

  /** A step of r that stores no new token and no new code. */
  ghost predicate NoInsert(s: State, s': State, r: RequestId) {
    && OnlyMoves(s, s', r) && SameWorld(s, s')
    && s'.tokens.links == s.tokens.links && s'.tokens.chain == s.tokens.chain
    && s'.tokens.origin == s.tokens.origin && s'.codes.issued == s.codes.issued
  }

  /** Client resolution and authentication, the same in both grants. */
  function ResolveClient(clients: Clients, tok: TokenRequest): Result<Client, Error> {
    var cid := ClientID(tok.clientID);
    if tok.clientID == "" then Err(InvalidClientID)
    else if cid !in clients then Err(ClientNotFound)
    else
      var c := clients[cid];
      if tok.grantType !in c.grantTypes then Err(UnsupportedGrantType)
      else if c.secret.Some? && !c.VerifySecret(tok.clientSecret) then Err(ClientAuthFailed)
      else Ok(c)
  }

  /** What Revoke makes of its lookup; a token that is not there counts as revoked. */
  function RevokeFound(s: State, r: RequestId, p: Proc, rev: RevokeRequest, found: Result<RefreshToken, Error>): (s': State)
    ensures NoInsert(s, s', r) && s'.tokens == s.tokens && s'.codes == s.codes
    ensures r in s'.procs && (s'.procs[r].Finished? || s'.procs[r].RevokeClient?)
  {
    match found
    case Ok(rt) => To(s, r, RevokeClient(rev, rt))
    case Err(e) => if e == RefreshNotFound then Answer(s, r, p, Revoked) else Stop(s, r, p, e)
  }

  /** Revoke up to its lookup. */
  function StepRevokeFind(s: State, r: RequestId, p: Proc, rev: RevokeRequest): (s': State)
    ensures NoInsert(s, s', r) && s'.codes == s.codes && s'.tokens == s.tokens.(rows := s'.tokens.rows)
    ensures r in s'.procs && (s'.procs[r].Finished? || s'.procs[r].RevokeClient?)
  {
    if rev.token == "" then Answer(s, r, p, Revoked)
    else
      var (rows, found) := RT.FindByTokenHash(s.tokens.rows, HashToken(rev.token), s.clock);
      RevokeFound(s.(tokens := s.tokens.(rows := rows)), r, p, rev, found)
  }

  function StepArrived(s: State, r: RequestId, req: Request): (s': State)
    ensures NoInsert(s, s', r)
  {
    var p := Arrived(req);
    match req
    case TokenCall(tok) =>
      if tok.grantType == AUTHORIZATION_CODE then (
        match ResolveClient(s.clients, tok)
        case Err(e) => Stop(s, r, p, e)
        case Ok(c) =>
          if tok.code == "" then Stop(s, r, p, CodeNotFound)
          else To(s, r, CodeFind(tok, ClientID(tok.clientID), c))
      ) else if tok.grantType == REFRESH_TOKEN then (
        if tok.refreshToken == "" then Stop(s, r, p, RefreshNotFound)
        else
          match ResolveClient(s.clients, tok)
          case Err(e) => Stop(s, r, p, e)
          case Ok(_) => To(s, r, RefreshFind(tok, ClientID(tok.clientID)))
      ) else Stop(s, r, p, UnsupportedGrantType)
    case AuthorizeCall(auth, owner, authTime) => (
      match NormalizeScope(auth.scope)
      case Err(_) => Stop(s, r, p, AuthorizeRejected)
      case Ok(scope) =>
        if Consent(owner, ClientID(auth.clientID), scope) in s.consents then To(s, r, AuthorizeIssue(auth, owner, authTime))
        else Stop(s, r, p, AuthorizeRejected)
    )
    case RevokeCall(rev) => StepRevokeFind(s, r, p, rev)
  }

  /** Reuse detection, client binding and narrowing, in that order. */
  function RefreshFound(s: State, r: RequestId, p: Proc, rt: RefreshToken): (s': State)
    requires p.RefreshFind?
    ensures NoInsert(s, s', r) && s'.tokens == s.tokens && s'.codes == s.codes
  {
    if rt.consumed then To(s, r, RefreshRevoke(p.tok, p.cid, rt))
    else if rt.client != p.cid then Stop(s, r, p, RefreshClientMismatch)
    else
      match Narrow(rt.scope, p.tok.scope)
      case Err(_) => Stop(s, r, p, RefreshInvalidScope)
      case Ok(scope) => To(s, r, RefreshOwner(p.tok, p.cid, rt, scope))
  }

  function StepRefreshFind(s: State, r: RequestId, p: Proc): (s': State)
    requires p.RefreshFind?
    ensures NoInsert(s, s', r) && s'.codes == s.codes
    ensures s'.tokens == s.tokens.(rows := RT.FindByTokenHash(s.tokens.rows, HashToken(p.tok.refreshToken), s.clock).0)
  {
    var (rows, found) := RT.FindByTokenHash(s.tokens.rows, HashToken(p.tok.refreshToken), s.clock);
    var s1 := s.(tokens := s.tokens.(rows := rows));
    match found
    case Err(e) => Stop(s1, r, p, e)
    case Ok(rt) => RefreshFound(s1, r, p, rt)
  }

  function StepRefreshMint(s: State, r: RequestId, p: Proc, draw: Draw): (s': State)
    requires p.RefreshMint?
    ensures NoInsert(s, s', r)
  {
    var next := NextLink(p.rt, draw.hash, p.scope, s.clock);
    To(s.(tokens := s.tokens.(makers := s.tokens.makers[draw.hash := r])), r, RefreshRotate(p.tok, p.cid, p.rt, next))
  }

  function StepRefreshRotate(s: State, r: RequestId, p: Proc): (s': State)
    requires p.RefreshRotate?
    ensures OnlyMoves(s, s', r) && SameWorld(s, s')
  {
    var (tokens, res) := RotateLink(s.tokens, p.rt.hash, p.next, s.clock);
    match res
    case Err(RefreshReused) => To(s, r, RefreshRevoke(p.tok, p.cid, p.rt))
    case Err(e) => Stop(s, r, p, e)
    case Ok(_) =>
      Answer(s.(tokens := tokens), r, p,
             Granted(p.cid, p.next.user, p.next.scope, p.next.authTime, Some(p.next)))
  }

  function StepCodeFind(s: State, r: RequestId, p: Proc): (s': State)
    requires p.CodeFind?
    ensures NoInsert(s, s', r)
  {
    var (rows, found) := AC.FindByCode(s.codes.rows, Code(p.tok.code), s.clock);
    var s' := s.(codes := s.codes.(rows := rows));
    match found
    case Err(e) => Stop(s', r, p, e)
    case Ok(ac) => To(s', r, CodeVerify(p.tok, p.cid, p.client, ac))
  }

  /** AuthorizationCode.Verify, in its order of checks. */
  function Verify(ac: AuthorizationCode, tok: TokenRequest, cid: ClientID, now: Time): Result<(), Error> {
    if now > ac.expiresAt then Err(CodeExpired)
    else if ac.redirectURI != tok.redirectURI then Err(RedirectURIMismatch)
    else if ac.client != cid then Err(CodeClientMismatch)
    else
      match VerifyChallenge(ac.challenge, tok.codeVerifier)
      case Ok(_) => Ok(())
      case Err(e) => Err(if e == MalformedVerifier then InvalidCodeVerifier else PKCEVerificationFailed)
  }

  function StepCodeVerify(s: State, r: RequestId, p: Proc): (s': State)
    requires p.CodeVerify?
    ensures NoInsert(s, s', r)
  {
    match Verify(p.ac, p.tok, p.cid, s.clock)
    case Err(e) => Stop(s, r, p, e)
    case Ok(_) => To(s, r, CodeConsume(p.tok, p.cid, p.client, p.ac))
  }

  function StepCodeConsume(s: State, r: RequestId, p: Proc): (s': State)
    requires p.CodeConsume?
    ensures NoInsert(s, s', r)
  {
    var (rows, res) := AC.Consume(s.codes.rows, p.ac.code, s.clock);
    match res
    case Err(e) => Stop(s.(codes := s.codes.(rows := rows)), r, p, e)
    case Ok(_) =>
      To(s.(codes := s.codes.(rows := rows, redeemed := s.codes.redeemed[p.ac.code := Redemption(r, s.clock)])),
         r, CodeOwner(p.tok, p.cid, p.client, p.ac))
  }

  function GrantedWithoutRefresh(p: Proc): Reply
    requires p.CodeMint?
  {
    Granted(p.cid, p.ac.user, p.ac.scope, p.ac.authTime, None)
  }

  /** Whether the exchange draws a refresh token depends on nothing but the exchange. */
  predicate DrawsRefresh(p: Proc)
    requires p.CodeMint?
  {
    REFRESH_TOKEN in p.client.grantTypes && p.ac.scope.Has(OFFLINE_ACCESS) && ParseRefresh(p.ac.scope.value).Ok?
  }

  function StepCodeMint(s: State, r: RequestId, p: Proc, draw: Draw): (s': State)
    requires p.CodeMint?
    ensures NoInsert(s, s', r)
  {
    if REFRESH_TOKEN in p.client.grantTypes && p.ac.scope.Has(OFFLINE_ACCESS) then (
      match ParseRefresh(p.ac.scope.value)
      case Err(_) => Stop(s, r, p, Internal)
      case Ok(scope) =>
        var rt := Issue(draw.hash, draw.family, p.cid, p.ac.user, scope, p.ac.authTime, s.clock);
        To(s.(tokens := s.tokens.(makers := s.tokens.makers[draw.hash := r],
                                  founders := s.tokens.founders[draw.family := r])),
           r, CodeSave(p.tok, p.cid, p.ac, rt))
    ) else Answer(s, r, p, GrantedWithoutRefresh(p))
  }

  function StepCodeSave(s: State, r: RequestId, p: Proc): (s': State)
    requires p.CodeSave?
    ensures OnlyMoves(s, s', r) && SameWorld(s, s')
  {
    var (tokens, res) := SaveFirst(s.tokens, p.rt, p.ac.code);
    match res
    case Err(e) => Stop(s, r, p, e)
    case Ok(_) =>
      Answer(s.(tokens := tokens), r, p,
             Granted(p.cid, p.ac.user, p.ac.scope, p.ac.authTime, Some(p.rt)))
  }

  function StepAuthorizeIssue(s: State, r: RequestId, p: Proc, draw: Draw): (s': State)
    requires p.AuthorizeIssue?
    ensures NoInsert(s, s', r)
  {
    var auth := p.auth;
    if Validate(s.clients, auth).error.Some? then Stop(s, r, p, AuthorizeRejected)
    else
      To(s.(codes := s.codes.(makers := s.codes.makers[draw.code := r])),
         r, AuthorizeSave(auth, p.owner, MintCode(draw.code, p.owner, auth, p.authTime, s.clock),
                          s.clients[ClientID(auth.clientID)].allowedScopes))
  }

  function StepAuthorizeSave(s: State, r: RequestId, p: Proc): (s': State)
    requires p.AuthorizeSave?
    ensures OnlyMoves(s, s', r) && SameWorld(s, s')
  {
    var (rows, res) := AC.Save(s.codes.rows, p.ac);
    match res
    case Err(e) => Stop(s, r, p, e)
    case Ok(_) =>
      Answer(s.(codes := s.codes.(rows := rows, issued := s.codes.issued[p.ac.code := Issued(AC.RowOf(p.ac), p.allowed)])),
             r, p, CodeIssued(p.ac))
  }

  /** The authentication ladder of Revoke; every refusal is answered like a success. */
  predicate MayRevoke(clients: Clients, rt: RefreshToken, rev: RevokeRequest) {
    && rt.client.value != "" && rt.client in clients
    && var c := clients[rt.client];
       if c.secret.Some? then rev.clientID == rt.client.value && c.VerifySecret(rev.clientSecret)
       else rev.clientID == "" || rev.clientID == rt.client.value
  }

  function StepRefreshOwner(s: State, r: RequestId, p: Proc): (s': State)
    requires p.RefreshOwner?
    ensures NoInsert(s, s', r)
  {
    if p.rt.user in s.users then To(s, r, RefreshMint(p.tok, p.cid, p.rt, p.scope)) else Stop(s, r, p, UserNotFound)
  }

  function StepRefreshRevoke(s: State, r: RequestId, p: Proc): (s': State)
    requires p.RefreshRevoke?
    ensures NoInsert(s, s', r)
  {
    Stop(s.(tokens := RevokeChain(s.tokens, p.rt.family)), r, p, RefreshReused)
  }

  function StepCodeOwner(s: State, r: RequestId, p: Proc): (s': State)
    requires p.CodeOwner?
    ensures NoInsert(s, s', r)
  {
    if p.ac.user in s.users then To(s, r, CodeMint(p.tok, p.cid, p.client, p.ac)) else Stop(s, r, p, UserNotFound)
  }

  function StepRevokeClient(s: State, r: RequestId, p: Proc): (s': State)
    requires p.RevokeClient?
    ensures NoInsert(s, s', r)
  {
    if MayRevoke(s.clients, p.rt, p.rev) then To(s, r, RevokeDelete(p.rev, p.rt)) else Answer(s, r, p, Revoked)
  }

  function StepRevokeDelete(s: State, r: RequestId, p: Proc): (s': State)
    requires p.RevokeDelete?
    ensures NoInsert(s, s', r)
  {
    Answer(s.(tokens := RevokeChain(s.tokens, p.rt.family)), r, p, Revoked)
  }

  function StepProc(s: State, r: RequestId, p: Proc, draw: Draw): State {
    match p
    case Arrived(req) => StepArrived(s, r, req)
    case RefreshFind(_, _) => StepRefreshFind(s, r, p)
    case RefreshOwner(_, _, _, _) => StepRefreshOwner(s, r, p)
    case RefreshMint(_, _, _, _) => StepRefreshMint(s, r, p, draw)
    case RefreshRotate(_, _, _, _) => StepRefreshRotate(s, r, p)
    case RefreshRevoke(_, _, _) => StepRefreshRevoke(s, r, p)
    case CodeFind(_, _, _) => StepCodeFind(s, r, p)
    case CodeVerify(_, _, _, _) => StepCodeVerify(s, r, p)
    case CodeConsume(_, _, _, _) => StepCodeConsume(s, r, p)
    case CodeOwner(_, _, _, _) => StepCodeOwner(s, r, p)
    case CodeMint(_, _, _, _) => StepCodeMint(s, r, p, draw)
    case CodeSave(_, _, _, _) => StepCodeSave(s, r, p)
    case AuthorizeIssue(_, _, _) => StepAuthorizeIssue(s, r, p, draw)
    case AuthorizeSave(_, _, _, _) => StepAuthorizeSave(s, r, p)
    case RevokeClient(_, _) => StepRevokeClient(s, r, p)
    case RevokeDelete(_, _) => StepRevokeDelete(s, r, p)
    case Finished(_, _) => s
  }

  // ---- transitions ----

  function HashesOf(req: Request): set<TokenHash> {
    match req
    case TokenCall(tok) => {HashToken(tok.refreshToken)}
    case RevokeCall(rev) => {HashToken(rev.token)}
    case AuthorizeCall(_, _, _) => {}
  }

  /** UserWriter.DeleteUser: an unknown id rolls the whole cascade back. */
  function RemoveUser(s: State, u: UserID): State {
    if u !in s.users then s
    else s.(users := s.users - {u},
            consents := (set c | c in s.consents && c.user != u),
            codes := s.codes.(rows := AC.DropUser(s.codes.rows, u)),
            tokens := s.tokens.(rows := RT.DropUser(s.tokens.rows, u)))
  }

  /** ClientWriter.DeleteClient. */
  function RemoveClient(s: State, cid: ClientID): State {
    if cid !in s.clients then s
    else s.(clients := s.clients - {cid},
            consents := (set c | c in s.consents && c.client != cid),
            codes := s.codes.(rows := AC.DropClient(s.codes.rows, cid)),
            tokens := s.tokens.(rows := RT.DropClient(s.tokens.rows, cid)))
  }

  function RecordConsent(s: State, u: UserID, cid: ClientID, raw: string): State {
    match NormalizeScope(raw)
    case Err(_) => s
    case Ok(scope) =>
      var c := Consent(u, cid, scope);
      s.(consents := s.consents + {c}, consented := s.consented + {c})
  }

  function Apply(s: State, a: Action): State
    requires Enabled(s, a)
  {
    match a
    case Arrive(r, req) => To(s.(presented := s.presented + HashesOf(req)), r, Arrived(req))
    case Step(r, draw) => StepProc(s, r, s.procs[r], draw)
    case Fail(r) => Stop(s, r, s.procs[r], Internal)
    case Tick(now) => s.(clock := now)
    case PurgeTokens => s.(tokens := s.tokens.(rows := RT.PurgeExpired(s.tokens.rows, s.clock)))
    case PurgeCodes => s.(codes := s.codes.(rows := AC.PurgeExpired(s.codes.rows, s.clock)))
    case GrantConsent(u, cid, raw) => RecordConsent(s, u, cid, raw)
    case PutClient(cid, c) => s.(clients := s.clients[cid := c])
    case DeleteClient(cid) => RemoveClient(s, cid)
    case PutUser(u) => s.(users := s.users + {u})
    case DeleteUser(u) => RemoveUser(s, u)
  }

  // ---- runs ----

  ghost predicate Initial(s: State) {
    && s.codes == CodeLedger(map[], map[], map[], map[])
    && s.tokens == TokenLedger(map[], map[], map[], map[], {}, map[], map[])
    && s.consents <= s.consented
    && s.presented == {} && s.procs == map[]
  }

  ghost predicate Legal(s: State, acts: seq<Action>)
    decreases |acts|
  {
    acts != [] ==> Enabled(s, acts[0]) && Legal(Apply(s, acts[0]), acts[1..])
  }

  ghost function Run(s: State, acts: seq<Action>): State
    requires Legal(s, acts)
    decreases |acts|
  {
    if acts == [] then s else Run(Apply(s, acts[0]), acts[1..])
  }

  ghost predicate Reachable(s: State) {
    exists s0, acts :: Initial(s0) && Legal(s0, acts) && Run(s0, acts) == s
  }
}
