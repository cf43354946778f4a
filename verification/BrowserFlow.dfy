/**
  The browser side of the authorization server: GET /authorize with prompt
  and max_age, POST /login, POST /consent, and the session and pending cookies
  that carry a request through them. A handler and the cookie changes in its
  response are one step.
 */
module BrowserFlow {
  import opened Wrappers
  import opened Scopes
  import opened Domain
  import opened Authorize
  import opened TokenProtocol
  import opened AuthorizeQuery
  import SS = SessionStore

  /** time.Since(AuthenticatedAt) > time.Duration(maxAge)*time.Second. */
  predicate TooOld(q: Query, sess: SS.Session, now: Time) {
    var maxAge := ScanMaxAge(Get(q, MaxAge));
    maxAge.Some? && now - sess.authenticatedAt > Wrap64(maxAge.value * SECOND)
  }

  // ---- the site and a browser ----

  datatype Account = Account(user: UserID, password: string)

  datatype Site = Site(
    clients: Clients,
    accounts: map<string, Account>,
    users: set<UserID>,
    consents: set<Consent>,
    store: SS.Store,
    issued: seq<AuthorizationCode>
  )

  /** The two cookies of a browser; "" when a cookie is absent. */
  datatype Jar = Jar(session: SS.Id, pending: SS.Id)

  datatype Response =
    | ErrorReportPage(report: ErrorReport)
    | BackToClient(location: string, error: string, state: string)
    | CodeToClient(location: string, ac: AuthorizationCode, state: string)
    | LoginPage
    | ConsentPage
    | Resume(query: Query)
    | LoginForm
    | SignedIn
    | BadRequest
    | ServerError

  /** Random values of one request: a pending or session id, and a code. */
  datatype Fresh = Fresh(id: SS.Id, code: Code)

  // ---- GET /authorize ----

  /** The site as one browser meets it. */
  datatype View = View(site: Site, jar: Jar)

  function FindSession(st: View, now: Time): (View, Option<SS.Session>) {
    if st.jar.session == "" then (st, None)
    else
      var (store, answer) := SS.Evicting(st.site.store, SS.FindSession(st.jar.session, now));
      (st.(site := st.site.(store := store)), if answer.TheSession? then Some(answer.session) else None)
  }

  /** Logout and clearSessionCookie. */
  function SignOut(st: View): View {
    st.(site := st.site.(store := SS.Evicting(st.site.store, SS.DeleteSession(st.jar.session)).0),
        jar := st.jar.(session := ""))
  }

  /** SavePendingAuthorize, setPendingCookie, redirect. */
  function Park(st: View, q: Query, id: SS.Id, now: Time, page: Response): (View, Response) {
    var store := SS.Evicting(st.site.store, SS.SavePending(id, Sanitized(q), now, SS.PENDING_TTL)).0;
    (st.(site := st.site.(store := store), jar := st.jar.(pending := id)), page)
  }

  predicate HasGrant(site: Site, owner: UserID, req: AuthorizeRequest) {
    NormalizeScope(req.scope).Ok?
    && Consent(owner, ClientID(req.clientID), NormalizeScope(req.scope).value) in site.consents
  }

  /** The end of the handler, once the session has passed prompt and max_age. */
  function WithSession(st: View, q: Query, sess: SS.Session, now: Time, draw: Fresh): (View, Response)
    requires Validate(st.site.clients, ParseRequest(q)).error.None?
  {
    var req := ParseRequest(q);
    AcceptedScopeIsAllowed(st.site.clients, req);
    if sess.user !in st.site.users then (st, ServerError)
    else if !HasGrant(st.site, sess.user, req) then
      if Get(q, Prompt) == "none" then (st, BackToClient(req.redirectURI, "consent_required", req.state))
      else Park(st, q, draw.id, now, ConsentPage)
    else
      var ac := MintCode(draw.code, sess.user, req, Some(sess.authenticatedAt), now);
      (st.(site := st.site.(issued := st.site.issued + [ac])), CodeToClient(req.redirectURI, ac, req.state))
  }

  function GetAuthorize(st: View, q: Query, now: Time, draw: Fresh): (View, Response) {
    var req := ParseRequest(q);
    var verdict := Validate(st.site.clients, req);
    if verdict.error.Some? then (st, ErrorReportPage(WriteError(verdict.redirectURI, req.state, verdict.error.value)))
    else
      var prompt := Get(q, Prompt);
      var (st, found) := FindSession(st, now);
      match found
      case None =>
        if prompt == "none" then (st, BackToClient(req.redirectURI, "login_required", req.state))
        else Park(st, q, draw.id, now, LoginPage)
      case Some(sess) =>
        if prompt == "login" then Park(SignOut(st), q, draw.id, now, LoginPage)
        else if !TooOld(q, sess, now) then WithSession(st, q, sess, now, draw)
        else if prompt == "none" then (SignOut(st), BackToClient(req.redirectURI, "login_required", req.state))
        else Park(SignOut(st), q, draw.id, now, LoginPage)
  }

  // ---- POST /login ----

  /** ConsumePendingAuthorize under the pending cookie, and clearPendingCookie. */
  function TakePending(st: View, now: Time): (View, Option<Query>) {
    var id := st.jar.pending;
    var (store, answer) := SS.Evicting(st.site.store, SS.ConsumePending(id, now));
    (st.(site := st.site.(store := store), jar := st.jar.(pending := "")),
     if answer.ThePending? then Some(answer.pending.rawQuery) else None)
  }

  function PostLogin(st: View, username: string, password: string, now: Time, id: SS.Id): (View, Response) {
    if username !in st.site.accounts || st.site.accounts[username].password != password then (st, LoginForm)
    else
      var store := SS.Evicting(st.site.store, SS.CreateSession(id, st.site.accounts[username].user, now, SS.SESSION_TTL)).0;
      var st := st.(site := st.site.(store := store), jar := st.jar.(session := id));
      if st.jar.pending == "" then (st, SignedIn)
      else
        var (st, query) := TakePending(st, now);
        if query.Some? && Resumable(query.value) then (st, Resume(query.value)) else (st, SignedIn)
  }

  // ---- POST /consent ----

  datatype Choice = Accept | Deny | Neither

  /** consentService.Grant. */
  function Grant(st: View, owner: UserID, req: AuthorizeRequest): View
    requires NormalizeScope(req.scope).Ok?
  {
    st.(site := st.site.(consents := st.site.consents + {Consent(owner, ClientID(req.clientID), NormalizeScope(req.scope).value)}))
  }

  function PeekPending(st: View, now: Time): (View, Option<Query>) {
    var id := st.jar.pending;
    var (store, answer) := SS.Evicting(st.site.store, SS.FindPending(id, now));
    (st.(site := st.site.(store := store)),
     if answer.ThePending? then Some(answer.pending.rawQuery) else None)
  }

  function PostConsent(st: View, choice: Choice, now: Time): (View, Response) {
    var (st, found) := FindSession(st, now);
    if found.None? then (st, LoginPage)
    else if found.value.user !in st.site.users then (st, ServerError)
    else if st.jar.pending == "" then (st, BadRequest)
    else
      var (st, query) := PeekPending(st, now);
      if query.None? then (st, BadRequest)
      else
        var req := ParseRequest(query.value);
        var verdict := Validate(st.site.clients, req);
        if verdict.error.Some? then (st, ErrorReportPage(WriteError(None, req.state, verdict.error.value)))
        else
          match choice
          case Neither => (st, BadRequest)
          case Deny =>
            (TakePending(st, now).0, ErrorReportPage(WriteError(verdict.redirectURI, req.state, AccessDenied)))
          case Accept =>
            AcceptedScopeIsAllowed(st.site.clients, req);
            var st := Grant(st, found.value.user, req);
            var (st, query) := TakePending(st, now);
            if query.Some? && Resumable(query.value) then (st, Resume(query.value)) else (st, BadRequest)
  }

  // ---- the handlers as they run ----

  class Handlers {
    var clients: Clients
    var accounts: map<string, Account>
    var users: set<UserID>
    var consents: set<Consent>
    var issued: seq<AuthorizationCode>
    const sessions: SS.IdPSessionStore

    constructor (clients: Clients, accounts: map<string, Account>, users: set<UserID>, sessions: SS.IdPSessionStore)
      ensures this.sessions == sessions
      ensures SiteNow() == Site(clients, accounts, users, {}, sessions.View(), [])
    {
      this.clients, this.accounts, this.users, this.sessions := clients, accounts, users, sessions;
      consents, issued := {}, [];
    }

    ghost function SiteNow(): Site
      reads this, sessions
    {
      Site(clients, accounts, users, consents, sessions.View(), issued)
    }

    ghost function Meets(jar: Jar): View
      reads this, sessions
    {
      View(SiteNow(), jar)
    }

    method ReadSession(jar: Jar, now: Time) returns (sess: Option<SS.Session>)
      modifies this, sessions
      ensures (Meets(jar), sess) == FindSession(old(Meets(jar)), now)
    {
      sess := None;
      if jar.session != "" { sess := sessions.Find(jar.session, now); }
    }

    method ParkRequest(jar: Jar, q: Query, id: SS.Id, now: Time) returns (jar': Jar)
      modifies this, sessions
      ensures forall page :: (Meets(jar'), page) == Park(old(Meets(jar)), q, id, now, page)
    {
      var _ := sessions.SavePendingAuthorize(id, Sanitized(q), now, SS.PENDING_TTL);
      jar' := jar.(pending := id);
    }

    /** authorizeHandler.handle; noSession starts from the lookup and turns true when max_age is exceeded. */
    method Authorize(jar: Jar, q: Query, now: Time, draw: Fresh) returns (jar': Jar, page: Response)
      modifies this, sessions
      ensures (Meets(jar'), page) == GetAuthorize(old(Meets(jar)), q, now, draw)
    {
      hide Validate, NormalizeScope, ParseAuth, ScanMaxAge, WriteError;
      jar' := jar;
      var req := ParseRequest(q);
      var prompt := Get(q, Prompt);
      var verdict := Validate(clients, req);
      if verdict.error.Some? {
        return jar, ErrorReportPage(WriteError(verdict.redirectURI, req.state, verdict.error.value));
      }
      var sess := ReadSession(jar, now);
      var noSession := sess.None?;
      if prompt == "none" && noSession {
        return jar, BackToClient(req.redirectURI, "login_required", req.state);
      }
      if prompt == "login" && !noSession {
        sessions.Delete(jar.session);
        jar' := ParkRequest(jar.(session := ""), q, draw.id, now);
        return jar', LoginPage;
      }
      if !noSession && TooOld(q, sess.value, now) {
        sessions.Delete(jar.session);
        jar' := jar.(session := "");
        if prompt == "none" { return jar', BackToClient(req.redirectURI, "login_required", req.state); }
        noSession := true;
      }
      if noSession {
        jar' := ParkRequest(jar', q, draw.id, now);
        return jar', LoginPage;
      }
      AcceptedScopeIsAllowed(clients, req);
      if sess.value.user !in users { return jar, ServerError; }
      if !HasGrant(SiteValue(), sess.value.user, req) {
        if prompt == "none" { return jar, BackToClient(req.redirectURI, "consent_required", req.state); }
        jar' := ParkRequest(jar, q, draw.id, now);
        return jar', ConsentPage;
      }
      var ac := MintCode(draw.code, sess.value.user, req, Some(sess.value.authenticatedAt), now);
      issued := issued + [ac];
      page := CodeToClient(req.redirectURI, ac, req.state);
    }

    function SiteValue(): (site: Site)
      reads this, sessions
      ensures site == SiteNow()
    {
      Site(clients, accounts, users, consents, SS.Store(sessions.sessions, sessions.pending), issued)
    }

    method TakePendingQuery(jar: Jar, now: Time) returns (jar': Jar, query: Option<Query>)
      modifies this, sessions
      ensures (Meets(jar'), query) == TakePending(old(Meets(jar)), now)
    {
      var p := sessions.ConsumePendingAuthorize(jar.pending, now);
      jar' := jar.(pending := "");
      query := if p.Some? then Some(p.value.rawQuery) else None;
    }

    /** loginHandler.handlePost: the session first, then the pending request. */
    method Login(jar: Jar, username: string, password: string, now: Time, id: SS.Id) returns (jar': Jar, page: Response)
      modifies this, sessions
      ensures (Meets(jar'), page) == PostLogin(old(Meets(jar)), username, password, now, id)
    {
      if username !in accounts || accounts[username].password != password { return jar, LoginForm; }
      var sess := sessions.Create(id, accounts[username].user, now, SS.SESSION_TTL);
      jar' := jar.(session := id);
      if jar'.pending != "" {
        var query;
        jar', query := TakePendingQuery(jar', now);
        if query.Some? && Resumable(query.value) { return jar', Resume(query.value); }
      }
      page := SignedIn;
    }

    /** consentHandler.handlePost. */
    method ConsentTo(jar: Jar, choice: Choice, now: Time) returns (jar': Jar, page: Response)
      modifies this, sessions
      ensures (Meets(jar'), page) == PostConsent(old(Meets(jar)), choice, now)
    {
      hide Validate, NormalizeScope, ParseAuth, WriteError;
      jar' := jar;
      var sess := ReadSession(jar, now);
      if sess.None? { return jar, LoginPage; }
      if sess.value.user !in users { return jar, ServerError; }
      if jar.pending == "" { return jar, BadRequest; }
      var p := sessions.FindPendingAuthorize(jar.pending, now);
      if p.None? { return jar, BadRequest; }
      var req := ParseRequest(p.value.rawQuery);
      var verdict := Validate(clients, req);
      if verdict.error.Some? { return jar, ErrorReportPage(WriteError(None, req.state, verdict.error.value)); }
      var query;
      match choice {
        case Neither => page := BadRequest;
        case Deny =>
          jar', query := TakePendingQuery(jar, now);
          page := ErrorReportPage(WriteError(verdict.redirectURI, req.state, AccessDenied));
        case Accept =>
          AcceptedNormalizes(clients, req);
          consents := consents + {Consent(sess.value.user, ClientID(req.clientID), NormalizeScope(req.scope).value)};
          jar', query := TakePendingQuery(jar, now);
          page := if query.Some? && Resumable(query.value) then Resume(query.value) else BadRequest;
      }
    }
  }
}
