/**
  Two promises of the browser flow: a cooperative user is through after at
  most three visits to /authorize, with a code bound to the original request;
  and prompt=login and max_age bound the auth_time of every code issued later,
  although both parameters are dropped when the request is resumed.
 */
module BrowserTheorems {
  import opened Wrappers
  import opened Scopes
  import opened Domain
  import opened Authorize
  import opened AuthorizeQuery
  import opened TokenProtocol
  import opened BrowserFlow
  import SS = SessionStore

  // ---- resumed queries ----

  /** Dropping prompt and max_age changes nothing about the request itself, and is done after once. */
  lemma SanitizedAsksTheSame(q: Query)
    ensures ParseRequest(Sanitized(q)) == ParseRequest(q)
    ensures Sanitized(Sanitized(q)) == Sanitized(q)
    ensures Get(Sanitized(q), Prompt) == "" && Get(Sanitized(q), MaxAge) == ""
  {
  }

  /** The queries that survive a stay in the pending store. */
  predicate Carried(q: Query) { q.Keys <= PENDING_KEYS + {Prompt, MaxAge} }

  lemma ResumableExactly(q: Query)
    ensures Resumable(Sanitized(q)) <==> Carried(q)
  {
    if Resumable(Sanitized(q)) {
      forall p | p in q.Keys ensures p in PENDING_KEYS + {Prompt, MaxAge} {
        assert p in Sanitized(q).Keys || p == Prompt || p == MaxAge;
      }
    }
  }

  // ---- a cooperative user ----

  datatype User = User(username: string, password: string)

  /** Clock readings and random values of one round: a visit, and what the user does on the page it shows. */
  datatype Round = Round(now: Time, draw: Fresh, acts: Time, sessionId: SS.Id)

  /** Signs in when asked to sign in, accepts when asked to consent, follows nothing else. */
  function Cooperate(st: View, page: Response, user: User, r: Round): (View, Response) {
    match page
    case LoginPage => PostLogin(st, user.username, user.password, r.acts, r.sessionId)
    case ConsentPage => PostConsent(st, Accept, r.acts)
    case _ => (st, page)
  }

  /** One visit to /authorize and the user's reaction. */
  function Play(st: View, q: Query, user: User, r: Round): (View, Response) {
    var (st, page) := GetAuthorize(st, q, r.now, r.draw);
    Cooperate(st, page, user, r)
  }

  datatype Outcome = Outcome(st: View, response: Response, visits: nat)

  /** Follows redirects back to /authorize for as long as there are rounds. */
  function Drive(st: View, q: Query, user: User, rounds: seq<Round>): Outcome
    decreases |rounds|
  {
    if rounds == [] then Outcome(st, Resume(q), 0)
    else
      var (st, response) := Play(st, q, user, rounds[0]);
      if !response.Resume? then Outcome(st, response, 1)
      else
        var rest := Drive(st, response.query, user, rounds[1..]);
        rest.(visits := rest.visits + 1)
  }

  // ---- what holds of the site meanwhile ----

  ghost predicate CanSignIn(site: Site, user: User) {
    && user.username in site.accounts && site.accounts[user.username].password == user.password
    && site.accounts[user.username].user in site.users
  }

  /** The browser's own session, if it has a live one now, belongs to a user and lasts until the end. */
  ghost predicate Lasting(st: View, now: Time, end: Time) {
    st.jar.session != "" && SS.SessionLive(st.site.store.sessions, st.jar.session, now) ==>
      var sess := st.site.store.sessions[st.jar.session];
      sess.user in st.site.users && end <= sess.expiresAt
  }

  /** Every pause is shorter than the lifetime of a pending request, and ids are not empty. */
  ghost predicate InTime(r: Round, end: Time) {
    && r.now <= r.acts <= r.now + SS.PENDING_TTL && r.acts <= end <= r.acts + SS.SESSION_TTL
    && r.draw.id != "" && r.sessionId != ""
  }

  ghost predicate SameSite(a: Site, b: Site) {
    a.clients == b.clients && a.accounts == b.accounts && a.users == b.users
  }

  /** The request is waiting under the pending cookie. */
  ghost predicate Parked(st: View, q: Query, now: Time) {
    && st.jar.pending != "" && st.jar.pending in st.site.store.pending
    && st.site.store.pending[st.jar.pending] == SS.PendingAuthorize(Sanitized(q), now + SS.PENDING_TTL)
  }

  /** The browser is signed in and no session of its own will run out. */
  ghost predicate SignedInUntil(st: View, end: Time) {
    && st.jar.session != "" && st.jar.session in st.site.store.sessions
    && st.site.store.sessions[st.jar.session].user in st.site.users
    && end <= st.site.store.sessions[st.jar.session].expiresAt
  }

  ghost predicate Granted(st: View, req: AuthorizeRequest)
    requires st.jar.session in st.site.store.sessions
  {
    HasGrant(st.site, st.site.store.sessions[st.jar.session].user, req)
  }

  /** The code answers the original request, for the user of the browser's session and with the time of its sign-in. */
  ghost predicate Binds(st: View, response: Response, req: AuthorizeRequest) {
    && response.CodeToClient? && response.location == req.redirectURI && response.state == req.state
    && response.ac.client == ClientID(req.clientID) && response.ac.redirectURI == req.redirectURI
    && ParseAuth(req.scope) == Ok(response.ac.scope) && response.ac.nonce == req.nonce
    && response.ac.challenge == req.codeChallenge
    && st.jar.session in st.site.store.sessions
    && var sess := st.site.store.sessions[st.jar.session];
       && response.ac.user == sess.user && response.ac.authTime == Some(sess.authenticatedAt)
       && Consent(sess.user, response.ac.client, response.ac.scope.value) in st.site.consents
  }

  // ---- single visits ----

  /** With a fresh sign-in and no prompt, a visit ends in a code or asks for consent. */
  lemma VisitSignedIn(st: View, q: Query, r: Round, end: Time)
    requires Validate(st.site.clients, ParseRequest(q)).error.None?
    requires SignedInUntil(st, end) && InTime(r, end)
    requires Get(q, Prompt) == "" && Get(q, MaxAge) == ""
    ensures var (st', page) := GetAuthorize(st, q, r.now, r.draw);
            && SameSite(st.site, st'.site) && SignedInUntil(st', end)
            && (if Granted(st, ParseRequest(q)) then Binds(st', page, ParseRequest(q))
                else page == ConsentPage && Parked(st', q, r.now) && st'.jar.session == st.jar.session)
  {
    hide Validate, ParseAuth, ParseRequest;
    AcceptedScopeIsAllowed(st.site.clients, ParseRequest(q));
  }

  /** Accepting records the consent and resumes the request, unless it cannot be resumed. */
  lemma AcceptResumes(st: View, q: Query, now: Time, acts: Time, end: Time)
    requires Validate(st.site.clients, ParseRequest(q)).error.None?
    requires SignedInUntil(st, end) && Parked(st, q, now) && now <= acts <= now + SS.PENDING_TTL && acts <= end
    ensures var (st', response) := PostConsent(st, Accept, acts);
            && SameSite(st.site, st'.site) && SignedInUntil(st', end) && st'.jar.session == st.jar.session
            && Granted(st', ParseRequest(q))
            && response == if Carried(q) then Resume(Sanitized(q)) else BadRequest
  {
    hide Validate, ParseAuth, NormalizeScope, ParseRequest, Sanitized, Resumable, Carried;
    SanitizedAsksTheSame(q);
    ResumableExactly(q);
    AcceptedNormalizes(st.site.clients, ParseRequest(q));
  }

  /** Signing in resumes the request with a session of the right length, unless it cannot be resumed. */
  lemma LoginResumes(st: View, q: Query, user: User, r: Round, end: Time)
    requires CanSignIn(st.site, user) && Parked(st, q, r.now) && InTime(r, end)
    ensures var (st', response) := PostLogin(st, user.username, user.password, r.acts, r.sessionId);
            && SameSite(st.site, st'.site) && SignedInUntil(st', end)
            && response == if Carried(q) then Resume(Sanitized(q)) else SignedIn
  {
    hide Sanitized, Resumable, Carried;
    ResumableExactly(q);
  }

  // ---- the rounds ----

  /** Where a round may leave the flow. */
  ghost predicate RoundEnds(q: Query, st: View, response: Response, end: Time) {
    || Binds(st, response, ParseRequest(q))
    || (!Carried(q) && (response == SignedIn || response == BadRequest))
    || (Carried(q) && response == Resume(Sanitized(q)) && SignedInUntil(st, end))
  }

  /** A round of a signed-in browser: a code, or consent and on to a visit that has it. */
  lemma SignedInRound(st: View, q: Query, user: User, r: Round, end: Time)
    requires Validate(st.site.clients, ParseRequest(q)).error.None?
    requires SignedInUntil(st, end) && InTime(r, end)
    requires Get(q, Prompt) == "" && Get(q, MaxAge) == ""
    ensures var (st', response) := Play(st, q, user, r);
            && SameSite(st.site, st'.site) && RoundEnds(q, st', response, end)
            && (Granted(st, ParseRequest(q)) ==> Binds(st', response, ParseRequest(q)))
            && (response.Resume? ==> Granted(st', ParseRequest(q)))
  {
    hide Validate, GetAuthorize, PostConsent, PostLogin, ParseRequest, Sanitized, Carried, HasGrant;
    VisitSignedIn(st, q, r, end);
    var (st1, page) := GetAuthorize(st, q, r.now, r.draw);
    if page.ConsentPage? { AcceptResumes(st1, q, r.now, r.acts, end); }
  }

  /** From the second visit on the browser is signed in: two more rounds are enough. */
  lemma SignedInFinishes(st: View, q: Query, user: User, rounds: seq<Round>, end: Time)
    requires Validate(st.site.clients, ParseRequest(q)).error.None?
    requires SignedInUntil(st, end) && |rounds| >= 2 && (forall i :: 0 <= i < |rounds| ==> InTime(rounds[i], end))
    requires Get(q, Prompt) == "" && Get(q, MaxAge) == "" && Sanitized(q) == q && Carried(q)
    ensures var out := Drive(st, q, user, rounds); Binds(out.st, out.response, ParseRequest(q)) && out.visits <= 2
  {
    hide Validate, ParseRequest, Play, Sanitized, Carried, Binds, HasGrant;
    assert forall st, response :: Binds(st, response, ParseRequest(q)) ==> !response.Resume? by { BindsIsFinal(ParseRequest(q)); }
    SignedInRound(st, q, user, rounds[0], end);
    var (st1, response) := Play(st, q, user, rounds[0]);
    if response.Resume? {
      SignedInRound(st1, q, user, rounds[1], end);
      assert rounds[1..][0] == rounds[1] && response.query == q;
      var (st2, response2) := Play(st1, q, user, rounds[1]);
      assert Binds(st2, response2, ParseRequest(q)) && !response2.Resume?;
      assert Drive(st1, q, user, rounds[1..]) == Outcome(st2, response2, 1);
    }
  }

  lemma BindsIsFinal(req: AuthorizeRequest)
    ensures forall st, response :: Binds(st, response, req) ==> !response.Resume?
  {
  }

  /** The first visit: straight to a code, or to the login or consent page with the request parked. */
  lemma FirstVisit(st: View, q: Query, r: Round, end: Time)
    requires Validate(st.site.clients, ParseRequest(q)).error.None?
    requires Lasting(st, r.now, end) && InTime(r, end) && Get(q, Prompt) != "none"
    ensures var (st', page) := GetAuthorize(st, q, r.now, r.draw);
            && SameSite(st.site, st'.site)
            && (|| Binds(st', page, ParseRequest(q))
                || (page == LoginPage && Parked(st', q, r.now))
                || (page == ConsentPage && Parked(st', q, r.now) && SignedInUntil(st', end)))
  {
    hide Validate, ParseAuth, ParseRequest, TooOld;
    AcceptedScopeIsAllowed(st.site.clients, ParseRequest(q));
  }

  lemma FirstRound(st: View, q: Query, user: User, r: Round, end: Time)
    requires Validate(st.site.clients, ParseRequest(q)).error.None? && CanSignIn(st.site, user)
    requires Lasting(st, r.now, end) && InTime(r, end) && Get(q, Prompt) != "none"
    ensures var (st', response) := Play(st, q, user, r);
            && SameSite(st.site, st'.site) && RoundEnds(q, st', response, end)
            && (!Carried(q) ==> (Binds(st', response, ParseRequest(q)) <==> GetAuthorize(st, q, r.now, r.draw).1.CodeToClient?))
  {
    hide Validate, GetAuthorize, PostConsent, PostLogin, ParseRequest, Sanitized, Carried, HasGrant;
    FirstVisit(st, q, r, end);
    var (st1, page) := GetAuthorize(st, q, r.now, r.draw);
    if page.ConsentPage? { AcceptResumes(st1, q, r.now, r.acts, end); }
    if page.LoginPage? { LoginResumes(st1, q, user, r, end); }
  }

  /** A valid request other than prompt=none, driven by a user who signs in and accepts in time, ends in out. */
  ghost predicate FlowRuns(st: View, q: Query, user: User, rounds: seq<Round>, end: Time, out: Outcome) {
    && Validate(st.site.clients, ParseRequest(q)).error.None? && CanSignIn(st.site, user)
    && |rounds| >= 3 && Lasting(st, rounds[0].now, end) && Get(q, Prompt) != "none"
    && (forall i :: 0 <= i < |rounds| ==> InTime(rounds[i], end))
    && out == Drive(st, q, user, rounds)
  }

  /** Nothing is missing: a live session that prompt and max_age accept, of an existing user who has consented. */
  predicate NeedsNoPage(st: View, q: Query, now: Time) {
    var found := FindSession(st, now).1;
    && found.Some? && Get(q, Prompt) != "login" && !TooOld(q, found.value, now)
    && found.value.user in st.site.users && HasGrant(st.site, found.value.user, ParseRequest(q))
  }

  /** A visit is answered with a code at once exactly if nothing is missing. */
  lemma CodeAtOnceExactly(st: View, q: Query, now: Time, draw: Fresh)
    requires Validate(st.site.clients, ParseRequest(q)).error.None?
    ensures GetAuthorize(st, q, now, draw).1.CodeToClient? <==> NeedsNoPage(st, q, now)
  {
    hide Validate, NormalizeScope, ParseAuth, ParseRequest, ScanMaxAge;
    AcceptedScopeIsAllowed(st.site.clients, ParseRequest(q));
  }

  /**
    The flow ends after at most three visits. It ends with a code bound to the
    original client, redirect URI, scope, nonce and challenge, the state
    echoed, exactly if the request's parameters are among those that survive
    in the pending store, or session, age, owner and consent leave no page to
    show. Otherwise it is stranded on the signed-in page or refused after
    consent.
   */
  lemma FlowEndsWithCode(st: View, q: Query, user: User, rounds: seq<Round>, end: Time, out: Outcome)
    requires FlowRuns(st, q, user, rounds, end, out)
    ensures out.visits <= 3
    ensures Carried(q) || NeedsNoPage(st, q, rounds[0].now) <==> Binds(out.st, out.response, ParseRequest(q))
    ensures !Binds(out.st, out.response, ParseRequest(q)) ==> out.response == SignedIn || out.response == BadRequest
  {
    hide Validate, ParseRequest, Play, Sanitized, Carried, Binds, GetAuthorize, SignedInUntil, NeedsNoPage;
    var req := ParseRequest(q);
    CodeAtOnceExactly(st, q, rounds[0].now, rounds[0].draw);
    BindsIsFinal(req);
    FirstRound(st, q, user, rounds[0], end);
    var (st1, response) := Play(st, q, user, rounds[0]);
    if response.Resume? {
      SanitizedAsksTheSame(q);
      SanitizedIsCarried(q);
      SignedInFinishes(st1, Sanitized(q), user, rounds[1..], end);
    } else if Carried(q) && NeedsNoPage(st, q, rounds[0].now) {
      assert Binds(st1, response, req);
    }
  }

  lemma SanitizedIsCarried(q: Query)
    requires Carried(q)
    ensures Carried(Sanitized(q))
  {
  }

  /** For instance ui_locales, which OpenID Connect Core section 3.1.2.1 allows, strands the sign-in. */
  lemma UnknownParameterStrandsSignIn(st: View, user: User, r: Round, end: Time, q: Query)
    requires Other("ui_locales") in q
    requires CanSignIn(st.site, user) && Parked(st, q, r.now) && InTime(r, end)
    ensures PostLogin(st, user.username, user.password, r.acts, r.sessionId).1 == SignedIn
  {
    hide Sanitized, Resumable;
    assert Other("ui_locales") !in PENDING_KEYS + {Prompt, MaxAge};
    LoginResumes(st, q, user, r, end);
  }

  /** prompt=none never shows a page: it answers the client at once, and with a code exactly when nothing is missing. */
  lemma PromptNoneNeverInteracts(st: View, q: Query, now: Time, draw: Fresh)
    requires Validate(st.site.clients, ParseRequest(q)).error.None? && Get(q, Prompt) == "none"
    ensures var found, (st', page) := FindSession(st, now).1, GetAuthorize(st, q, now, draw);
            && (page.CodeToClient? <==>
                  && found.Some? && !TooOld(q, found.value, now) && found.value.user in st.site.users
                  && HasGrant(st.site, found.value.user, ParseRequest(q)))
            && (page.CodeToClient? || page.BackToClient? || page == ServerError)
            && (page == ServerError ==> found.Some? && found.value.user !in st.site.users)
            && (found.None? ==> page == BackToClient(ParseRequest(q).redirectURI, "login_required", ParseRequest(q).state))
            && st'.jar.pending == st.jar.pending
  {
    hide Validate, NormalizeScope, ParseAuth, ParseRequest, ScanMaxAge;
    AcceptedScopeIsAllowed(st.site.clients, ParseRequest(q));
  }

  /** Denying grants nothing, uses the pending request up, and tells only a registered redirect URI. */
  lemma DenialLeavesNothing(st: View, now: Time)
    ensures var (st', page) := PostConsent(st, Deny, now);
            && st'.site.consents == st.site.consents && st'.site.issued == st.site.issued
            && (page.ErrorReportPage? && page.report.ErrorRedirect? ==>
                  && page.report.code == "access_denied" && st'.jar.pending == ""
                  && st.jar.pending in st.site.store.pending && st.jar.pending !in st'.site.store.pending
                  && var req := ParseRequest(st.site.store.pending[st.jar.pending].rawQuery);
                     && ClientID(req.clientID) in st.site.clients && page.report.state == req.state
                     && page.report.location in st.site.clients[ClientID(req.clientID)].redirectURIs)
  {
    hide NormalizeScope, ParseAuth, ParseRequest, CheckParameters;
  }

  // ---- auth_time ----

  /** Wrap-around of a Duration, the 64-bit value congruent to it, only ever shortens the age max_age allows. */
  lemma WrapOnlyTightens(x: nat)
    ensures Wrap64(x) <= x
    ensures x <= MAX_INT64 ==> Wrap64(x) == x
    ensures -MAX_INT64 - 1 <= Wrap64(x) <= MAX_INT64 && exists k: nat :: x == Wrap64(x) + k * 0x1_0000_0000_0000_0000
  {
    var k := (x + MAX_INT64 + 1) / TWO_TO_THE_64;
    assert x == Wrap64(x) + k * 0x1_0000_0000_0000_0000;
  }

  /** Anything this browser may do, and anything done elsewhere on the site. */
  datatype Event =
    | Visit(q: Query, now: Time, draw: Fresh)
    | SignIn(username: string, password: string, now: Time, id: SS.Id)
    | Consents(choice: Choice, now: Time)
    | Logout
    | Elsewhere(site: Site)

  function Next(st: View, e: Event): View {
    match e
    case Visit(q, now, draw) => GetAuthorize(st, q, now, draw).0
    case SignIn(username, password, now, id) => PostLogin(st, username, password, now, id).0
    case Consents(choice, now) => PostConsent(st, choice, now).0
    case Logout => SignOut(st)
    case Elsewhere(site) => st.(site := site)
  }

  /**
    Elsewhere may change everything except what only this browser's requests
    can: the codes issued to it, and, ids being random, the session its cookie
    names, which may only disappear.
   */
  ghost predicate Allowed(st: View, e: Event, now: Time) {
    match e
    case Visit(_, t, _) => now <= t
    case SignIn(_, _, t, _) => now <= t
    case Consents(_, t) => now <= t
    case Logout => true
    case Elsewhere(site) =>
      && site.issued == st.site.issued
      && (st.jar.session in site.store.sessions ==>
            st.jar.session in st.site.store.sessions
            && site.store.sessions[st.jar.session] == st.site.store.sessions[st.jar.session])
  }

  ghost predicate AllowedRun(st: View, events: seq<Event>, now: Time)
    decreases |events|
  {
    events != [] ==> Allowed(st, events[0], now) && AllowedRun(Next(st, events[0]), events[1..], now)
  }

  function After(st: View, events: seq<Event>): View
    decreases |events|
  {
    if events == [] then st else After(Next(st, events[0]), events[1..])
  }

  /** The session the browser's cookie names, if there is one, was signed in no earlier than bound. */
  ghost predicate Since(st: View, bound: Time) {
    st.jar.session != "" && st.jar.session in st.site.store.sessions ==>
      bound <= st.site.store.sessions[st.jar.session].authenticatedAt
  }

  /** All codes after the first n have an auth_time no earlier than bound. */
  ghost predicate CodesSince(st: View, n: nat, bound: Time) {
    && n <= |st.site.issued|
    && forall i :: n <= i < |st.site.issued| ==>
         st.site.issued[i].authTime.Some? && bound <= st.site.issued[i].authTime.value
  }

  lemma VisitKeepsSince(st: View, q: Query, now: Time, draw: Fresh, n: nat, bound: Time)
    requires Since(st, bound) && CodesSince(st, n, bound)
    ensures var st' := GetAuthorize(st, q, now, draw).0; Since(st', bound) && CodesSince(st', n, bound)
  {
    hide Validate, NormalizeScope, ParseAuth, ParseRequest, TooOld, WriteError, HasGrant;
    if Validate(st.site.clients, ParseRequest(q)).error.None? { AcceptedScopeIsAllowed(st.site.clients, ParseRequest(q)); }
  }

  lemma ConsentKeepsSince(st: View, choice: Choice, now: Time, n: nat, bound: Time)
    requires Since(st, bound) && CodesSince(st, n, bound)
    ensures var st' := PostConsent(st, choice, now).0; Since(st', bound) && CodesSince(st', n, bound)
  {
    hide Validate, NormalizeScope, ParseAuth, ParseRequest, WriteError, Resumable, CodesSince;
    assert PostConsent(st, choice, now).0.site.issued == st.site.issued;
    assert CodesSince(PostConsent(st, choice, now).0, n, bound) by { SameCodes(st, PostConsent(st, choice, now).0, n, bound); }
  }

  lemma SameCodes(st: View, st': View, n: nat, bound: Time)
    requires CodesSince(st, n, bound) && st'.site.issued == st.site.issued
    ensures CodesSince(st', n, bound)
  {
  }

  lemma EventKeepsSince(st: View, e: Event, now: Time, n: nat, bound: Time)
    requires Allowed(st, e, now) && bound <= now
    requires Since(st, bound) && CodesSince(st, n, bound)
    ensures Since(Next(st, e), bound) && CodesSince(Next(st, e), n, bound)
  {
    hide GetAuthorize, PostConsent;
    match e {
      case Visit(q, t, draw) => VisitKeepsSince(st, q, t, draw, n, bound);
      case Consents(choice, t) => ConsentKeepsSince(st, choice, t, n, bound);
      case _ =>
    }
  }

  lemma {:induction false} RunKeepsSince(st: View, events: seq<Event>, now: Time, n: nat, bound: Time)
    requires AllowedRun(st, events, now) && bound <= now
    requires Since(st, bound) && CodesSince(st, n, bound)
    ensures CodesSince(After(st, events), n, bound)
    decreases |events|
  {
    hide Next, Allowed, Since, CodesSince;
    if events != [] {
      EventKeepsSince(st, events[0], now, n, bound);
      RunKeepsSince(Next(st, events[0]), events[1..], now, n, bound);
    }
  }

  /** The earliest sign-in a request asks for: now under prompt=login, max_age seconds ago, or none. */
  function EarliestSignIn(q: Query, now: Time): Option<Time> {
    var maxAge := ScanMaxAge(Get(q, MaxAge));
    if Get(q, Prompt) == "login" then Some(now)
    else if maxAge.Some? then Some(now - maxAge.value * SECOND)
    else None
  }

  lemma VisitEstablishesSince(st: View, q: Query, t0: Time, draw: Fresh)
    requires Validate(st.site.clients, ParseRequest(q)).error.None? && EarliestSignIn(q, t0).Some?
    ensures var st', bound := GetAuthorize(st, q, t0, draw).0, EarliestSignIn(q, t0).value;
            && bound <= t0 && Since(st', bound) && CodesSince(st', |st.site.issued|, bound)
  {
    hide Validate, NormalizeScope, ParseAuth, ParseRequest, ScanMaxAge, HasGrant, Wrap64;
    AcceptedScopeIsAllowed(st.site.clients, ParseRequest(q));
    var maxAge := ScanMaxAge(Get(q, MaxAge));
    if maxAge.Some? { WrapOnlyTightens(maxAge.value * SECOND); }
  }

  /**
    Freshness. After a valid visit at t0 with prompt=login, every code this
    browser is given from then on has auth_time at least t0; with max_age=m,
    for every m an int64 can hold, at least t0 - m seconds. That holds
    whatever the browser and the rest of the site do in between.
   */
  lemma AuthTimeIsFresh(st: View, q: Query, t0: Time, draw: Fresh, events: seq<Event>)
    requires Validate(st.site.clients, ParseRequest(q)).error.None? && EarliestSignIn(q, t0).Some?
    requires AllowedRun(GetAuthorize(st, q, t0, draw).0, events, t0)
    ensures CodesSince(After(GetAuthorize(st, q, t0, draw).0, events), |st.site.issued|, EarliestSignIn(q, t0).value)
  {
    hide GetAuthorize, Validate, ParseRequest, EarliestSignIn;
    VisitEstablishesSince(st, q, t0, draw);
    RunKeepsSince(GetAuthorize(st, q, t0, draw).0, events, t0, |st.site.issued|, EarliestSignIn(q, t0).value);
  }
}
