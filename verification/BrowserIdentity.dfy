/**
  Whom a code names. Over any run of a browser and the rest of the site, every
  code the browser is given is for the user whose password was posted in the
  sign-in its cookie stands for, with the time of that sign-in, and for a
  client and scope that user has consented to.
 */
module BrowserIdentity {
  import opened Wrappers
  import opened Scopes
  import opened Domain
  import opened Authorize
  import opened AuthorizeQuery
  import opened TokenProtocol
  import opened BrowserFlow
  import opened BrowserTheorems
  import SS = SessionStore

  // ---- runs, from their end ----

  lemma {:induction false} LastEvent(st: View, events: seq<Event>, now: Time)
    requires AllowedRun(st, events, now) && events != []
    ensures var n := |events| - 1;
            && AllowedRun(st, events[..n], now) && Allowed(After(st, events[..n]), events[n], now)
            && After(st, events) == Next(After(st, events[..n]), events[n])
    decreases |events|
  {
    hide Allowed, Next;
    var n := |events| - 1;
    if n == 0 {
      assert events[..0] == [] && events[1..] == [];
    } else {
      LastEvent(Next(st, events[0]), events[1..], now);
      assert events[..n][1..] == events[1..][..n - 1];
    }
  }

  // ---- sign-ins, by the events alone ----

  /** The i-th event posts a user name with the password its account has at that time. */
  ghost predicate PostsPassword(st: View, events: seq<Event>, i: nat)
    requires i < |events|
  {
    && events[i].SignIn?
    && var accounts := After(st, events[..i]).site.accounts;
       events[i].username in accounts && accounts[events[i].username].password == events[i].password
  }

  /** The user of that account. */
  ghost function Poster(st: View, events: seq<Event>, i: nat): UserID
    requires i < |events| && PostsPassword(st, events, i)
  {
    After(st, events[..i]).site.accounts[events[i].username].user
  }

  /** The i-th event is the last sign-in among the first n, and no logout comes after it. */
  ghost predicate SignedInAt(st: View, events: seq<Event>, i: nat, n: nat)
    requires n <= |events|
  {
    && i < n && PostsPassword(st, events, i)
    && forall k :: i < k < n ==> !PostsPassword(st, events, k) && !events[k].Logout?
  }

  /** What the cookie stands for after n events: nothing, or the session of the last sign-in. */
  ghost predicate CookieStands(st: View, events: seq<Event>, n: nat)
    requires n <= |events|
  {
    var st' := After(st, events[..n]);
    st'.jar.session != "" ==>
      exists i: nat :: SignedInAt(st, events, i, n) && StandsFor(st', events[i], Poster(st, events, i))
  }

  /** The session under the cookie, if it is still there, is the one e created for user: a day long from e. */
  ghost predicate StandsFor(st: View, e: Event, user: UserID) {
    && e.SignIn? && st.jar.session == e.id
    && (st.jar.session in st.site.store.sessions ==>
          st.site.store.sessions[st.jar.session] == SS.Session(user, e.now, e.now + 24 * HOUR))
  }

  /** Events that are no successful sign-in leave the cookie and its session, or drop them. */
  lemma OthersKeepSession(st: View, e: Event, now: Time)
    requires Allowed(st, e, now)
    requires e.SignIn? ==> !(e.username in st.site.accounts && st.site.accounts[e.username].password == e.password)
    ensures var st' := Next(st, e);
            st'.jar.session != "" ==>
              && st'.jar.session == st.jar.session && !e.Logout?
              && (st'.jar.session in st'.site.store.sessions ==>
                    && st'.jar.session in st.site.store.sessions
                    && st'.site.store.sessions[st'.jar.session] == st.site.store.sessions[st'.jar.session])
  {
    hide GetAuthorize, PostConsent;
    match e {
      case Visit(q, t, draw) => VisitKeepsSession(st, q, t, draw);
      case Consents(choice, t) => ConsentKeepsSession(st, choice, t);
      case _ =>
    }
  }

  lemma VisitKeepsSession(st: View, q: Query, now: Time, draw: Fresh)
    ensures var st' := GetAuthorize(st, q, now, draw).0;
            st'.jar.session != "" ==>
              && st'.jar.session == st.jar.session
              && (st'.jar.session in st'.site.store.sessions ==>
                    && st'.jar.session in st.site.store.sessions
                    && st'.site.store.sessions[st'.jar.session] == st.site.store.sessions[st'.jar.session])
  {
    hide Validate, NormalizeScope, ParseAuth, ParseRequest, TooOld, WriteError, HasGrant;
    if Validate(st.site.clients, ParseRequest(q)).error.None? { AcceptedScopeIsAllowed(st.site.clients, ParseRequest(q)); }
  }

  lemma ConsentKeepsSession(st: View, choice: Choice, now: Time)
    ensures var st' := PostConsent(st, choice, now).0;
            && st'.jar.session == st.jar.session
            && (st'.jar.session in st'.site.store.sessions ==>
                  && st'.jar.session in st.site.store.sessions
                  && st'.site.store.sessions[st'.jar.session] == st.site.store.sessions[st'.jar.session])
  {
    hide Validate, NormalizeScope, ParseAuth, ParseRequest, WriteError, Resumable;
  }

  lemma SignInCreates(st: View, e: Event)
    requires e.SignIn? && e.username in st.site.accounts && st.site.accounts[e.username].password == e.password
    ensures StandsFor(Next(st, e), e, st.site.accounts[e.username].user)
  {
    hide Resumable;
  }

  lemma {:induction false} PrefixAllowed(st: View, events: seq<Event>, n: nat, now: Time)
    requires AllowedRun(st, events, now) && n <= |events|
    ensures AllowedRun(st, events[..n], now)
    decreases |events| - n
  {
    if n < |events| {
      PrefixAllowed(st, events, n + 1, now);
      LastEvent(st, events[..n + 1], now);
      assert events[..n + 1][..n] == events[..n];
    } else {
      assert events[..n] == events;
    }
  }

  /** The n-th event of an allowed run. */
  lemma EventAt(st: View, events: seq<Event>, n: nat, now: Time)
    requires AllowedRun(st, events, now) && n < |events|
    ensures Allowed(After(st, events[..n]), events[n], now)
    ensures After(st, events[..n + 1]) == Next(After(st, events[..n]), events[n])
  {
    hide Allowed, Next;
    PrefixAllowed(st, events, n + 1, now);
    LastEvent(st, events[..n + 1], now);
    assert events[..n + 1][..n] == events[..n];
  }

  /** One more event, which signs nobody in. */
  lemma StillStands(st: View, events: seq<Event>, n: nat, now: Time)
    requires AllowedRun(st, events, now) && n < |events| && CookieStands(st, events, n) && !PostsPassword(st, events, n)
    ensures CookieStands(st, events, n + 1)
  {
    hide Next, Allowed, AllowedRun, After, Poster;
    EventAt(st, events, n, now);
    var st', e := After(st, events[..n]), events[n];
    OthersKeepSession(st', e, now);
    if Next(st', e).jar.session != "" {
      var i: nat :| SignedInAt(st, events, i, n) && StandsFor(st', events[i], Poster(st, events, i));
      hide PostsPassword;
      assert SignedInAt(st, events, i, n + 1) && StandsFor(Next(st', e), events[i], Poster(st, events, i));
    }
  }

  /** One more event, a sign-in. */
  lemma StandsAnew(st: View, events: seq<Event>, n: nat, now: Time)
    requires AllowedRun(st, events, now) && n < |events| && PostsPassword(st, events, n)
    ensures CookieStands(st, events, n + 1)
  {
    hide Next, Allowed, AllowedRun, After;
    EventAt(st, events, n, now);
    SignInCreates(After(st, events[..n]), events[n]);
    assert SignedInAt(st, events, n, n + 1);
  }

  /** Whenever the browser has a session cookie, it stands for the last sign-in. */
  lemma {:induction false} CookieFollows(st: View, events: seq<Event>, n: nat, now: Time)
    requires AllowedRun(st, events, now) && n <= |events| && st.jar.session == ""
    ensures CookieStands(st, events, n)
    decreases n
  {
    if n == 0 {
      assert events[..0] == [];
    } else {
      hide Next, Allowed, AllowedRun, After, CookieStands, PostsPassword;
      CookieFollows(st, events, n - 1, now);
      if PostsPassword(st, events, n - 1) { StandsAnew(st, events, n - 1, now); } else { StillStands(st, events, n - 1, now); }
    }
  }

  // ---- the codes ----

  /** ac is what a visit gives the holder of a live session: for its user, since its sign-in, as asked for and consented to. */
  ghost predicate Answers(st: View, q: Query, now: Time, ac: AuthorizationCode) {
    && st.jar.session != "" && st.jar.session in st.site.store.sessions
    && var sess := st.site.store.sessions[st.jar.session];
       && now <= sess.expiresAt && sess.user in st.site.users
       && ac.user == sess.user && ac.authTime == Some(sess.authenticatedAt)
       && Consent(ac.user, ac.client, ac.scope.value) in st.site.consents
       && ac.client == ClientID(Get(q, ClientId)) && ac.redirectURI == Get(q, RedirectUri)
       && ac.scope.value == Join(Fields(Get(q, ScopeParam))) && ac.nonce == Get(q, NonceParam)
       && ac.challenge == Get(q, CodeChallengeParam) && ac.expiresAt == now + 10 * MINUTE
  }

  lemma VisitIssues(st: View, q: Query, now: Time, draw: Fresh)
    ensures var issued, issued' := st.site.issued, GetAuthorize(st, q, now, draw).0.site.issued;
            || issued' == issued
            || (|issued'| == |issued| + 1 && issued'[..|issued|] == issued && Answers(st, q, now, issued'[|issued|]))
  {
    hide Validate, Fields, TooOld, WriteError, SS.NewSession, SS.Purged;
    if Validate(st.site.clients, ParseRequest(q)).error.None? { AcceptedScopeIsAllowed(st.site.clients, ParseRequest(q)); }
  }

  lemma OthersIssueNothing(st: View, e: Event, now: Time)
    requires Allowed(st, e, now) && !e.Visit?
    ensures Next(st, e).site.issued == st.site.issued
  {
    hide Validate, NormalizeScope, ParseAuth, ParseRequest, WriteError, Resumable;
  }

  /** The visit that issued the k-th code. */
  lemma {:induction false} IssuedAt(st: View, events: seq<Event>, n: nat, k: nat, now: Time) returns (j: nat)
    requires AllowedRun(st, events, now) && n <= |events|
    requires |st.site.issued| <= k < |After(st, events[..n]).site.issued|
    ensures j < n && events[j].Visit?
    ensures |After(st, events[..j]).site.issued| == k
    ensures Answers(After(st, events[..j]), events[j].q, events[j].now, After(st, events[..n]).site.issued[k])
    decreases n
  {
    assert events[..0] == [] && After(st, []) == st;
    if n > 0 {
      hide Next, Allowed, AllowedRun, After, Answers;
      EventAt(st, events, n - 1, now);
      var st', e := After(st, events[..n - 1]), events[n - 1];
      if e.Visit? { VisitIssues(st', e.q, e.now, e.draw); VisitIs(st', e); } else { OthersIssueNothing(st', e, now); }
      if k < |st'.site.issued| {
        j := IssuedAt(st, events, n - 1, k, now);
        assert Next(st', e).site.issued[k] == Next(st', e).site.issued[..|st'.site.issued|][k];
      } else {
        j := n - 1;
      }
    }
  }

  lemma VisitIs(st: View, e: Event)
    requires e.Visit?
    ensures Next(st, e) == GetAuthorize(st, e.q, e.now, e.draw).0
  {
    hide GetAuthorize;
  }

  /**
    Identity. Every code a browser is given over any run that it starts
    without a session names the user whose password was posted in the last
    sign-in before the visit that got the code, no logout in between, at most
    a day earlier. Its auth_time is exactly the time of that sign-in, and that
    user's consent to this client for this scope was recorded at the visit.
   */
  lemma CodeNamesWhoSignedIn(st: View, events: seq<Event>, k: nat, now: Time) returns (i: nat, j: nat)
    requires AllowedRun(st, events, now) && st.jar.session == ""
    requires |st.site.issued| <= k < |After(st, events).site.issued|
    ensures i < j < |events| && events[j].Visit? && SignedInAt(st, events, i, j)
    ensures var ac, q := After(st, events).site.issued[k], events[j].q;
            && |After(st, events[..j]).site.issued| == k
            && ac.user == Poster(st, events, i) && ac.authTime == Some(events[i].now)
            && events[j].now <= events[i].now + 24 * HOUR
            && Consent(ac.user, ac.client, ac.scope.value) in After(st, events[..j]).site.consents
            && ac.user in After(st, events[..j]).site.users
            && ac.client == ClientID(Get(q, ClientId)) && ac.redirectURI == Get(q, RedirectUri)
            && ac.scope.value == Join(Fields(Get(q, ScopeParam))) && ac.nonce == Get(q, NonceParam)
            && ac.challenge == Get(q, CodeChallengeParam) && ac.expiresAt == events[j].now + 10 * MINUTE
  {
    hide Next, Allowed, AllowedRun, After, Fields;
    assert events[..|events|] == events;
    j := IssuedAt(st, events, |events|, k, now);
    CookieFollows(st, events, j, now);
    i :| SignedInAt(st, events, i, j) && StandsFor(After(st, events[..j]), events[i], Poster(st, events, i));
  }

  // ---- what signing in and consenting change ----

  /** The query parked under the pending cookie, while it has not expired. */
  function ParkedQuery(st: View, now: Time): Option<Query> {
    var pending, id := st.site.store.pending, st.jar.pending;
    if id != "" && id in pending && now <= pending[id].expiresAt then Some(pending[id].rawQuery) else None
  }

  /** Only parameters /authorize knows, and neither prompt nor max_age: such a query is resumed. */
  ghost predicate Known(q: Query) {
    forall k :: k in q.Keys ==> !k.Other? && k != Prompt && k != MaxAge
  }

  lemma ResumedExactly(q: Query)
    ensures Resumable(q) <==> Known(q)
  {
    forall k: Param ensures k in PENDING_KEYS <==> !k.Other? && k != Prompt && k != MaxAge {}
  }

  /**
    Posting a password: exactly the right one signs in, under a new session
    that lasts a day, and goes on with a parked request that can be resumed.
    A wrong one changes nothing and shows the form again.
   */
  lemma SignInExactly(st: View, username: string, password: string, now: Time, id: SS.Id)
    ensures var (st', page) := PostLogin(st, username, password, now, id);
            var right := username in st.site.accounts && st.site.accounts[username].password == password;
            && st'.site == st.site.(store := st'.site.store)
            && (!right ==> st' == st && page == LoginForm)
            && (right ==>
                  && st'.jar == Jar(id, "")
                  && st'.site.store.sessions
                     == st.site.store.sessions[id := SS.Session(st.site.accounts[username].user, now, now + 24 * HOUR)]
                  && st'.site.store.pending
                     == (if st.jar.pending == "" then st.site.store.pending else st.site.store.pending - {st.jar.pending})
                  && var q := ParkedQuery(st, now);
                     page == if q.Some? && Known(q.value) then Resume(q.value) else SignedIn)
  {
    hide Resumable, Known;
    var q := ParkedQuery(st, now);
    if q.Some? { ResumedExactly(q.value); }
  }

  /** The session under the cookie, while it has not expired. */
  function SessionNow(st: View, now: Time): Option<SS.Session> {
    var sessions, id := st.site.store.sessions, st.jar.session;
    if id != "" && id in sessions && now <= sessions[id].expiresAt then Some(sessions[id]) else None
  }

  /** A signed-in user of the site has a valid request parked. */
  predicate Awaits(st: View, now: Time) {
    && SessionNow(st, now).Some? && SessionNow(st, now).value.user in st.site.users
    && ParkedQuery(st, now).Some?
    && Validate(st.site.clients, ParseRequest(ParkedQuery(st, now).value)).error.None?
  }

  /**
    Answering the consent page: exactly an acceptance of a valid parked
    request by a signed-in user records a consent, that user's for the client
    and words of the request. Acceptance and denial use the request up, any
    other answer leaves it, and nothing else on the site changes.
   */
  lemma ConsentExactly(st: View, choice: Choice, now: Time)
    ensures var st' := PostConsent(st, choice, now).0;
            && st'.site == st.site.(store := st'.site.store, consents := st'.site.consents)
            && st'.jar.session == st.jar.session
            && st'.site.consents
               == (if Awaits(st, now) && choice.Accept? then
                     var q := ParkedQuery(st, now).value;
                     st.site.consents
                     + {Consent(SessionNow(st, now).value.user, ClientID(Get(q, ClientId)), Join(Fields(Get(q, ScopeParam))))}
                   else st.site.consents)
            && (if Awaits(st, now) && !choice.Neither?
                then st'.jar.pending == "" && st'.site.store.pending == st.site.store.pending - {st.jar.pending}
                else st'.jar == st.jar && (ParkedQuery(st, now).Some? ==> st'.site.store.pending == st.site.store.pending))
  {
    hide Resumable, Known, Validate, Fields, WriteError;
    var q := ParkedQuery(st, now);
    if q.Some? {
      ResumedExactly(q.value);
      if Awaits(st, now) { AcceptedScopeIsAllowed(st.site.clients, ParseRequest(q.value)); }
    }
  }

  /**
    And the page shown: an acceptance goes on with a request that can be
    resumed, a denial is reported to the client, and without a valid request
    and a signed-in user the answer says what is missing.
   */
  lemma ConsentAnswersExactly(st: View, choice: Choice, now: Time)
    ensures var page := PostConsent(st, choice, now).1;
            && (Awaits(st, now) && choice.Accept? ==>
                  var q := ParkedQuery(st, now).value; page == if Known(q) then Resume(q) else BadRequest)
            && (Awaits(st, now) && choice.Neither? ==> page == BadRequest)
            && (Awaits(st, now) && choice.Deny? ==>
                  var q := ParkedQuery(st, now).value;
                  page == ErrorReportPage(ErrorRedirect(Get(q, RedirectUri), "access_denied", Get(q, StateParam))))
            && (!Awaits(st, now) ==>
                  if SessionNow(st, now).None? then page == LoginPage
                  else if SessionNow(st, now).value.user !in st.site.users then page == ServerError
                  else if ParkedQuery(st, now).None? then page == BadRequest
                  else page.ErrorReportPage? && page.report.JsonBody?)
  {
    hide Resumable, Known, CheckParameters, Fields;
    var q := ParkedQuery(st, now);
    if q.Some? {
      ResumedExactly(q.value);
      if Awaits(st, now) { AcceptedScopeIsAllowed(st.site.clients, ParseRequest(q.value)); }
    }
  }

  // ---- what a visit is answered with ----

  /** The browser's session will do for this request: prompt=login not asked, and young enough for max_age. */
  predicate SessionServes(st: View, q: Query, now: Time) {
    && SessionNow(st, now).Some? && Get(q, Prompt) != "login"
    && (ScanMaxAge(Get(q, MaxAge)).Some? ==>
          now - SessionNow(st, now).value.authenticatedAt <= Wrap64(ScanMaxAge(Get(q, MaxAge)).value * 1_000_000_000))
  }

  predicate HasConsented(st: View, user: UserID, q: Query) {
    Consent(user, ClientID(Get(q, ClientId)), Join(Fields(Get(q, ScopeParam)))) in st.site.consents
  }

  /** A visit with an invalid request changes nothing, and is reported to a registered redirect URI or to no one. */
  lemma InvalidVisit(st: View, q: Query, now: Time, draw: Fresh)
    requires Validate(st.site.clients, ParseRequest(q)).error.Some?
    ensures var (st', page) := GetAuthorize(st, q, now, draw);
            && st' == st && page.ErrorReportPage?
            && var cid := ClientID(Get(q, ClientId));
               && (page.report.ErrorRedirect? <==>
                     cid.value != "" && cid in st.site.clients && Get(q, RedirectUri) in st.site.clients[cid].redirectURIs)
               && (page.report.ErrorRedirect? ==>
                     page.report.location == Get(q, RedirectUri) && page.report.state == Get(q, StateParam))
  {
    hide Validate, WriteError;
    ErrorsRedirectOnlyToRegisteredURIs(st.site.clients, ParseRequest(q));
  }

  /**
    A visit with a valid request: who is not signed in, or not recently
    enough, is asked to sign in, who has not consented is asked to consent,
    and under prompt=none the client is told instead. Asking parks the request
    without prompt and max_age for ten minutes. A session that will not do is
    deleted together with its cookie, and any other stays.
   */
  lemma VisitAnswersExactly(st: View, q: Query, now: Time, draw: Fresh)
    requires Validate(st.site.clients, ParseRequest(q)).error.None?
    ensures var (st', page) := GetAuthorize(st, q, now, draw);
            var sess, serves := SessionNow(st, now), SessionServes(st, q, now);
            var none := Get(q, Prompt) == "none";
            && (!serves ==>
                  page == if none then BackToClient(Get(q, RedirectUri), "login_required", Get(q, StateParam)) else LoginPage)
            && (serves && sess.value.user !in st.site.users ==> page == ServerError)
            && (serves && sess.value.user in st.site.users && !HasConsented(st, sess.value.user, q) ==>
                  page == if none then BackToClient(Get(q, RedirectUri), "consent_required", Get(q, StateParam))
                          else ConsentPage)
            && (serves && sess.value.user in st.site.users && HasConsented(st, sess.value.user, q) ==> page.CodeToClient?)
            && (if page == LoginPage || page == ConsentPage
                then st'.jar.pending == draw.id
                     && st'.site.store.pending
                        == st.site.store.pending[draw.id := SS.PendingAuthorize(q - {Prompt, MaxAge}, now + 10 * MINUTE)]
                else st'.jar.pending == st.jar.pending && st'.site.store.pending == st.site.store.pending)
            && st'.jar.session == (if sess.Some? && !serves then "" else st.jar.session)
            && (sess.Some? ==>
                  st'.site.store.sessions
                  == if serves then st.site.store.sessions else st.site.store.sessions - {st.jar.session})
  {
    hide Validate, Fields, ScanMaxAge, Wrap64;
    AcceptedScopeIsAllowed(st.site.clients, ParseRequest(q));
  }
}
