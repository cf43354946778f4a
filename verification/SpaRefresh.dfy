/**
  The single-page application's single-flight refresh, composed with the
  server. The server revokes a whole family when a rotated token comes back,
  so the client must never present a token twice. The tab is a state machine
  over the points where its asynchronous functions wait; any number of callers
  may ask for a refresh at any time.
 */
module SpaRefresh {
  import opened Wrappers
  import opened Scopes
  import opened Domain
  import opened Authorize
  import opened TokenProtocol
  import opened TokenInvariants
  import RT = RefreshTokenStore
  import RL = RotationLedger
  import TT = TokenTheorems

  // ---- the tab ----

  datatype StoredSession = StoredSession(refreshToken: Option<string>, expiresAt: Time)

  const REFRESH_LEAD_TIME: Time := 60 * SECOND

  /** isAccessTokenValid. */
  predicate AccessTokenValid(session: StoredSession, now: Time) { now < session.expiresAt }

  /** !session.refreshToken: JavaScript counts the empty string as no token. */
  predicate CanRefresh(session: StoredSession) { session.refreshToken.Some? && session.refreshToken.value != "" }

  /** shouldRefreshSession. */
  predicate ShouldRefresh(session: StoredSession, now: Time) {
    CanRefresh(session) && now >= session.expiresAt - REFRESH_LEAD_TIME
  }

  /**
    refreshInFlight, by where performRefresh stands: waiting for the discovery
    document, waiting for the token response of request r, or settled with
    the finally block of refreshStoredSession still to run.
   */
  datatype InFlight = Idle | Discovering(session: StoredSession) | Waiting(session: StoredSession, r: RequestId) | Settled

  /** exchanges are the code exchanges of sign-ins under way; sent keeps all requests the tab ever made. */
  datatype Tab = Tab(stored: Option<StoredSession>, inFlight: InFlight, exchanges: set<RequestId>, sent: set<RequestId>)

  /** refreshStoredSession up to its first wait; a second caller shares the promise. */
  function Call(tab: Tab): Tab {
    if tab.inFlight.Idle? && tab.stored.Some? && CanRefresh(tab.stored.value)
    then tab.(inFlight := Discovering(tab.stored.value)) else tab
  }

  function RefreshRequest(session: StoredSession, clientID: string): TokenRequest
    requires CanRefresh(session)
  {
    TokenRequest(REFRESH_TOKEN, "", "", clientID, "", "", session.refreshToken.value, "")
  }

  /** The token response's refresh_token; a plaintext is known by its hash here. */
  function Plaintext(reply: Reply): Option<string>
    requires reply.Granted?
  {
    match reply.refresh
    case None => None
    case Some(rt) => Some(rt.hash.value)
  }

  /** performRefresh from the token response on: store on success, keep everything on failure. */
  function Receive(tab: Tab, reply: Reply, expiresAt: Time): Tab
    requires tab.inFlight.Waiting?
  {
    if !reply.Granted? then tab.(inFlight := Settled)
    else
      var token := Plaintext(reply);
      var updated := StoredSession(if token.Some? then token else tab.inFlight.session.refreshToken, expiresAt);
      tab.(stored := Some(updated), inFlight := Settled)
  }

  /** handleCallback from the token response on. */
  function SignIn(tab: Tab, r: RequestId, reply: Reply, expiresAt: Time): Tab {
    var tab := tab.(exchanges := tab.exchanges - {r});
    if reply.Granted? then tab.(stored := Some(StoredSession(Plaintext(reply), expiresAt))) else tab
  }

  /** What a caller of ensureValidAccessToken gets to do. */
  datatype Decision = UseStored | NoToken | AwaitRefresh

  /** The module variables of refresh.ts and the session they share, updated between awaits. */
  class RefreshClient {
    var stored: Option<StoredSession>
    var inFlight: InFlight
    ghost const exchanges: set<RequestId>
    ghost const sent: set<RequestId>

    constructor (stored: Option<StoredSession>)
      ensures View() == Tab(stored, Idle, exchanges, sent)
    {
      this.stored := stored;
      inFlight := Idle;
    }

    ghost function View(): Tab
      reads this
    {
      Tab(stored, inFlight, exchanges, sent)
    }

    /** refreshStoredSession up to its first await. */
    method RefreshStoredSession() returns (waits: bool)
      modifies this
      ensures View() == Call(old(View()))
      ensures waits <==> !inFlight.Idle?
      ensures !old(inFlight).Idle? ==> inFlight == old(inFlight)
    {
      if inFlight.Idle? {
        if stored.None? || !CanRefresh(stored.value) { return false; }
        inFlight := Discovering(stored.value);
      }
      waits := true;
    }

    /** performRefresh after its last await. */
    method StoreRefreshed(reply: Reply, expiresAt: Time)
      requires inFlight.Waiting?
      modifies this
      ensures View() == Receive(old(View()), reply, expiresAt)
    {
      if reply.Granted? {
        var token := Plaintext(reply);
        if token.None? { token := inFlight.session.refreshToken; }
        stored := Some(StoredSession(token, expiresAt));
      }
      inFlight := Settled;
    }

    /** ensureValidAccessToken up to its first await. */
    method EnsureValidAccessToken(now: Time) returns (d: Decision)
      modifies this
      ensures View() == if d.AwaitRefresh? then Call(old(View())) else old(View())
      ensures d.UseStored? <==>
                && stored.Some? && now < stored.value.expiresAt
                && (|| stored.value.refreshToken.None? || stored.value.refreshToken.value == ""
                    || now < stored.value.expiresAt - 60 * SECOND)
      ensures d.AwaitRefresh? <==>
                && stored.Some? && stored.value.refreshToken.Some? && stored.value.refreshToken.value != ""
                && stored.value.expiresAt - 60 * SECOND <= now
      ensures d.AwaitRefresh? ==> !inFlight.Idle?
    {
      if stored.None? { return NoToken; }
      if AccessTokenValid(stored.value, now) && !ShouldRefresh(stored.value, now) { return UseStored; }
      if !CanRefresh(stored.value) { return NoToken; }
      var waits := RefreshStoredSession();
      return AwaitRefresh;
    }
  }

  // ---- tab and server together ----

  datatype World = World(server: State, tab: Tab)

  datatype Event =
    | Caller
    | Discovered(r: RequestId, clientID: string)
    | DiscoveryFailed
    | Response(expiresAt: Time)
    | Finally
    | SendCode(r: RequestId, tok: TokenRequest)
    | CodeResponse(r: RequestId, expiresAt: Time)
    | SendRevoke(r: RequestId, rev: RevokeRequest)
    | ClearStorage
    | Server(a: Action)

  predicate IsRefreshCall(req: Request) { req.TokenCall? && req.tok.grantType == REFRESH_TOKEN }

  function PresentedBy(req: Request): TokenHash
    requires IsRefreshCall(req)
  {
    HashToken(req.tok.refreshToken)
  }

  /** Minted for a request of the tab. */
  predicate Owned(w: World, h: TokenHash) {
    h in w.server.tokens.makers && w.server.tokens.makers[h] in w.tab.sent
  }

  /** Other parties do not hold the tab's refresh tokens. */
  predicate OutsiderMay(w: World, a: Action) {
    a.Arrive? && IsRefreshCall(a.req) ==> !Owned(w, PresentedBy(a.req))
  }

  predicate Answered(w: World, r: RequestId) { r in w.server.procs && w.server.procs[r].Finished? }

  predicate Possible(w: World, e: Event) {
    match e
    case Caller => true
    case Discovered(r, _) => w.tab.inFlight.Discovering? && CanRefresh(w.tab.inFlight.session) && r !in w.server.procs
    case DiscoveryFailed => w.tab.inFlight.Discovering?
    case Response(_) => w.tab.inFlight.Waiting? && Answered(w, w.tab.inFlight.r)
    case Finally => w.tab.inFlight.Settled?
    case SendCode(r, tok) => tok.grantType == AUTHORIZATION_CODE && r !in w.server.procs
    case CodeResponse(r, _) => r in w.tab.exchanges && Answered(w, r)
    case SendRevoke(r, _) => r !in w.server.procs
    case ClearStorage => true
    case Server(a) => Enabled(w.server, a) && OutsiderMay(w, a)
  }

  function Next(w: World, e: Event): World
    requires Possible(w, e)
  {
    var tab := w.tab;
    match e
    case Caller => w.(tab := Call(tab))
    case Discovered(r, clientID) =>
      World(Apply(w.server, Arrive(r, TokenCall(RefreshRequest(tab.inFlight.session, clientID)))),
            tab.(inFlight := Waiting(tab.inFlight.session, r), sent := tab.sent + {r}))
    case DiscoveryFailed => w.(tab := tab.(inFlight := Settled))
    case Response(expiresAt) => w.(tab := Receive(tab, w.server.procs[tab.inFlight.r].reply, expiresAt))
    case Finally => w.(tab := tab.(inFlight := Idle))
    case SendCode(r, tok) =>
      World(Apply(w.server, Arrive(r, TokenCall(tok))), tab.(exchanges := tab.exchanges + {r}, sent := tab.sent + {r}))
    case CodeResponse(r, expiresAt) => w.(tab := SignIn(tab, r, w.server.procs[r].reply, expiresAt))
    // logout read the token before its own wait for the discovery document: by now it may be any earlier one
    case SendRevoke(r, rev) => World(Apply(w.server, Arrive(r, RevokeCall(rev))), tab.(sent := tab.sent + {r}))
    case ClearStorage => w.(tab := tab.(stored := None))
    case Server(a) => w.(server := Apply(w.server, a))
  }

  // ---- what steps of the server do to presented tokens ----

  /** The token has been rotated away and its row is still there. */
  ghost predicate Spent(s: State, h: TokenHash) { h in s.tokens.rows && s.tokens.rows[h].consumed }

  ghost predicate NoNewSpent(s: State, s': State) { forall h :: Spent(s', h) ==> Spent(s, h) }

  lemma ArrivedKeepsRequest(s: State, r: RequestId)
    requires Running(s, r) && s.procs[r].Arrived?
    ensures var s' := StepArrived(s, r, s.procs[r].req);
            r in s'.procs && RequestOf(s'.procs[r]) == RequestOf(s.procs[r])
  {
    hide ResolveClient, NormalizeScope, RT.FindByTokenHash, NoInsert;
  }

  lemma RequestIsKept(s: State, r: RequestId, draw: Draw)
    requires Running(s, r)
    ensures var s' := StepProc(s, r, s.procs[r], draw);
            r in s'.procs && RequestOf(s'.procs[r]) == RequestOf(s.procs[r])
  {
    hide StepArrived, RT.FindByTokenHash, Narrow, Verify, MayRevoke, NoInsert, OnlyMoves, SameWorld, RotateLink, SaveFirst;
    if s.procs[r].Arrived? { ArrivedKeepsRequest(s, r); }
  }

  lemma FindSpendsNothing(s: State, r: RequestId, draw: Draw)
    requires Running(s, r)
    requires s.procs[r].RefreshFind? || (s.procs[r].Arrived? && s.procs[r].req.RevokeCall?)
    ensures NoNewSpent(s, StepProc(s, r, s.procs[r], draw))
  {
    hide RT.Reconstruct, NoInsert, RefreshFound;
  }

  lemma ArrivingSpendsNothing(s: State, r: RequestId)
    requires Running(s, r) && s.procs[r].Arrived? && !s.procs[r].req.RevokeCall?
    ensures StepArrived(s, r, s.procs[r].req).tokens == s.tokens
  {
    hide ResolveClient, NormalizeScope, NoInsert;
  }

  /** Only a rotation spends a token: the one its request presented, and then that request is granted. */
  lemma OnlyRotationSpends(s: State, r: RequestId, draw: Draw, h: TokenHash)
    requires Running(s, r)
    requires var s' := StepProc(s, r, s.procs[r], draw); Spent(s', h) && !Spent(s, h)
    ensures var s' := StepProc(s, r, s.procs[r], draw);
            && s.procs[r].RefreshRotate? && s.procs[r].rt.hash == h
            && r in s'.procs && s'.procs[r].Finished? && s'.procs[r].reply.Granted?
  {
    hide NoInsert, Narrow, Verify, MayRevoke, Validate, ParseAuth, ParseRefresh, StepArrived, StepRefreshFind;
    var p := s.procs[r];
    if p.RefreshFind? || (p.Arrived? && p.req.RevokeCall?) {
      FindSpendsNothing(s, r, draw);
    } else if p.Arrived? {
      ArrivingSpendsNothing(s, r);
    }
  }

  /** A request that presents an unspent token is not told of a reuse. */
  lemma UnspentIsNotReuse(s: State, r: RequestId, draw: Draw)
    requires Running(s, r) && IsRefreshCall(RequestOf(s.procs[r])) && !s.procs[r].RefreshRevoke?
    requires !Spent(s, PresentedBy(RequestOf(s.procs[r]))) && GrantMatches(s.procs[r])
    ensures var s' := StepProc(s, r, s.procs[r], draw);
            && r in s'.procs && !s'.procs[r].RefreshRevoke?
            && s'.procs[r] != Finished(RequestOf(s.procs[r]), Failed(RefreshReused))
  {
    hide NoInsert, Narrow, ResolveClient, Verify, MayRevoke, Validate, ParseAuth, ParseRefresh;
    if s.procs[r].Arrived? { ResolveNeverSaysReused(s.clients, s.procs[r].req.tok); }
  }

  lemma ResolveNeverSaysReused(clients: Clients, tok: TokenRequest)
    ensures ResolveClient(clients, tok) != Err(RefreshReused)
  {
  }

  /** A granted refresh token was minted for the request that is granted it, and is not spent. */
  ghost predicate GrantsOwn(s: State, r: RequestId, p: Proc) {
    p.Finished? && p.reply.Granted? && p.reply.refresh.Some? ==>
      p.reply.refresh.value.hash in s.tokens.makers && s.tokens.makers[p.reply.refresh.value.hash] == r
  }

  ghost predicate GrantsUnspent(s: State, p: Proc) {
    p.Finished? && p.reply.Granted? && p.reply.refresh.Some? ==> !Spent(s, p.reply.refresh.value.hash)
  }

  lemma InsertGrantsOwn(s: State, r: RequestId, draw: Draw)
    requires Running(s, r) && (s.procs[r].RefreshRotate? || s.procs[r].CodeSave?)
    requires ProcInv(s, r, s.procs[r])
    requires s.procs[r].RefreshRotate? ==> s.procs[r].next.hash !in s.tokens.rows
    ensures var s' := StepProc(s, r, s.procs[r], draw);
            r in s'.procs && GrantsOwn(s', r, s'.procs[r]) && GrantsUnspent(s', s'.procs[r])
  {
    hide OwnerPresent, Exchanging, Canonical, RL.Snapshot, RL.Follows;
  }

  lemma StepGrantsOwn(s: State, r: RequestId, draw: Draw)
    requires Running(s, r)
    requires Inv(s)
    ensures var s' := StepProc(s, r, s.procs[r], draw);
            r in s'.procs && GrantsOwn(s', r, s'.procs[r]) && GrantsUnspent(s', s'.procs[r])
  {
    hide StepProc, ProcInv, MakersInv, FamiliesInv, RL.Inv, CodeLedgerInv, IssuedLawfully, GrantMatches;
    assert ProcInv(s, r, s.procs[r]);
    if s.procs[r].RefreshRotate? || s.procs[r].CodeSave? {
      PendingIsUnstored(s, r);
      RL.RowsHaveLinks(s.tokens, s.clock);
      assert s.procs[r].RefreshRotate? ==> s.procs[r].next.hash !in s.tokens.links;
      InsertGrantsOwn(s, r, draw);
    } else {
      TT.OtherStepsAnswerNoRefresh(s, r, draw);
    }
  }

  /** All that the composition needs to know about a step of request r. */
  ghost predicate StepEffect(s: State, s': State, r: RequestId, draw: Draw) {
    && r in s.procs && OnlyMoves(s, s', r) && s'.presented == s.presented && RequestOf(s'.procs[r]) == RequestOf(s.procs[r])
    && (s'.tokens.makers == s.tokens.makers || MakersDrew(s, s', r, draw))
    && GrantsOwn(s', r, s'.procs[r]) && GrantsUnspent(s', s'.procs[r])
    && (forall h :: Spent(s', h) && !Spent(s, h) ==> SpentBy(s', r, h))
    && ReuseOnlyOfSpent(s, s', r)
  }

  ghost predicate MakersDrew(s: State, s': State, r: RequestId, draw: Draw) {
    && s'.tokens.makers == s.tokens.makers[draw.hash := r]
    && draw.hash !in s.tokens.makers && draw.hash !in s.presented
  }

  ghost predicate ReuseOnlyOfSpent(s: State, s': State, r: RequestId)
    requires r in s.procs && r in s'.procs
  {
    var req := RequestOf(s.procs[r]);
    IsRefreshCall(req) && ReuseSeen(s'.procs[r]) ==> ReuseSeen(s.procs[r]) || Spent(s, PresentedBy(req))
  }

  /** r presented h and has been granted its successor. */
  ghost predicate SpentBy(s: State, r: RequestId, h: TokenHash) {
    && Done(s, r) && s.procs[r].reply.Granted?
    && IsRefreshCall(RequestOf(s.procs[r])) && PresentedBy(RequestOf(s.procs[r])) == h
  }

  /** The server has taken a reuse branch for this request. */
  ghost predicate ReuseSeen(p: Proc) {
    p.RefreshRevoke? || (p.Finished? && p.reply == Failed(RefreshReused))
  }

  lemma SpenderPresented(s: State, r: RequestId, draw: Draw, h: TokenHash)
    requires Running(s, r) && GrantMatches(s.procs[r])
    requires var s' := StepProc(s, r, s.procs[r], draw); Spent(s', h) && !Spent(s, h)
    ensures SpentBy(StepProc(s, r, s.procs[r], draw), r, h)
  {
    hide StepProc;
    OnlyRotationSpends(s, r, draw, h);
    RequestIsKept(s, r, draw);
  }

  lemma StepsHaveEffect(s: State, r: RequestId, draw: Draw)
    requires Running(s, r) && IsFresh(s, draw)
    requires Inv(s)
    ensures StepEffect(s, StepProc(s, r, s.procs[r], draw), r, draw)
  {
    hide StepProc, ProcInv, GrantMatches, MakersInv, FamiliesInv, RL.Inv, CodeLedgerInv, IssuedLawfully, GrantsOwn;
    hide GrantsUnspent, Spent;
    var s' := StepProc(s, r, s.procs[r], draw);
    assert ProcInv(s, r, s.procs[r]) && GrantMatches(s.procs[r]);
    TT.StepMovesOnly(s, r, draw);
    RequestIsKept(s, r, draw);
    TT.MakersGain(s, r, draw);
    StepGrantsOwn(s, r, draw);
    forall h | Spent(s', h) && !Spent(s, h) ensures SpentBy(s', r, h) { SpenderPresented(s, r, draw, h); }
    var req := RequestOf(s.procs[r]);
    if IsRefreshCall(req) && !Spent(s, PresentedBy(req)) && !ReuseSeen(s.procs[r]) { UnspentIsNotReuse(s, r, draw); }
  }

  // ---- the invariant of the composition ----

  ghost predicate Remembered(s: State, q: RequestId) {
    q in s.procs && HashesOf(RequestOf(s.procs[q])) <= s.presented && GrantsOwn(s, q, s.procs[q])
  }

  ghost predicate ServerInv(s: State) {
    && (forall q :: q in s.procs ==> Remembered(s, q))
    && (forall h :: h in s.tokens.makers ==> s.tokens.makers[h] in s.procs)
  }

  /** Requests of other parties present no token of the tab. */
  ghost predicate Separate(w: World) {
    forall q :: q in w.server.procs && q !in w.tab.sent && IsRefreshCall(RequestOf(w.server.procs[q])) ==>
      !Owned(w, PresentedBy(RequestOf(w.server.procs[q])))
  }

  /** Requests whose response the tab still waits for. */
  function Pending(tab: Tab): set<RequestId> {
    tab.exchanges + (if tab.inFlight.Waiting? then {tab.inFlight.r} else {})
  }

  /** Single flight: a refresh request that still runs is the one in flight, with the token of its session. */
  ghost predicate SingleFlight(w: World) {
    var tab, procs := w.tab, w.server.procs;
    && tab.sent <= procs.Keys && tab.exchanges <= tab.sent
    && (forall r :: r in tab.exchanges ==> !IsRefreshCall(RequestOf(procs[r])))
    && (tab.inFlight.Discovering? ==> CanRefresh(tab.inFlight.session))
    && (tab.inFlight.Waiting? ==>
          && tab.inFlight.r in tab.sent && CanRefresh(tab.inFlight.session)
          && IsRefreshCall(RequestOf(procs[tab.inFlight.r]))
          && PresentedBy(RequestOf(procs[tab.inFlight.r])) == HashToken(tab.inFlight.session.refreshToken.value))
    && (forall r :: r in tab.sent && !procs[r].Finished? && IsRefreshCall(RequestOf(procs[r])) ==>
          tab.inFlight.Waiting? && tab.inFlight.r == r)
  }

  /** A session the tab holds came in a response it has received. */
  ghost predicate Received(w: World, session: StoredSession) {
    session.refreshToken.Some? ==>
      var h := HashToken(session.refreshToken.value);
      h in w.server.tokens.makers && w.server.tokens.makers[h] in w.tab.sent - Pending(w.tab)
  }

  ghost predicate Held(w: World) {
    && (w.tab.stored.Some? ==> Received(w, w.tab.stored.value))
    && (w.tab.inFlight.Discovering? || w.tab.inFlight.Waiting? ==> Received(w, w.tab.inFlight.session))
  }

  /** The one time a stored token may be spent: its successor is on the way. */
  ghost predicate SuccessorOnTheWay(w: World) {
    && w.tab.inFlight.Waiting? && Done(w.server, w.tab.inFlight.r)
    && w.server.procs[w.tab.inFlight.r].reply.Granted?
  }

  ghost predicate Unspent(w: World) {
    var tab, s := w.tab, w.server;
    && (forall r :: r in Pending(tab) && r in s.procs ==> GrantsUnspent(s, s.procs[r]))
    && (tab.inFlight.Discovering? && CanRefresh(tab.inFlight.session) ==>
          !Spent(s, HashToken(tab.inFlight.session.refreshToken.value)))
    && (tab.inFlight.Waiting? && CanRefresh(tab.inFlight.session) && !Done(s, tab.inFlight.r) ==>
          !Spent(s, HashToken(tab.inFlight.session.refreshToken.value)))
    && (tab.stored.Some? && tab.stored.value.refreshToken.Some? ==>
          !Spent(s, HashToken(tab.stored.value.refreshToken.value)) || SuccessorOnTheWay(w))
  }

  ghost predicate NoReuse(w: World) {
    forall r :: r in w.tab.sent && r in w.server.procs && IsRefreshCall(RequestOf(w.server.procs[r])) ==>
      !ReuseSeen(w.server.procs[r])
  }

  ghost predicate TabInv(w: World) {
    SingleFlight(w) && Held(w) && Unspent(w) && NoReuse(w) && Separate(w)
  }

  // ---- the server moves ----

  lemma ServerStepKeeps(s: State, s': State, r: RequestId, draw: Draw)
    requires ServerInv(s) && StepEffect(s, s', r, draw)
    ensures ServerInv(s')
  {
    forall q | q in s'.procs ensures Remembered(s', q) {
      assert Remembered(s, q);
    }
  }

  lemma StepKeepsSeparate(w: World, s': State, r: RequestId, draw: Draw)
    requires ServerInv(w.server) && Separate(w) && StepEffect(w.server, s', r, draw)
    ensures Separate(w.(server := s'))
  {
    var w' := w.(server := s');
    forall q | q in s'.procs && q !in w.tab.sent && IsRefreshCall(RequestOf(s'.procs[q]))
      ensures !Owned(w', PresentedBy(RequestOf(s'.procs[q])))
    {
      assert Remembered(w.server, q);
      assert RequestOf(s'.procs[q]) == RequestOf(w.server.procs[q]);
      assert PresentedBy(RequestOf(s'.procs[q])) in w.server.presented;
    }
  }

  lemma StepKeepsShape(w: World, s': State, r: RequestId, draw: Draw)
    requires SingleFlight(w) && Held(w) && StepEffect(w.server, s', r, draw) && !Done(w.server, r)
    ensures SingleFlight(w.(server := s')) && Held(w.(server := s'))
  {
  }

  /** A held token is spent by no one but the request in flight, and then its successor is on the way. */
  lemma SpentOnlyInFlight(w: World, s': State, r: RequestId, draw: Draw, h: TokenHash)
    requires SingleFlight(w) && Separate(w) && StepEffect(w.server, s', r, draw) && !Done(w.server, r) && Owned(w, h)
    requires Spent(s', h) && !Spent(w.server, h)
    ensures w.tab.inFlight.Waiting? && w.tab.inFlight.r == r && SpentBy(s', r, h)
    ensures HashToken(w.tab.inFlight.session.refreshToken.value) == h
  {
    assert SpentBy(s', r, h);
  }

  lemma StepKeepsUnspent(w: World, s': State, r: RequestId, draw: Draw)
    requires TabInv(w) && StepEffect(w.server, s', r, draw) && !Done(w.server, r)
    requires ServerInv(w.server)
    ensures Unspent(w.(server := s'))
  {
    hide Spent, GrantsUnspent, ServerInv;
    PendingStayUnspent(w, s', r, draw);
    var tab, s := w.tab, w.server;
    if tab.inFlight.Discovering? || tab.inFlight.Waiting? {
      var h := HashToken(tab.inFlight.session.refreshToken.value);
      if Spent(s', h) && !Spent(s, h) { SpentOnlyInFlight(w, s', r, draw, h); }
    }
    if tab.stored.Some? && tab.stored.value.refreshToken.Some? {
      var h := HashToken(tab.stored.value.refreshToken.value);
      if Spent(s', h) && !Spent(s, h) { SpentOnlyInFlight(w, s', r, draw, h); }
    }
  }

  lemma PendingStayUnspent(w: World, s': State, r: RequestId, draw: Draw)
    requires TabInv(w) && StepEffect(w.server, s', r, draw) && !Done(w.server, r)
    requires ServerInv(w.server)
    ensures forall q :: q in Pending(w.tab) && q in s'.procs ==> GrantsUnspent(s', s'.procs[q])
  {
    hide Spent, GrantsUnspent;
    forall q | q in Pending(w.tab) && q in s'.procs ensures GrantsUnspent(s', s'.procs[q]) {
      if q != r {
        OthersStand(w.server, s', r, draw, q);
        assert Remembered(w.server, q);
        PendingStaysUnspent(w, s', r, draw, q);
      }
    }
  }

  /** A token in a response the tab waits for is not the one in flight. */
  lemma PendingIsNotInFlight(w: World, q: RequestId)
    requires Held(w) && q in Pending(w.tab) && Remembered(w.server, q) && w.tab.inFlight.Waiting?
    requires CanRefresh(w.tab.inFlight.session)
    ensures var p := w.server.procs[q];
            p.Finished? && p.reply.Granted? && p.reply.refresh.Some? ==>
              p.reply.refresh.value.hash != HashToken(w.tab.inFlight.session.refreshToken.value)
  {
    hide HashesOf;
  }

  lemma PendingStaysUnspent(w: World, s': State, r: RequestId, draw: Draw, q: RequestId)
    requires SingleFlight(w) && Separate(w) && Held(w) && StepEffect(w.server, s', r, draw) && !Done(w.server, r)
    requires q in Pending(w.tab) && q in w.tab.sent && q != r && Remembered(w.server, q)
    requires GrantsUnspent(w.server, w.server.procs[q])
    ensures GrantsUnspent(s', w.server.procs[q])
  {
    hide SingleFlight, Separate, Held, StepEffect, Spent, HashesOf;
    var p := w.server.procs[q];
    if p.Finished? && p.reply.Granted? && p.reply.refresh.Some? && Spent(s', p.reply.refresh.value.hash) {
      SpentOnlyInFlight(w, s', r, draw, p.reply.refresh.value.hash);
      FlightCanRefresh(w);
      PendingIsNotInFlight(w, q);
    }
  }

  lemma FlightCanRefresh(w: World)
    requires SingleFlight(w) && w.tab.inFlight.Waiting?
    ensures CanRefresh(w.tab.inFlight.session)
  {
  }

  lemma OthersStand(s: State, s': State, r: RequestId, draw: Draw, q: RequestId)
    requires StepEffect(s, s', r, draw) && q != r && q in s'.procs
    ensures q in s.procs && s'.procs[q] == s.procs[q]
  {
    hide Spent, ReuseOnlyOfSpent, MakersDrew;
  }

  lemma StepKeepsNoReuse(w: World, s': State, r: RequestId, draw: Draw)
    requires TabInv(w) && StepEffect(w.server, s', r, draw) && !Done(w.server, r)
    ensures NoReuse(w.(server := s'))
  {
    hide Spent, ReuseSeen, GrantsUnspent, Held, Separate;
    var procs := w.server.procs;
    forall q | q in w.tab.sent && q in s'.procs && IsRefreshCall(RequestOf(s'.procs[q])) ensures !ReuseSeen(s'.procs[q]) {
      assert IsRefreshCall(RequestOf(procs[q])) && !ReuseSeen(procs[q]);
    }
  }

  lemma StepKeepsTab(w: World, s': State, r: RequestId, draw: Draw)
    requires TabInv(w) && ServerInv(w.server) && StepEffect(w.server, s', r, draw) && !Done(w.server, r)
    ensures TabInv(w.(server := s')) && ServerInv(s')
  {
    hide ServerInv, StepEffect, SingleFlight, Held, Unspent, NoReuse, Separate;
    ServerStepKeeps(w.server, s', r, draw);
    StepKeepsSeparate(w, s', r, draw);
    StepKeepsShape(w, s', r, draw);
    StepKeepsUnspent(w, s', r, draw);
    StepKeepsNoReuse(w, s', r, draw);
  }

  lemma FailHasEffect(s: State, r: RequestId, draw: Draw)
    requires Running(s, r)
    ensures StepEffect(s, Apply(s, Fail(r)), r, draw)
  {
    assert forall h :: Spent(Apply(s, Fail(r)), h) ==> Spent(s, h);
  }

  /** Purges, deletes and the clock move no request and spend no token. */
  ghost predicate Background(s: State, s': State) {
    && s'.procs == s.procs && s'.presented == s.presented && s'.tokens.makers == s.tokens.makers
    && NoNewSpent(s, s')
  }

  lemma EnvironmentIsBackground(s: State, a: Action)
    requires Enabled(s, a) && !a.Step? && !a.Fail? && !a.Arrive?
    ensures Background(s, Apply(s, a))
  {
    hide NormalizeScope;
  }

  lemma BackgroundKeepsTab(w: World, s': State)
    requires TabInv(w) && ServerInv(w.server) && Background(w.server, s')
    ensures TabInv(w.(server := s')) && ServerInv(s')
  {
    forall q | q in s'.procs ensures Remembered(s', q) { assert Remembered(w.server, q); }
    assert Separate(w.(server := s'));
  }

  /** A request arrives at the server. */
  ghost predicate Arrival(s: State, s': State, r: RequestId, req: Request) {
    && r !in s.procs && s'.procs == s.procs[r := Arrived(req)] && s'.presented == s.presented + HashesOf(req)
    && s'.tokens == s.tokens
  }

  lemma ArrivalKeepsServer(s: State, s': State, r: RequestId, req: Request)
    requires ServerInv(s) && Arrival(s, s', r, req)
    ensures ServerInv(s')
  {
    forall q | q in s'.procs ensures Remembered(s', q) {
      if q != r { assert Remembered(s, q); }
    }
  }

  /** Somebody else's request, presenting none of the tab's tokens. */
  lemma OutsiderKeepsTab(w: World, s': State, r: RequestId, req: Request)
    requires TabInv(w) && ServerInv(w.server) && Arrival(w.server, s', r, req)
    requires IsRefreshCall(req) ==> !Owned(w, PresentedBy(req))
    ensures TabInv(w.(server := s'))
  {
    var w' := w.(server := s');
    assert Separate(w') by {
      forall q | q in s'.procs && q !in w.tab.sent && IsRefreshCall(RequestOf(s'.procs[q]))
        ensures !Owned(w', PresentedBy(RequestOf(s'.procs[q])))
      {
        assert q != r ==> !Owned(w, PresentedBy(RequestOf(w.server.procs[q])));
      }
    }
    assert SingleFlight(w') && Held(w') && NoReuse(w');
    assert Unspent(w') by { SameSpent(w.server, s'); }
  }

  lemma SameSpent(s: State, s': State)
    requires s'.tokens == s.tokens
    ensures forall h :: Spent(s', h) <==> Spent(s, h)
  {
  }

  // ---- the tab moves ----

  /** The tab sends a request of its own; only a refresh may present a token, and then it is the one in flight. */
  ghost predicate Sends(w: World, w': World, r: RequestId, req: Request) {
    && Arrival(w.server, w'.server, r, req) && w'.tab.sent == w.tab.sent + {r}
    && w'.tab.stored == w.tab.stored
    && (if IsRefreshCall(req) then
          && w.tab.inFlight.Discovering? && w'.tab.inFlight == Waiting(w.tab.inFlight.session, r)
          && CanRefresh(w.tab.inFlight.session)
          && PresentedBy(req) == HashToken(w.tab.inFlight.session.refreshToken.value)
          && w'.tab.exchanges == w.tab.exchanges
        else
          && w'.tab.inFlight == w.tab.inFlight && w.tab.exchanges <= w'.tab.exchanges <= w.tab.exchanges + {r})
  }

  lemma SendingKeepsShape(w: World, w': World, r: RequestId, req: Request)
    requires SingleFlight(w) && Sends(w, w', r, req)
    ensures SingleFlight(w')
  {
  }

  lemma SendingKeepsHeld(w: World, w': World, r: RequestId, req: Request)
    requires SingleFlight(w) && Held(w) && ServerInv(w.server) && Sends(w, w', r, req)
    ensures Held(w')
  {
    hide Remembered, IsRefreshCall, HashesOf;
  }

  lemma SendingKeepsUnspent(w: World, w': World, r: RequestId, req: Request)
    requires SingleFlight(w) && Unspent(w) && Sends(w, w', r, req)
    ensures Unspent(w')
  {
    SameSpent(w.server, w'.server);
    hide Spent;
  }

  lemma SendingKeepsSafety(w: World, w': World, r: RequestId, req: Request)
    requires NoReuse(w) && Separate(w) && ServerInv(w.server) && Sends(w, w', r, req)
    ensures NoReuse(w') && Separate(w')
  {
    forall q | q in w'.server.procs && q !in w'.tab.sent && IsRefreshCall(RequestOf(w'.server.procs[q]))
      ensures !Owned(w', PresentedBy(RequestOf(w'.server.procs[q])))
    {
      assert q != r && !Owned(w, PresentedBy(RequestOf(w.server.procs[q])));
    }
  }

  lemma SendEventKeeps(w: World, e: Event)
    requires (e.Discovered? || e.SendCode? || e.SendRevoke?) && Possible(w, e)
    requires TabInv(w) && ServerInv(w.server)
    ensures TabInv(Next(w, e)) && ServerInv(Next(w, e).server)
  {
    hide TabInv, ServerInv, SingleFlight, Held, Unspent, NoReuse, Separate;
    var w' := Next(w, e);
    var req := RequestOf(w'.server.procs[e.r]);
    assert Sends(w, w', e.r, req);
    TabInvParts(w);
    SendingKeepsShape(w, w', e.r, req);
    SendingKeepsHeld(w, w', e.r, req);
    SendingKeepsUnspent(w, w', e.r, req);
    SendingKeepsSafety(w, w', e.r, req);
    ArrivalKeepsServer(w.server, w'.server, e.r, req);
    assert TabInv(w') by { TabInvFrom(w'); }
  }

  lemma TabInvParts(w: World)
    requires TabInv(w)
    ensures SingleFlight(w) && Held(w) && Unspent(w) && NoReuse(w) && Separate(w)
  {
  }

  lemma TabInvFrom(w: World)
    requires SingleFlight(w) && Held(w) && Unspent(w) && NoReuse(w) && Separate(w)
    ensures TabInv(w)
  {
  }

  /** A granted refresh always comes with the next refresh token. */
  lemma RefreshResponsesRotate(s: State, r: RequestId)
    requires Inv(s) && Done(s, r) && IsRefreshCall(RequestOf(s.procs[r])) && s.procs[r].reply.Granted?
    ensures s.procs[r].reply.refresh.Some?
  {
    hide Inv;
    TT.AnswerIsLawful(s, r);
  }

  /** Receiving the response of the refresh replaces the stored token by its unspent successor. */
  lemma ResponseKeeps(w: World, expiresAt: Time)
    requires Possible(w, Response(expiresAt))
    requires TabInv(w) && ServerInv(w.server) && Inv(w.server)
    ensures TabInv(Next(w, Response(expiresAt)))
  {
    hide Spent, ReuseSeen, Inv;
    var granted := w.server.procs[w.tab.inFlight.r].reply.Granted?;
    if granted { RefreshResponsesRotate(w.server, w.tab.inFlight.r); }
    var w', r := Next(w, Response(expiresAt)), w.tab.inFlight.r;
    assert Remembered(w.server, r);
    assert r in Pending(w.tab) && GrantsUnspent(w.server, w.server.procs[r]);
    assert Separate(w') && NoReuse(w');
    assert SingleFlight(w');
  }

  lemma CodeResponseKeepsShape(w: World, r: RequestId, expiresAt: Time)
    requires Possible(w, CodeResponse(r, expiresAt))
    requires SingleFlight(w) && Held(w) && Remembered(w.server, r)
    ensures SingleFlight(Next(w, CodeResponse(r, expiresAt))) && Held(Next(w, CodeResponse(r, expiresAt)))
  {
    hide IsRefreshCall, HashesOf;
  }

  lemma CodeResponseKeepsUnspent(w: World, r: RequestId, expiresAt: Time)
    requires Possible(w, CodeResponse(r, expiresAt))
    requires SingleFlight(w) && Unspent(w)
    ensures Unspent(Next(w, CodeResponse(r, expiresAt)))
  {
    hide Spent, IsRefreshCall;
    assert r in Pending(w.tab) && GrantsUnspent(w.server, w.server.procs[r]);
  }

  /** A sign-in completed meanwhile replaces the stored token by one that is unspent, too. */
  lemma CodeResponseKeeps(w: World, r: RequestId, expiresAt: Time)
    requires Possible(w, CodeResponse(r, expiresAt))
    requires TabInv(w) && ServerInv(w.server)
    ensures TabInv(Next(w, CodeResponse(r, expiresAt)))
  {
    hide Spent, ReuseSeen, SingleFlight, Held, Unspent;
    assert Remembered(w.server, r);
    CodeResponseKeepsShape(w, r, expiresAt);
    CodeResponseKeepsUnspent(w, r, expiresAt);
  }

  lemma LocalEventKeeps(w: World, e: Event)
    requires Possible(w, e) && (e.Caller? || e.DiscoveryFailed? || e.Finally? || e.ClearStorage?)
    requires TabInv(w)
    ensures TabInv(Next(w, e))
  {
    hide Spent, ReuseSeen;
    var w' := Next(w, e);
    assert Separate(w') && NoReuse(w') && SingleFlight(w');
  }

  // ---- any event, any run ----

  ghost predicate Good(w: World) { Inv(w.server) && ServerInv(w.server) && TabInv(w) }

  lemma ServerEventKeeps(w: World, a: Action)
    requires Possible(w, Server(a)) && Good(w)
    ensures Good(Next(w, Server(a)))
  {
    hide Inv, ServerInv, TabInv, StepProc, StepEffect, Background;
    var s, s' := w.server, Apply(w.server, a);
    ActionKeepsInv(s, a);
    if a.Step? {
      StepsHaveEffect(s, a.r, a.draw);
      StepKeepsTab(w, s', a.r, a.draw);
    } else if a.Fail? {
      var draw := Draw(TokenHash(""), FamilyID(""), Code(""));
      FailHasEffect(s, a.r, draw);
      StepKeepsTab(w, s', a.r, draw);
    } else if a.Arrive? {
      ArrivalKeepsServer(s, s', a.r, a.req);
      OutsiderKeepsTab(w, s', a.r, a.req);
    } else {
      EnvironmentIsBackground(s, a);
      BackgroundKeepsTab(w, s');
    }
  }

  lemma EventKeeps(w: World, e: Event)
    requires Possible(w, e) && Good(w)
    ensures Good(Next(w, e))
  {
    hide Inv, ServerInv, TabInv, Possible, Next;
    match e {
      case Server(a) => ServerEventKeeps(w, a);
      case Response(t) => ResponseKeeps(w, t); LocalServer(w, e);
      case CodeResponse(r, t) => CodeResponseKeeps(w, r, t); LocalServer(w, e);
      case Discovered(_, _) => SendEventKeeps(w, e); SendsArrive(w, e);
      case SendCode(_, _) => SendEventKeeps(w, e); SendsArrive(w, e);
      case SendRevoke(_, _) => SendEventKeeps(w, e); SendsArrive(w, e);
      case _ => LocalEventKeeps(w, e); LocalServer(w, e);
    }
  }

  lemma LocalServer(w: World, e: Event)
    requires Possible(w, e) && !e.Server? && !e.Discovered? && !e.SendCode? && !e.SendRevoke?
    ensures Next(w, e).server == w.server
  {
  }

  lemma SendsArrive(w: World, e: Event)
    requires Possible(w, e) && (e.Discovered? || e.SendCode? || e.SendRevoke?)
    requires Inv(w.server)
    ensures Inv(Next(w, e).server)
  {
    hide Inv, Apply;
    var req := match e
      case Discovered(_, clientID) => TokenCall(RefreshRequest(w.tab.inFlight.session, clientID))
      case SendCode(_, tok) => TokenCall(tok)
      case SendRevoke(_, rev) => RevokeCall(rev);
    ActionKeepsInv(w.server, Arrive(e.r, req));
  }

  ghost predicate PossibleRun(w: World, events: seq<Event>)
    decreases |events|
  {
    events != [] ==> Possible(w, events[0]) && PossibleRun(Next(w, events[0]), events[1..])
  }

  ghost function After(w: World, events: seq<Event>): World
    requires PossibleRun(w, events)
    decreases |events|
  {
    if events == [] then w else After(Next(w, events[0]), events[1..])
  }

  lemma {:induction false} EventsKeep(w: World, events: seq<Event>)
    requires PossibleRun(w, events) && Good(w)
    ensures Good(After(w, events))
    decreases |events|
  {
    hide Good, Possible, Next;
    if events != [] {
      EventKeeps(w, events[0]);
      EventsKeep(Next(w, events[0]), events[1..]);
    }
  }

  /** Server and tab at the beginning; whatever the server does before the tab's first event is part of the run. */
  ghost predicate FreshTab(w: World) {
    w.tab == Tab(None, Idle, {}, {}) && Initial(w.server)
  }

  /**
    The composition: however many callers ask for a refresh, and across failed
    refreshes, new sign-ins and a logout's revocation during a refresh, the
    server never takes either reuse branch for a request of the tab, and no
    request at all stands at a reuse branch with a token the tab was given.
   */
  lemma TabIsNeverCaughtReusing(w: World, events: seq<Event>)
    requires FreshTab(w) && PossibleRun(w, events)
    ensures var w' := After(w, events);
            && (forall r :: r in w'.tab.sent && r in w'.server.procs ==>
                  !w'.server.procs[r].RefreshRevoke?
                  && (IsRefreshCall(RequestOf(w'.server.procs[r])) ==>
                        w'.server.procs[r] != Finished(RequestOf(w'.server.procs[r]), Failed(RefreshReused))))
            && (forall q :: q in w'.server.procs && w'.server.procs[q].RefreshRevoke? ==> !Owned(w', w'.server.procs[q].rt.hash))
  {
    hide RL.Inv, MakersInv, FamiliesInv, IssuedLawfully, CodeLedgerInv, Unspent, Held, ProcInv;
    InitialInv(w.server);
    assert Good(w) by { FreshTabIsGood(w); }
    EventsKeep(w, events);
    var w' := After(w, events);
    forall q | q in w'.server.procs && w'.server.procs[q].RefreshRevoke?
      ensures q !in w'.tab.sent && !Owned(w', w'.server.procs[q].rt.hash)
    {
      assert GrantMatches(w'.server.procs[q]);
      assert IsRefreshCall(RequestOf(w'.server.procs[q]));
    }
  }

  lemma FreshTabIsGood(w: World)
    requires FreshTab(w)
    ensures Good(w)
  {
    InitialInv(w.server);
  }
}
