/**
  When a signed-in user's authorization request is answered with a code, and
  what the code's row says: the counterpart of ExchangeOutcome for Authorize.
 */
module AuthorizeOutcome {
  import opened Wrappers
  import opened Scopes
  import opened Domain
  import opened Authorize
  import opened TokenProtocol
  import opened TokenInvariants
  import opened TokenRuns
  import AC = AuthCodeStore
  import EO = ExchangeOutcome
  import RL = RotationLedger

  // ---- what decides ----

  /** The consent this request needs: for its client and the words of its scope. */
  function ConsentNeeded(auth: AuthorizeRequest, owner: UserID): Consent {
    Consent(owner, ClientID(auth.clientID), Join(Fields(auth.scope)))
  }

  /** The client may ask for this: a registered URI, response type, scopes and an S256 challenge. */
  predicate MayAsk(clients: Clients, auth: AuthorizeRequest) {
    && auth.clientID != "" && ClientID(auth.clientID) in clients
    && var c := clients[ClientID(auth.clientID)];
       && auth.redirectURI in c.redirectURIs
       && auth.responseType == "code" && "code" in c.responseTypes
       && "openid" in Fields(auth.scope) && ValueSet(auth.scope) <= c.allowedScopes + {"openid"}
       && auth.codeChallenge != "" && auth.codeChallengeMethod == "S256"
  }

  predicate MayAuthorize(s: State, auth: AuthorizeRequest, owner: UserID) {
    ConsentNeeded(auth, owner) in s.consents && MayAsk(s.clients, auth)
  }

  /** The code's row says what was asked for, by whom and since when signed in; it lasts ten minutes from its minting. */
  ghost predicate Issues(s0: State, s: State, auth: AuthorizeRequest, owner: UserID, authTime: Option<Time>,
                         ac: AuthorizationCode)
  {
    && ac.code in s.codes.rows
    && s.codes.rows[ac.code]
       == AC.CodeRow(ClientID(auth.clientID), owner, auth.redirectURI, Join(Fields(auth.scope)),
                     if auth.nonce == "" then None else Some(auth.nonce), auth.codeChallenge, authTime, ac.expiresAt)
    && s0.clock + 10 * MINUTE <= ac.expiresAt <= s.clock + 10 * MINUTE
  }

  // ---- an undisturbed request ----

  ghost predicate WorldStands(s0: State, s: State, auth: AuthorizeRequest) {
    var cid := ClientID(auth.clientID);
    && s0.clock <= s.clock
    && (cid in s.clients <==> cid in s0.clients) && (cid in s0.clients ==> s.clients[cid] == s0.clients[cid])
  }

  ghost predicate Undisturbed(ss: seq<State>, acts: seq<Action>, r: RequestId, auth: AuthorizeRequest, owner: UserID)
    requires Path(ss, acts)
  {
    forall m :: 0 <= m < |acts| ==>
      && (Moves(acts[m], r) ==> acts[m].Step?)
      && (!Moves(acts[m], r) ==>
            && WorldStands(ss[0], ss[m + 1], auth)
            && (ConsentNeeded(auth, owner) in ss[m + 1].consents <==> ConsentNeeded(auth, owner) in ss[m].consents))
  }

  // ---- what each program counter has settled ----

  ghost predicate SaveStands(s0: State, s: State, auth: AuthorizeRequest, owner: UserID, authTime: Option<Time>, p: Proc)
    requires p.AuthorizeSave?
  {
    && p.auth == auth && p.owner == owner && MayAuthorize(s0, auth, owner)
    && p.ac == AuthorizationCode(p.ac.code, ClientID(auth.clientID), owner, auth.redirectURI, p.ac.scope, auth.nonce,
                                 auth.codeChallenge, authTime, p.ac.expiresAt)
    && p.ac.scope.value == Join(Fields(auth.scope))
    && s0.clock + 10 * MINUTE <= p.ac.expiresAt <= s.clock + 10 * MINUTE
  }

  ghost predicate Answered(s0: State, s: State, auth: AuthorizeRequest, owner: UserID, authTime: Option<Time>, reply: Reply) {
    if reply.CodeIssued? then MayAuthorize(s0, auth, owner) && Issues(s0, s, auth, owner, authTime, reply.ac)
    else !MayAuthorize(s0, auth, owner)
  }

  ghost predicate OnTrack(s0: State, s: State, r: RequestId, auth: AuthorizeRequest, owner: UserID, authTime: Option<Time>) {
    && r in s.procs && WorldStands(s0, s, auth)
    && match s.procs[r]
       case Arrived(req) =>
         && req == AuthorizeCall(auth, owner, authTime)
         && (ConsentNeeded(auth, owner) in s.consents <==> ConsentNeeded(auth, owner) in s0.consents)
       case AuthorizeIssue(a, o, t) => a == auth && o == owner && t == authTime && ConsentNeeded(auth, owner) in s0.consents
       case AuthorizeSave(_, _, _, _) => SaveStands(s0, s, auth, owner, authTime, s.procs[r])
       case Finished(_, reply) => Answered(s0, s, auth, owner, authTime, reply)
       case _ => false
  }

  // ---- the steps ----

  lemma ValidatesExactly(clients: Clients, auth: AuthorizeRequest)
    ensures Validate(clients, auth).error.None? <==> MayAsk(clients, auth)
    ensures MayAsk(clients, auth) ==> ParseAuth(auth.scope).Ok?
  {
    hide Validate, Fields;
    AcceptedExactly(clients, auth);
    assert OPENID in Fields(auth.scope) <==> OPENID in ValueSet(auth.scope);
  }

  lemma ArrivalStep(s0: State, s: State, r: RequestId, auth: AuthorizeRequest, owner: UserID, authTime: Option<Time>)
    requires Running(s, r) && s.procs[r].Arrived? && OnTrack(s0, s, r, auth, owner, authTime)
    ensures OnTrack(s0, StepArrived(s, r, s.procs[r].req), r, auth, owner, authTime)
  {
    hide NoInsert, Fields, Issues;
  }

  lemma IssueStep(s0: State, s: State, r: RequestId, auth: AuthorizeRequest, owner: UserID, authTime: Option<Time>, draw: Draw)
    requires Running(s, r) && s.procs[r].AuthorizeIssue? && OnTrack(s0, s, r, auth, owner, authTime)
    ensures OnTrack(s0, StepAuthorizeIssue(s, r, s.procs[r], draw), r, auth, owner, authTime)
  {
    hide NoInsert, Fields, Issues, Validate, MayAsk, Join;
    ValidatesExactly(s.clients, auth);
    assert MayAsk(s.clients, auth) <==> MayAsk(s0.clients, auth) by { SameAsk(s0, s, auth); }
  }

  lemma SameAsk(s0: State, s: State, auth: AuthorizeRequest)
    requires WorldStands(s0, s, auth)
    ensures MayAsk(s.clients, auth) <==> MayAsk(s0.clients, auth)
  {
    hide Fields;
  }

  lemma SaveStep(s0: State, s: State, r: RequestId, auth: AuthorizeRequest, owner: UserID, authTime: Option<Time>)
    requires Running(s, r) && s.procs[r].AuthorizeSave? && OnTrack(s0, s, r, auth, owner, authTime)
    requires s.procs[r].ac.code !in s.codes.rows
    ensures OnTrack(s0, StepAuthorizeSave(s, r, s.procs[r]), r, auth, owner, authTime)
  {
    hide Fields, MayAuthorize, Join;
  }

  lemma StepStaysOnTrack(s0: State, s: State, r: RequestId, auth: AuthorizeRequest, owner: UserID, authTime: Option<Time>,
                         draw: Draw)
    requires Running(s, r) && OnTrack(s0, s, r, auth, owner, authTime)
    requires s.procs[r].AuthorizeSave? ==> s.procs[r].ac.code !in s.codes.rows
    ensures OnTrack(s0, StepProc(s, r, s.procs[r], draw), r, auth, owner, authTime)
  {
    hide StepArrived, StepAuthorizeIssue, StepAuthorizeSave, WorldStands, SaveStands, Answered;
    var p := s.procs[r];
    if p.Arrived? { ArrivalStep(s0, s, r, auth, owner, authTime); }
    else if p.AuthorizeIssue? { IssueStep(s0, s, r, auth, owner, authTime, draw); }
    else if p.AuthorizeSave? { SaveStep(s0, s, r, auth, owner, authTime); }
  }

  lemma OthersLeaveOnTrack(s0: State, s: State, a: Action, r: RequestId, auth: AuthorizeRequest, owner: UserID,
                           authTime: Option<Time>)
    requires Enabled(s, a) && !Moves(a, r) && Running(s, r) && OnTrack(s0, s, r, auth, owner, authTime)
    requires WorldStands(s0, Apply(s, a), auth)
    requires ConsentNeeded(auth, owner) in Apply(s, a).consents <==> ConsentNeeded(auth, owner) in s.consents
    ensures OnTrack(s0, Apply(s, a), r, auth, owner, authTime)
  {
    hide StepProc, MayAuthorize;
    OthersStay(s, a, r);
    assert s.clock <= Apply(s, a).clock by { EO.ClockAdvances(s, a); }
  }

  // ---- the theorem ----

  lemma SavesNewCode(s: State, r: RequestId)
    requires Inv(s) && Running(s, r) && s.procs[r].AuthorizeSave?
    ensures s.procs[r].ac.code !in s.codes.rows
  {
    hide RL.Inv, IssuedLawfully, ProcInv;
    assert ProcInv(s, r, s.procs[r]);
    PendingIsUnstored(s, r);
  }

  lemma NextOnTrack(ss: seq<State>, acts: seq<Action>, r: RequestId, auth: AuthorizeRequest, owner: UserID,
                    authTime: Option<Time>, m: nat)
    requires Path(ss, acts) && Undisturbed(ss, acts, r, auth, owner) && m < |acts|
    requires Running(ss[m], r) && OnTrack(ss[0], ss[m], r, auth, owner, authTime)
    requires Inv(ss[m])
    ensures OnTrack(ss[0], ss[m + 1], r, auth, owner, authTime)
  {
    assert |ss| == |acts| + 1;
    assert StepOf(ss, acts, m);
    hide Inv, StepProc, OnTrack, WorldStands, Path, ConsentNeeded;
    if Moves(acts[m], r) {
      if ss[m].procs[r].AuthorizeSave? { SavesNewCode(ss[m], r); }
      StepStaysOnTrack(ss[0], ss[m], r, auth, owner, authTime, acts[m].draw);
    } else {
      OthersLeaveOnTrack(ss[0], ss[m], acts[m], r, auth, owner, authTime);
    }
  }

  lemma {:induction false} StaysOnTrack(ss: seq<State>, acts: seq<Action>, r: RequestId, auth: AuthorizeRequest,
                                        owner: UserID, authTime: Option<Time>, m: nat)
    requires Served(ss, acts, r, AuthorizeCall(auth, owner, authTime)) && Undisturbed(ss, acts, r, auth, owner)
    requires m <= |acts| && Inv(ss[0])
    ensures OnTrack(ss[0], ss[m], r, auth, owner, authTime)
    decreases m
  {
    assert |ss| == |acts| + 1;
    hide Inv, StepProc, Path, Undisturbed;
    if m > 0 {
      hide OnTrack;
      StaysOnTrack(ss, acts, r, auth, owner, authTime, m - 1);
      PathKeepsInv(ss, acts, m - 1);
      NextOnTrack(ss, acts, r, auth, owner, authTime, m - 1);
    }
  }

  /**
    An authorization request that nothing disturbs is answered with a code
    exactly if, on its arrival, its owner's consent to this client for these
    words is recorded and the client may ask for it. The code's row then says
    what was asked for, names the owner and its sign-in, and lasts ten minutes.
   */
  lemma CodeIssuedExactly(ss: seq<State>, acts: seq<Action>, r: RequestId, auth: AuthorizeRequest, owner: UserID,
                          authTime: Option<Time>)
    requires Served(ss, acts, r, AuthorizeCall(auth, owner, authTime))
    requires Reachable(ss[0]) && Undisturbed(ss, acts, r, auth, owner)
    ensures ss[|acts|].procs[r].reply.CodeIssued? <==> MayAuthorize(ss[0], auth, owner)
    ensures MayAuthorize(ss[0], auth, owner) ==>
              Issues(ss[0], ss[|acts|], auth, owner, authTime, ss[|acts|].procs[r].reply.ac)
  {
    assert |ss| == |acts| + 1;
    hide Inv, Reachable, Undisturbed, MayAuthorize, Issues, Path, WorldStands;
    ReachableInv(ss[0]);
    StaysOnTrack(ss, acts, r, auth, owner, authTime, |acts|);
  }

  lemma LoneAuthorization(s: State, r: RequestId, auth: AuthorizeRequest, owner: UserID, authTime: Option<Time>)
    returns (ss: seq<State>, acts: seq<Action>)
    requires Reachable(s) && r in s.procs && s.procs[r] == Arrived(AuthorizeCall(auth, owner, authTime))
    ensures Served(ss, acts, r, AuthorizeCall(auth, owner, authTime)) && ss[0] == s && |acts| <= 7
    ensures ss[|acts|].procs[r].reply.CodeIssued? <==> MayAuthorize(s, auth, owner)
    ensures MayAuthorize(s, auth, owner) ==> Issues(s, ss[|acts|], auth, owner, authTime, ss[|acts|].procs[r].reply.ac)
  {
    hide Reachable, MayAuthorize, Issues, WorldStands, StepOf;
    ss, acts := EndsAlone(s, r);
    CodeIssuedExactly(ss, acts, r, auth, owner, authTime);
  }
}
