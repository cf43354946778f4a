/**
  One complete run of the token protocol, step by step: a consented
  authorization and the exchange of its code. It shows that the states the
  counterexamples start from do occur.
 */
module TokenWitness {
  import opened Wrappers
  import opened Scopes
  import opened Domain
  import opened Pkce
  import opened Authorize
  import opened TokenProtocol
  import AC = AuthCodeStore
  import TT = TokenTheorems

  // ---- runs grow at the end ----

  lemma {:induction false} RunAppends(s: State, acts: seq<Action>, a: Action)
    requires Legal(s, acts) && Enabled(Run(s, acts), a)
    ensures Legal(s, acts + [a]) && Run(s, acts + [a]) == Apply(Run(s, acts), a)
    decreases |acts|
  {
    hide Enabled, Apply;
    if acts == [] {
      assert acts + [a] == [a] && [a][1..] == [];
    } else {
      assert (acts + [a])[0] == acts[0] && (acts + [a])[1..] == acts[1..] + [a];
      RunAppends(Apply(s, acts[0]), acts[1..], a);
    }
  }

  lemma StaysReachable(s: State, a: Action)
    requires Reachable(s) && Enabled(s, a)
    ensures Reachable(Apply(s, a))
  {
    hide Enabled, Apply, Initial;
    var s0, acts :| Initial(s0) && Legal(s0, acts) && Run(s0, acts) == s;
    RunAppends(s0, acts, a);
    assert Run(s0, acts + [a]) == Apply(s, a);
  }

  // ---- the parties ----

  const USER := UserID("u")
  const CID := ClientID("c")
  const SITE := "s"
  const SCOPE := ScopeOf([OPENID, OFFLINE_ACCESS])
  const CLIENT := Client(None, {SITE}, {OFFLINE_ACCESS}, {CODE_RESPONSE}, {AUTHORIZATION_CODE, REFRESH_TOKEN})
  const CONSENT := Consent(USER, CID, SCOPE.value)
  const ASKS := RequestId(1)
  const REDEEMS := RequestId(2)

  function Verifier(): string { seq(VERIFIER_MIN_LEN, _ => 'a') }

  function Auth(): AuthorizeRequest {
    AuthorizeRequest(CODE_RESPONSE, CID.value, SITE, SCOPE.value, "", "", DeriveChallenge(Verifier()), "S256")
  }

  /** The world around the tables, which the run leaves alone. */
  ghost predicate Setting(s: State) {
    && s.clock == 0 && s.clients == map[CID := CLIENT] && s.users == {USER} && CONSENT in s.consents
    && s.procs.Keys <= {ASKS, REDEEMS}
  }

  function Beginning(): State {
    State(0, map[CID := CLIENT], {USER}, {CONSENT}, {CONSENT}, CodeLedger(map[], map[], map[], map[]),
          TokenLedger(map[], map[], map[], map[], {}, map[], map[]), {}, map[])
  }

  lemma BeginningIsReachable()
    ensures Reachable(Beginning()) && Setting(Beginning())
  {
    assert Initial(Beginning());
    assert Legal(Beginning(), []) && Run(Beginning(), []) == Beginning();
  }

  lemma ScopeFacts()
    ensures Canonical(SCOPE) && OPENID in SCOPE.values && SCOPE.values <= CLIENT.allowedScopes + {OPENID}
    ensures SCOPE.Has(OFFLINE_ACCESS) && ParseRefresh(SCOPE.value).Ok?
    ensures ParseAuth(SCOPE.value) == Ok(SCOPE) && NormalizeScope(SCOPE.value) == Ok(SCOPE.value)
  {
    var ws := [OPENID, OFFLINE_ACCESS];
    assert OPENID[0] == 'o' && OFFLINE_ACCESS[0] == 'o';
    assert IsField(OPENID) && IsField(OFFLINE_ACCESS);
    FieldsOfJoin(ws);
    hide Fields, Join;
    assert ws[0] in SCOPE.values && ws[1] in SCOPE.values;
    ReloadPreservesScope(SCOPE);
  }

  lemma RequestIsAccepted(s: State)
    requires Setting(s)
    ensures Validate(s.clients, Auth()).error.None?
  {
    hide Join, Fields, DeriveChallenge;
    ScopeFacts();
    ChallengeShape(Verifier());
  }

  lemma VerifierPasses()
    ensures VerifyChallenge(DeriveChallenge(Verifier()), Verifier()).Ok?
  {
    hide DeriveChallenge;
  }

  // ---- authorization ----

  ghost predicate At(s: State, r: RequestId, p: Proc) {
    Reachable(s) && Setting(s) && r in s.procs && s.procs[r] == p
  }

  lemma Asks() returns (s: State)
    ensures At(s, ASKS, AuthorizeIssue(Auth(), USER, None)) && REDEEMS !in s.procs
  {
    hide Reachable, NormalizeScope, Join;
    BeginningIsReachable();
    ScopeFacts();
    var call := AuthorizeCall(Auth(), USER, None);
    var s0 := Beginning();
    var s1 := Apply(s0, Arrive(ASKS, call));
    StaysReachable(s0, Arrive(ASKS, call));
    var draw := TT.FreshDraw(s1);
    s := Apply(s1, Step(ASKS, draw));
    StaysReachable(s1, Step(ASKS, draw));
  }

  /** A code of the user for the client, not yet redeemed. */
  ghost predicate Stored(s: State, ac: AuthorizationCode) {
    && ac.code in s.codes.rows && s.codes.rows[ac.code] == AC.RowOf(ac)
    && ac.client == CID && ac.user == USER && ac.redirectURI == SITE && ac.scope == SCOPE
    && ac.challenge == DeriveChallenge(Verifier()) && ac.expiresAt == CODE_TTL
  }

  function CodeFrom(draw: Draw): AuthorizationCode
    requires ParseAuth(Auth().scope).Ok?
  {
    MintCode(draw.code, USER, Auth(), None, 0)
  }

  lemma IssuesCode() returns (s: State, draw: Draw)
    ensures ParseAuth(Auth().scope).Ok?
    ensures At(s, ASKS, AuthorizeSave(Auth(), USER, CodeFrom(draw), CLIENT.allowedScopes)) && REDEEMS !in s.procs
    ensures draw.code.value != ""
  {
    hide Reachable, Validate, Join, ParseAuth, MintCode;
    var s1 := Asks();
    ScopeFacts();
    RequestIsAccepted(s1);
    draw := TT.FreshDraw(s1);
    s := Apply(s1, Step(ASKS, draw));
    StaysReachable(s1, Step(ASKS, draw));
  }

  lemma SaveStores(s: State, r: RequestId, draw: Draw)
    requires Running(s, r) && s.procs[r].AuthorizeSave? && s.procs[r].ac.code !in s.codes.rows
    ensures var p, s' := s.procs[r], StepProc(s, r, s.procs[r], draw);
            && OnlyMoves(s, s', r) && SameWorld(s, s')
            && s'.procs[r] == Finished(AuthorizeCall(p.auth, p.owner, p.ac.authTime), CodeIssued(p.ac))
            && p.ac.code in s'.codes.rows && s'.codes.rows[p.ac.code] == AC.RowOf(p.ac)
  {
  }

  lemma SavesCode() returns (s: State, ac: AuthorizationCode)
    ensures At(s, ASKS, Finished(AuthorizeCall(Auth(), USER, None), CodeIssued(ac))) && REDEEMS !in s.procs && Stored(s, ac)
    ensures ac.code.value != ""
  {
    hide Reachable, Validate, Join, ParseAuth, StepProc, AC.RowOf;
    var s2, draw := IssuesCode();
    ScopeFacts();
    ac := CodeFrom(draw);
    TT.PendingCodeIsUnstored(s2, ASKS);
    var draw2 := TT.FreshDraw(s2);
    SaveStores(s2, ASKS, draw2);
    s := Apply(s2, Step(ASKS, draw2));
    StaysReachable(s2, Step(ASKS, draw2));
  }

  // ---- the exchange ----

  function Exchange(ac: AuthorizationCode): TokenRequest {
    TokenRequest(AUTHORIZATION_CODE, ac.code.value, SITE, CID.value, "", Verifier(), "", "")
  }

  lemma Presents() returns (s: State, ac: AuthorizationCode)
    ensures At(s, REDEEMS, CodeFind(Exchange(ac), CID, CLIENT)) && Stored(s, ac) && ac.code.value != ""
  {
    hide Reachable, Join;
    var s1;
    s1, ac := SavesCode();
    var tok := Exchange(ac);
    var s2 := Apply(s1, Arrive(REDEEMS, TokenCall(tok)));
    StaysReachable(s1, Arrive(REDEEMS, TokenCall(tok)));
    var draw := TT.FreshDraw(s2);
    s := Apply(s2, Step(REDEEMS, draw));
    StaysReachable(s2, Step(REDEEMS, draw));
  }

  lemma Finds() returns (s: State, ac: AuthorizationCode)
    ensures At(s, REDEEMS, CodeVerify(Exchange(ac), CID, CLIENT, ac)) && Stored(s, ac)
  {
    hide Reachable, Join, DeriveChallenge, AC.Reconstruct;
    var s1;
    s1, ac := Presents();
    ScopeFacts();
    ChallengeShape(Verifier());
    AC.StoredCodeReloads(ac);
    var draw := TT.FreshDraw(s1);
    s := Apply(s1, Step(REDEEMS, draw));
    StaysReachable(s1, Step(REDEEMS, draw));
  }

  /** The exchange has verified its code and is about to consume it. */
  lemma Verifies() returns (s: State, ac: AuthorizationCode)
    ensures At(s, REDEEMS, CodeConsume(Exchange(ac), CID, CLIENT, ac)) && Stored(s, ac)
  {
    hide Reachable, Join, DeriveChallenge, VerifyChallenge;
    var s1;
    s1, ac := Finds();
    VerifierPasses();
    var draw := TT.FreshDraw(s1);
    s := Apply(s1, Step(REDEEMS, draw));
    StaysReachable(s1, Step(REDEEMS, draw));
  }

  /** The exchange has found the owner and is about to mint. */
  lemma FindsOwner() returns (s: State, ac: AuthorizationCode)
    ensures At(s, REDEEMS, CodeMint(Exchange(ac), CID, CLIENT, ac)) && ac.user == USER && ac.scope == SCOPE
  {
    hide Reachable, Join, DeriveChallenge;
    var s1;
    s1, ac := Verifies();
    var draw := TT.FreshDraw(s1);
    var s2 := Apply(s1, Step(REDEEMS, draw));
    StaysReachable(s1, Step(REDEEMS, draw));
    var draw2 := TT.FreshDraw(s2);
    s := Apply(s2, Step(REDEEMS, draw2));
    StaysReachable(s2, Step(REDEEMS, draw2));
  }

  /** The exchange is about to store the refresh token it minted. */
  lemma Mints() returns (s: State)
    ensures Reachable(s) && Setting(s) && REDEEMS in s.procs && s.procs[REDEEMS].CodeSave? && s.procs[REDEEMS].ac.user == USER
  {
    hide Reachable, Join, ParseRefresh;
    var s1, ac := FindsOwner();
    ScopeFacts();
    var draw := TT.FreshDraw(s1);
    s := Apply(s1, Step(REDEEMS, draw));
    StaysReachable(s1, Step(REDEEMS, draw));
  }
}
