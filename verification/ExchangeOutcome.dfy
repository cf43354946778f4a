/**
  When an authorization code is exchanged, and for what. While nothing else
  touches what an exchange depends on, its answer is settled by the state it
  arrives in: by the stored row, the client's record and the request alone.
 */
module ExchangeOutcome {
  import opened Wrappers
  import opened Scopes
  import opened Domain
  import opened Base64Url
  import opened Pkce
  import opened TokenProtocol
  import opened TokenInvariants
  import opened TokenRuns
  import RT = RefreshTokenStore
  import AC = AuthCodeStore
  import RL = RotationLedger
  import TT = TokenTheorems

  // ---- what decides ----

  /** The client is known, may use this grant, and shows its secret if it has one. */
  predicate ClientPasses(s: State, tok: TokenRequest) {
    && tok.clientID != "" && ClientID(tok.clientID) in s.clients
    && var c := s.clients[ClientID(tok.clientID)];
       && tok.grantType in c.grantTypes
       && (c.secret.Some? ==> tok.clientSecret != "" && tok.clientSecret == c.secret.value)
  }

  /** Section 4.6 of RFC 7636 for S256, on a verifier of the form section 4.1 asks for. */
  predicate ProvesKey(verifier: string, challenge: string) {
    && 43 <= |verifier| <= 128
    && (forall i :: 0 <= i < |verifier| ==>
          var c := verifier[i]; 'A' <= c <= 'Z' || 'a' <= c <= 'z' || '0' <= c <= '9' || c in "-._~")
    && Encode(Sha256(Bytes(verifier))) == challenge
  }

  /** The code is stored, not expired, and was issued for this client, redirect URI and verifier. */
  predicate CodeMatches(s: State, tok: TokenRequest) {
    Code(tok.code) in s.codes.rows
    && var row := s.codes.rows[Code(tok.code)];
       && s.clock < row.expiresAt && row.client == ClientID(tok.clientID) && row.redirectURI == tok.redirectURI
       && ProvesKey(tok.codeVerifier, row.challenge)
  }

  predicate MayExchange(s: State, tok: TokenRequest) {
    ClientPasses(s, tok) && tok.code != "" && CodeMatches(s, tok) && s.codes.rows[Code(tok.code)].user in s.users
  }

  /** The client is registered for the refresh grant and the code's scope contains offline_access. */
  predicate EarnsRefresh(s: State, tok: TokenRequest)
    requires MayExchange(s, tok)
  {
    && "refresh_token" in s.clients[ClientID(tok.clientID)].grantTypes
    && "offline_access" in ValueSet(s.codes.rows[Code(tok.code)].scope)
  }

  /** The error code of section 5.2 of RFC 6749 for a client that does not pass, and the status that goes with it. */
  function ClientRefusal(s: State, tok: TokenRequest): (string, nat)
    requires !ClientPasses(s, tok)
  {
    var cid := ClientID(tok.clientID);
    if tok.clientID == "" then ("invalid_request", 400)
    else if cid !in s.clients then ("invalid_client", 400)
    else if tok.grantType !in s.clients[cid].grantTypes then ("unsupported_grant_type", 400)
    else ("invalid_client", 401)
  }

  /** Whatever is wrong with the code itself looks the same from outside. */
  function Refusal(s: State, tok: TokenRequest): (string, nat) {
    if ClientPasses(s, tok) then ("invalid_grant", 400) else ClientRefusal(s, tok)
  }

  predicate RefusedWith(reply: Reply, refusal: (string, nat)) {
    && reply.Failed? && TokenErrorCode(reply.error).code == refusal.0 && TokenErrorCode(reply.error).status == refusal.1
  }

  /** What a granted exchange hands out, read off the row its code had. */
  ghost predicate Handed(s0: State, s: State, tok: TokenRequest, reply: Reply)
    requires MayExchange(s0, tok) && reply.Granted?
  {
    var x, cid := Code(tok.code), ClientID(tok.clientID);
    var row := s0.codes.rows[x];
    && reply.client == cid && reply.user == row.user && reply.authTime == row.authTime
    && Fields(reply.scope.value) == Fields(row.scope) && reply.scope.values == ValueSet(row.scope)
    && x !in s.codes.rows
    && (reply.refresh.Some? <==> EarnsRefresh(s0, tok))
    && (reply.refresh.Some? ==> StoredFirst(s0, s, row, reply.scope, reply.refresh.value))
  }

  /** The new refresh token's row: for thirty days from when it was minted. */
  ghost predicate StoredFirst(s0: State, s: State, row: AC.CodeRow, scope: Scope, rt: RefreshToken) {
    && rt.hash in s.tokens.rows
    && s.tokens.rows[rt.hash]
       == RT.TokenRow(rt.family, row.client, row.user, scope.value, row.authTime, rt.expiresAt, false)
    && s0.clock + 30 * 24 * HOUR <= rt.expiresAt <= s.clock + 30 * 24 * HOUR
  }

  // ---- an undisturbed exchange ----

  /** Client record and owner stand as on arrival, and the code has not expired meanwhile. */
  ghost predicate WorldStands(s0: State, s: State, tok: TokenRequest) {
    var cid, x := ClientID(tok.clientID), Code(tok.code);
    && s0.clock <= s.clock
    && (cid in s.clients <==> cid in s0.clients) && (cid in s0.clients ==> s.clients[cid] == s0.clients[cid])
    && (x in s0.codes.rows ==>
          var row := s0.codes.rows[x];
          && (row.user in s.users <==> row.user in s0.users)
          && (s.clock < row.expiresAt <==> s0.clock < row.expiresAt))
  }

  ghost predicate RowStands(s: State, s': State, x: Code) {
    (x in s'.codes.rows <==> x in s.codes.rows) && (x in s.codes.rows ==> s'.codes.rows[x] == s.codes.rows[x])
  }

  /** Whatever else happens while r runs touches neither client, owner nor code, and r meets no failure. */
  ghost predicate Undisturbed(ss: seq<State>, acts: seq<Action>, r: RequestId, tok: TokenRequest)
    requires Path(ss, acts)
  {
    forall m :: 0 <= m < |acts| ==>
      && (Moves(acts[m], r) ==> acts[m].Step?)
      && (!Moves(acts[m], r) ==> WorldStands(ss[0], ss[m + 1], tok) && RowStands(ss[m], ss[m + 1], Code(tok.code)))
  }

  // ---- what each program counter has settled ----

  ghost predicate ReadAs(row: AC.CodeRow, tok: TokenRequest, ac: AuthorizationCode) {
    && ac.code == Code(tok.code) && ac.client == row.client && ac.user == row.user && ac.redirectURI == row.redirectURI
    && ac.challenge == row.challenge && ac.authTime == row.authTime && ac.expiresAt == row.expiresAt
    && Canonical(ac.scope) && Fields(ac.scope.value) == Fields(row.scope)
  }

  /** The request is past client resolution, with the client's record of then. */
  ghost predicate Resolved(s0: State, tok: TokenRequest, p: Proc)
    requires p.CodeFind? || p.CodeVerify? || p.CodeConsume? || p.CodeOwner? || p.CodeMint?
  {
    && p.tok == tok && p.cid == ClientID(tok.clientID) && ClientPasses(s0, tok) && tok.code != ""
    && p.client == s0.clients[p.cid]
  }

  /** The request is past the lookup of its code. */
  ghost predicate Located(s0: State, tok: TokenRequest, ac: AuthorizationCode) {
    && Code(tok.code) in s0.codes.rows && s0.clock < s0.codes.rows[Code(tok.code)].expiresAt
    && ReadAs(s0.codes.rows[Code(tok.code)], tok, ac)
  }

  ghost predicate Answered(s0: State, s: State, tok: TokenRequest, reply: Reply) {
    if reply.Granted? then MayExchange(s0, tok) && Handed(s0, s, tok, reply)
    else !MayExchange(s0, tok) && RefusedWith(reply, Refusal(s0, tok))
  }

  ghost predicate SaveStands(s0: State, s: State, tok: TokenRequest, p: Proc)
    requires p.CodeSave?
  {
    && p.tok == tok && p.cid == ClientID(tok.clientID) && MayExchange(s0, tok) && EarnsRefresh(s0, tok)
    && Located(s0, tok, p.ac) && Code(tok.code) !in s.codes.rows
    && p.rt == RefreshToken(p.rt.hash, p.rt.family, p.cid, p.ac.user, p.ac.scope, p.ac.authTime, p.rt.expiresAt, false)
    && s0.clock + 30 * 24 * HOUR <= p.rt.expiresAt <= s.clock + 30 * 24 * HOUR
  }

  ghost predicate CounterStands(s0: State, s: State, tok: TokenRequest, p: Proc) {
    match p
    case Arrived(req) => req == TokenCall(tok)
    case CodeFind(_, _, _) => Resolved(s0, tok, p)
    case CodeVerify(_, _, _, ac) => Resolved(s0, tok, p) && Located(s0, tok, ac)
    case CodeConsume(_, _, _, ac) => Resolved(s0, tok, p) && Located(s0, tok, ac) && CodeMatches(s0, tok)
    case CodeOwner(_, _, _, ac) =>
      Resolved(s0, tok, p) && Located(s0, tok, ac) && CodeMatches(s0, tok) && Code(tok.code) !in s.codes.rows
    case CodeMint(_, _, _, ac) =>
      Resolved(s0, tok, p) && Located(s0, tok, ac) && MayExchange(s0, tok) && Code(tok.code) !in s.codes.rows
    case CodeSave(_, _, _, _) => SaveStands(s0, s, tok, p)
    case Finished(req, reply) => req == TokenCall(tok) && Answered(s0, s, tok, reply)
    case _ => false
  }

  /** How far r has got, and what of MayExchange it has found true. */
  ghost predicate OnTrack(s0: State, s: State, r: RequestId, tok: TokenRequest) {
    && r in s.procs && WorldStands(s0, s, tok) && CounterStands(s0, s, tok, s.procs[r])
    && (s.procs[r].Arrived? || s.procs[r].CodeFind? || s.procs[r].CodeVerify? || s.procs[r].CodeConsume? ==>
          RowStands(s0, s, Code(tok.code)))
  }

  ghost predicate ReadsBack(s: State, x: Code) {
    x in s.codes.rows ==> ParseAuth(s.codes.rows[x].scope).Ok? && s.codes.rows[x].challenge != ""
  }

  // ---- the steps ----

  lemma KeyIsProven(challenge: string, verifier: string)
    ensures VerifyChallenge(challenge, verifier).Ok? <==> ProvesKey(verifier, challenge)
    ensures ProvesKey(verifier, challenge) ==> challenge != ""
  {
    ChallengeShape(verifier);
    assert WellFormedVerifier(verifier) ==> forall i :: 0 <= i < |verifier| ==> IsUnreserved(verifier[i]);
  }

  lemma ResolvesExactly(s: State, tok: TokenRequest)
    ensures ResolveClient(s.clients, tok).Ok? <==> ClientPasses(s, tok)
    ensures ClientPasses(s, tok) ==> ResolveClient(s.clients, tok).value == s.clients[ClientID(tok.clientID)]
    ensures !ClientPasses(s, tok) ==> RefusedWith(Failed(ResolveClient(s.clients, tok).error), ClientRefusal(s, tok))
  {
    hide TokenErrorCode, RefusedWith;
    MissingClientSays();
    UnknownClientSays();
    OtherGrantSays();
    WrongSecretSays();
  }

  lemma MissingClientSays()
    ensures RefusedWith(Failed(InvalidClientID), ("invalid_request", 400))
  {
  }

  lemma UnknownClientSays()
    ensures RefusedWith(Failed(ClientNotFound), ("invalid_client", 400))
  {
  }

  lemma OtherGrantSays()
    ensures RefusedWith(Failed(UnsupportedGrantType), ("unsupported_grant_type", 400))
  {
  }

  lemma WrongSecretSays()
    ensures RefusedWith(Failed(ClientAuthFailed), ("invalid_client", 401))
  {
  }

  /** What is wrong with a code, or with its owner. */
  predicate IsCodeError(e: Error) {
    || e.CodeNotFound? || e.CodeExpired? || e.RedirectURIMismatch? || e.CodeClientMismatch?
    || e.PKCEVerificationFailed? || e.InvalidCodeVerifier?
  }

  lemma MissingCodeSays()
    ensures RefusedWith(Failed(CodeNotFound), ("invalid_grant", 400))
  {
  }

  lemma ExpiredCodeSays()
    ensures RefusedWith(Failed(CodeExpired), ("invalid_grant", 400))
  {
  }

  lemma OtherURISays()
    ensures RefusedWith(Failed(RedirectURIMismatch), ("invalid_grant", 400))
  {
  }

  lemma ForeignCodeSays()
    ensures RefusedWith(Failed(CodeClientMismatch), ("invalid_grant", 400))
  {
  }

  lemma WrongKeySays()
    ensures RefusedWith(Failed(PKCEVerificationFailed), ("invalid_grant", 400))
  {
  }

  lemma MalformedKeySays()
    ensures RefusedWith(Failed(InvalidCodeVerifier), ("invalid_grant", 400))
  {
  }

  lemma CodeErrorsLookAlike(e: Error)
    requires IsCodeError(e)
    ensures RefusedWith(Failed(e), ("invalid_grant", 400))
  {
    hide TokenErrorCode, RefusedWith;
    MissingCodeSays();
    ExpiredCodeSays();
    OtherURISays();
    ForeignCodeSays();
    WrongKeySays();
    MalformedKeySays();
  }

  lemma MissingOwnerLooksAlike()
    ensures RefusedWith(Failed(UserNotFound), ("invalid_grant", 400))
  {
  }

  /**
    Status and code are those of any bad grant, as the comment in response.go
    promises of a missing owner; the description is not: no other error has it.
   */
  lemma MissingOwnerIsTold(e: Error)
    ensures TokenErrorCode(e).description == TokenErrorCode(UserNotFound).description <==> e.UserNotFound?
  {
  }

  lemma RefusalOf(s: State, tok: TokenRequest)
    ensures ClientPasses(s, tok) ==> Refusal(s, tok) == ("invalid_grant", 400)
    ensures !ClientPasses(s, tok) ==> Refusal(s, tok) == ClientRefusal(s, tok)
  {
  }

  lemma SameRefusal(s0: State, s: State, tok: TokenRequest)
    requires WorldStands(s0, s, tok) && !ClientPasses(s, tok) && !ClientPasses(s0, tok)
    ensures ClientRefusal(s, tok) == ClientRefusal(s0, tok)
  {
  }

  lemma ArrivalStep(s0: State, s: State, r: RequestId, tok: TokenRequest)
    requires Running(s, r) && s.procs[r].Arrived? && OnTrack(s0, s, r, tok) && tok.grantType == AUTHORIZATION_CODE
    ensures OnTrack(s0, StepArrived(s, r, s.procs[r].req), r, tok)
  {
    hide NoInsert, ResolveClient, CodeMatches, RefusedWith, ClientRefusal;
    ResolvesExactly(s, tok);
    CodeErrorsLookAlike(CodeNotFound);
    assert ClientPasses(s, tok) <==> ClientPasses(s0, tok);
    assert !ClientPasses(s, tok) ==> ClientRefusal(s, tok) == ClientRefusal(s0, tok) by {
      if !ClientPasses(s, tok) { SameRefusal(s0, s, tok); }
    }
  }

  lemma FindStep(s0: State, s: State, r: RequestId, tok: TokenRequest)
    requires Running(s, r) && s.procs[r].CodeFind? && OnTrack(s0, s, r, tok)
    requires ReadsBack(s0, Code(tok.code))
    ensures OnTrack(s0, StepCodeFind(s, r, s.procs[r]), r, tok)
  {
    hide NoInsert, ClientPasses, ProvesKey, ParseAuth, Canonical, RefusedWith, Refusal;
    CodeErrorsLookAlike(CodeNotFound);
    RefusalOf(s0, tok);
    if Code(tok.code) in s0.codes.rows {
      var row := s0.codes.rows[Code(tok.code)];
      KeyIsProven(row.challenge, tok.codeVerifier);
      ParsedWords(row.scope);
    }
  }

  lemma ParsedWords(scope: string)
    ensures ParseAuth(scope).Ok? ==>
              Canonical(ParseAuth(scope).value) && Fields(ParseAuth(scope).value.value) == Fields(scope)
  {
    ParsedIsCanonical(scope);
    FieldsOfJoin(Fields(scope));
  }

  lemma VerifyStep(s0: State, s: State, r: RequestId, tok: TokenRequest)
    requires Running(s, r) && s.procs[r].CodeVerify? && OnTrack(s0, s, r, tok)
    ensures OnTrack(s0, StepCodeVerify(s, r, s.procs[r]), r, tok)
  {
    hide NoInsert, ClientPasses, ProvesKey, VerifyChallenge, Canonical, RefusedWith, Refusal;
    RefusalOf(s0, tok);
    var res := Verify(s.procs[r].ac, tok, s.procs[r].cid, s.clock);
    if res.Err? { CodeErrorsLookAlike(res.error); }
    KeyIsProven(s.procs[r].ac.challenge, tok.codeVerifier);
  }

  lemma ConsumeStep(s0: State, s: State, r: RequestId, tok: TokenRequest)
    requires Running(s, r) && s.procs[r].CodeConsume? && OnTrack(s0, s, r, tok)
    ensures OnTrack(s0, StepCodeConsume(s, r, s.procs[r]), r, tok)
  {
    hide NoInsert, ClientPasses, ProvesKey, Canonical, RefusedWith, Refusal;
  }

  lemma OwnerStep(s0: State, s: State, r: RequestId, tok: TokenRequest)
    requires Running(s, r) && s.procs[r].CodeOwner? && OnTrack(s0, s, r, tok)
    ensures OnTrack(s0, StepCodeOwner(s, r, s.procs[r]), r, tok)
  {
    hide NoInsert, ClientPasses, ProvesKey, Canonical, RefusedWith, Refusal;
    MissingOwnerLooksAlike();
    RefusalOf(s0, tok);
  }

  lemma WorldKept(s0: State, s: State, s': State, tok: TokenRequest)
    requires WorldStands(s0, s, tok) && SameWorld(s, s')
    ensures WorldStands(s0, s', tok)
  {
  }

  lemma WordsOfCode(row: AC.CodeRow, tok: TokenRequest, ac: AuthorizationCode)
    requires ReadAs(row, tok, ac)
    ensures ac.scope.values == ValueSet(row.scope) && ParseRefresh(ac.scope.value) == Ok(ac.scope)
  {
    ReloadPreservesScope(ac.scope);
  }

  lemma MintStep(s0: State, s: State, r: RequestId, tok: TokenRequest, draw: Draw)
    requires Running(s, r) && s.procs[r].CodeMint? && OnTrack(s0, s, r, tok)
    ensures OnTrack(s0, StepCodeMint(s, r, s.procs[r], draw), r, tok)
  {
    hide NoInsert, MayExchange, ParseRefresh, Canonical, ValueSet, StoredFirst, WorldStands, RefusedWith, Refusal;
    WordsOfCode(s0.codes.rows[Code(tok.code)], tok, s.procs[r].ac);
    WorldKept(s0, s, StepCodeMint(s, r, s.procs[r], draw), tok);
    assert s0.clock <= s.clock by { ClockOf(s0, s, tok); }
    assert ClientPasses(s0, tok) && Code(tok.code) in s0.codes.rows;
  }

  lemma ClockOf(s0: State, s: State, tok: TokenRequest)
    requires WorldStands(s0, s, tok)
    ensures s0.clock <= s.clock
  {
  }

  /** What SaveFirst does when the hash is new. */
  lemma FirstIsStored(l: TokenLedger, rt: RefreshToken, x: Code)
    requires rt.hash !in l.rows
    ensures SaveFirst(l, rt, x).1.Ok? && rt.hash in SaveFirst(l, rt, x).0.rows
    ensures SaveFirst(l, rt, x).0.rows[rt.hash]
            == RT.TokenRow(rt.family, rt.client, rt.user, rt.scope.value, rt.authTime, rt.expiresAt, false)
  {
  }

  lemma SaveStep(s0: State, s: State, r: RequestId, tok: TokenRequest)
    requires Running(s, r) && s.procs[r].CodeSave? && OnTrack(s0, s, r, tok)
    requires s.procs[r].rt.hash !in s.tokens.rows
    ensures OnTrack(s0, StepCodeSave(s, r, s.procs[r]), r, tok)
  {
    hide ProvesKey, ParseRefresh, Canonical, ValueSet, WorldStands, SaveFirst, EarnsRefresh, ClientPasses, RefusedWith, Refusal;
    WordsOfCode(s0.codes.rows[Code(tok.code)], tok, s.procs[r].ac);
    WorldKept(s0, s, StepCodeSave(s, r, s.procs[r]), tok);
    FirstIsStored(s.tokens, s.procs[r].rt, s.procs[r].ac.code);
  }

  /** Every step of r keeps it on track. */
  lemma StepStaysOnTrack(s0: State, s: State, r: RequestId, tok: TokenRequest, draw: Draw)
    requires Running(s, r) && OnTrack(s0, s, r, tok) && tok.grantType == AUTHORIZATION_CODE
    requires ReadsBack(s0, Code(tok.code))
    requires s.procs[r].CodeSave? ==> s.procs[r].rt.hash !in s.tokens.rows
    ensures OnTrack(s0, StepProc(s, r, s.procs[r], draw), r, tok)
  {
    hide StepArrived, StepCodeFind, StepCodeVerify, StepCodeConsume, StepCodeOwner, StepCodeMint, StepCodeSave;
    hide WorldStands, RowStands, Resolved, Located, CodeMatches, MayExchange, SaveStands, Answered, ReadsBack;
    var p := s.procs[r];
    if p.Arrived? { ArrivalStep(s0, s, r, tok); }
    else if p.CodeFind? { FindStep(s0, s, r, tok); }
    else if p.CodeVerify? { VerifyStep(s0, s, r, tok); }
    else if p.CodeConsume? { ConsumeStep(s0, s, r, tok); }
    else if p.CodeOwner? { OwnerStep(s0, s, r, tok); }
    else if p.CodeMint? { MintStep(s0, s, r, tok, draw); }
    else if p.CodeSave? { SaveStep(s0, s, r, tok); }
  }

  /** Others keep it there as long as they touch nothing it depends on. */
  lemma OthersLeaveOnTrack(s0: State, s: State, a: Action, r: RequestId, tok: TokenRequest)
    requires Enabled(s, a) && !Moves(a, r) && Running(s, r) && OnTrack(s0, s, r, tok)
    requires WorldStands(s0, Apply(s, a), tok) && RowStands(s, Apply(s, a), Code(tok.code))
    ensures OnTrack(s0, Apply(s, a), r, tok)
  {
    hide StepProc, Resolved, Located, MayExchange, CodeMatches, EarnsRefresh;
    OthersStay(s, a, r);
    assert s.clock <= Apply(s, a).clock by { ClockAdvances(s, a); }
  }

  lemma ClockAdvances(s: State, a: Action)
    requires Enabled(s, a)
    ensures s.clock <= Apply(s, a).clock
  {
    hide StepProc;
    if a.Step? { TT.StepMovesOnly(s, a.r, a.draw); }
  }

  /** A request that meets a failing call is answered with a server error, and with nothing else. */
  lemma FailureSays(s: State, r: RequestId)
    requires Running(s, r)
    ensures var s' := Apply(s, Fail(r));
            && s'.tokens == s.tokens && s'.codes == s.codes
            && RefusedWith(s'.procs[r].reply, ("server_error", 500))
  {
    hide StepProc, RefusedWith;
    InternalSays();
  }

  lemma InternalSays()
    ensures RefusedWith(Failed(Internal), ("server_error", 500))
  {
  }

  // ---- the theorem ----

  lemma SavesNewHash(s: State, r: RequestId)
    requires Inv(s) && Running(s, r) && s.procs[r].CodeSave?
    ensures s.procs[r].rt.hash !in s.tokens.rows
  {
    hide RL.Inv, IssuedLawfully, CodeLedgerInv, ProcInv;
    assert ProcInv(s, r, s.procs[r]);
    PendingIsUnstored(s, r);
    RL.RowsHaveLinks(s.tokens, s.clock);
  }

  lemma NextOnTrack(ss: seq<State>, acts: seq<Action>, r: RequestId, tok: TokenRequest, m: nat)
    requires Path(ss, acts) && Undisturbed(ss, acts, r, tok) && m < |acts| && tok.grantType == AUTHORIZATION_CODE
    requires Running(ss[m], r) && OnTrack(ss[0], ss[m], r, tok)
    requires ReadsBack(ss[0], Code(tok.code))
    requires Inv(ss[m])
    ensures OnTrack(ss[0], ss[m + 1], r, tok)
  {
    assert |ss| == |acts| + 1;
    assert StepOf(ss, acts, m);
    hide Inv, StepProc, OnTrack, WorldStands, RowStands, ReadsBack, Path;
    if Moves(acts[m], r) {
      if ss[m].procs[r].CodeSave? { SavesNewHash(ss[m], r); }
      StepStaysOnTrack(ss[0], ss[m], r, tok, acts[m].draw);
    } else {
      OthersLeaveOnTrack(ss[0], ss[m], acts[m], r, tok);
    }
  }

  lemma StartsOnTrack(s: State, r: RequestId, tok: TokenRequest)
    requires r in s.procs && s.procs[r] == Arrived(TokenCall(tok))
    ensures OnTrack(s, s, r, tok)
  {
  }

  lemma {:induction false} StaysOnTrack(ss: seq<State>, acts: seq<Action>, r: RequestId, tok: TokenRequest, m: nat)
    requires Served(ss, acts, r, TokenCall(tok)) && Undisturbed(ss, acts, r, tok) && m <= |acts|
    requires tok.grantType == AUTHORIZATION_CODE && Inv(ss[0])
    requires ReadsBack(ss[0], Code(tok.code))
    ensures OnTrack(ss[0], ss[m], r, tok)
    decreases m
  {
    assert |ss| == |acts| + 1;
    hide Inv, StepProc, ReadsBack, Path, Undisturbed, OnTrack;
    if m == 0 {
      StartsOnTrack(ss[0], r, tok);
    } else {
      StaysOnTrack(ss, acts, r, tok, m - 1);
      PathKeepsInv(ss, acts, m - 1);
      NextOnTrack(ss, acts, r, tok, m - 1);
    }
  }

  lemma AnswerStands(s0: State, s: State, r: RequestId, tok: TokenRequest)
    requires OnTrack(s0, s, r, tok) && Done(s, r)
    ensures s.procs[r].reply.Granted? <==> MayExchange(s0, tok)
    ensures MayExchange(s0, tok) ==> Handed(s0, s, tok, s.procs[r].reply)
    ensures !MayExchange(s0, tok) ==> RefusedWith(s.procs[r].reply, Refusal(s0, tok))
  {
    hide MayExchange, Handed, WorldStands, RefusedWith, Refusal;
  }

  /**
    An exchange that nothing disturbs is granted exactly if, on its arrival,
    client, grant and secret pass, the code is stored and has not expired, it
    was issued for this client, redirect URI and verifier, and its owner is
    still there. Then it hands out what the code's row says, and a refresh
    token exactly if the client has the refresh grant and the code's scope
    contains offline_access. Otherwise the error names what is wrong with the
    client, or only that the grant is invalid.
   */
  lemma ExchangeGrantedExactly(ss: seq<State>, acts: seq<Action>, r: RequestId, tok: TokenRequest)
    requires Served(ss, acts, r, TokenCall(tok)) && tok.grantType == AUTHORIZATION_CODE
    requires Reachable(ss[0]) && Undisturbed(ss, acts, r, tok)
    ensures ss[|acts|].procs[r].reply.Granted? <==> MayExchange(ss[0], tok)
    ensures MayExchange(ss[0], tok) ==> Handed(ss[0], ss[|acts|], tok, ss[|acts|].procs[r].reply)
    ensures !MayExchange(ss[0], tok) ==> RefusedWith(ss[|acts|].procs[r].reply, Refusal(ss[0], tok))
  {
    assert |ss| == |acts| + 1;
    hide Inv, Reachable, Undisturbed, MayExchange, Handed, OnTrack, Path, RefusedWith, Refusal;
    ReachableInv(ss[0]);
    if Code(tok.code) in ss[0].codes.rows { StoredCodesReadBack(ss[0], Code(tok.code)); }
    StaysOnTrack(ss, acts, r, tok, |acts|);
    AnswerStands(ss[0], ss[|acts|], r, tok);
  }

  /** An exchange alone on the server is answered within seven steps, and by this rule. */
  lemma LoneExchange(s: State, r: RequestId, tok: TokenRequest) returns (ss: seq<State>, acts: seq<Action>)
    requires Reachable(s) && r in s.procs && s.procs[r] == Arrived(TokenCall(tok)) && tok.grantType == AUTHORIZATION_CODE
    ensures Served(ss, acts, r, TokenCall(tok)) && ss[0] == s && |acts| <= 7
    ensures ss[|acts|].procs[r].reply.Granted? <==> MayExchange(s, tok)
    ensures MayExchange(s, tok) ==> Handed(s, ss[|acts|], tok, ss[|acts|].procs[r].reply)
  {
    hide Reachable, MayExchange, Handed, WorldStands, RowStands, StepOf;
    ss, acts := EndsAlone(s, r);
    ExchangeGrantedExactly(ss, acts, r, tok);
  }
}
