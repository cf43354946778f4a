/**
  When a refresh token is redeemed, and for what: the counterpart of
  ExchangeOutcome for the refresh grant; and, under every interleaving, which
  scope a refresh hands on.
 */
module RefreshOutcome {
  import opened Wrappers
  import opened Scopes
  import opened Domain
  import opened Authorize
  import opened TokenProtocol
  import opened TokenInvariants
  import opened TokenRuns
  import opened ExchangeOutcome
  import RT = RefreshTokenStore
  import RL = RotationLedger
  import OT = OrphanTokens
  import TT = TokenTheorems

  // ---- what decides ----

  /** The words a refresh asks for: those it names, or all of the token's when it names none. */
  function WordsAsked(requested: string, held: string): seq<string> {
    if Fields(requested) == [] then Fields(held) else Fields(requested)
  }

  /** The token is stored, not expired, not rotated, bound to this client, and its scope has every word asked for. */
  predicate TokenMatches(s: State, tok: TokenRequest) {
    HashToken(tok.refreshToken) in s.tokens.rows
    && var row := s.tokens.rows[HashToken(tok.refreshToken)];
       && s.clock < row.expiresAt && !row.consumed && row.client == ClientID(tok.clientID)
       && forall w :: w in Fields(tok.scope) ==> w in Fields(row.scope)
  }

  predicate MayRefresh(s: State, tok: TokenRequest) {
    && ClientPasses(s, tok) && tok.refreshToken != "" && TokenMatches(s, tok)
    && s.tokens.rows[HashToken(tok.refreshToken)].user in s.users
  }

  /** All of TokenMatches but the scope. */
  predicate TokenIsHis(s: State, tok: TokenRequest) {
    HashToken(tok.refreshToken) in s.tokens.rows
    && var row := s.tokens.rows[HashToken(tok.refreshToken)];
       s.clock < row.expiresAt && !row.consumed && row.client == ClientID(tok.clientID)
  }

  /** A token that is not this client's to use looks the same from outside, whatever is wrong with it. */
  function Refusal(s: State, tok: TokenRequest): (string, nat) {
    if tok.refreshToken == "" then ("invalid_grant", 400)
    else if !ClientPasses(s, tok) then ClientRefusal(s, tok)
    else if TokenIsHis(s, tok) && !TokenMatches(s, tok) then ("invalid_scope", 400)
    else ("invalid_grant", 400)
  }

  /** What a granted refresh hands out, read off the row of the token presented. */
  ghost predicate Handed(s0: State, s: State, tok: TokenRequest, reply: Reply)
    requires MayRefresh(s0, tok) && reply.Granted?
  {
    var h, cid := HashToken(tok.refreshToken), ClientID(tok.clientID);
    var row := s0.tokens.rows[h];
    && reply.client == cid && reply.user == row.user && reply.authTime == row.authTime
    && Fields(reply.scope.value) == WordsAsked(tok.scope, row.scope)
    && reply.scope.values == (set w | w in WordsAsked(tok.scope, row.scope))
    && reply.refresh.Some? && Succeeds(s0, s, row, reply.scope, h, reply.refresh.value)
  }

  /** The presented row is spent and the new one stands beside it, good for thirty days from when it was minted. */
  ghost predicate Succeeds(s0: State, s: State, row: RT.TokenRow, scope: Scope, h: TokenHash, next: RefreshToken) {
    && h != next.hash && h in s.tokens.rows && s.tokens.rows[h] == row.(consumed := true)
    && next.hash in s.tokens.rows
    && s.tokens.rows[next.hash]
       == RT.TokenRow(row.family, row.client, row.user, scope.value, row.authTime, next.expiresAt, false)
    && s0.clock + 30 * 24 * HOUR <= next.expiresAt <= s.clock + 30 * 24 * HOUR
  }

  // ---- an undisturbed refresh ----

  /** Client record and owner stand as on arrival, and the token has not expired meanwhile. */
  ghost predicate WorldStands(s0: State, s: State, tok: TokenRequest) {
    var cid, h := ClientID(tok.clientID), HashToken(tok.refreshToken);
    && s0.clock <= s.clock
    && (cid in s.clients <==> cid in s0.clients) && (cid in s0.clients ==> s.clients[cid] == s0.clients[cid])
    && (h in s0.tokens.rows ==>
          var row := s0.tokens.rows[h];
          && (row.user in s.users <==> row.user in s0.users)
          && (s.clock < row.expiresAt <==> s0.clock < row.expiresAt))
  }

  ghost predicate RowStands(s: State, s': State, h: TokenHash) {
    (h in s'.tokens.rows <==> h in s.tokens.rows) && (h in s.tokens.rows ==> s'.tokens.rows[h] == s.tokens.rows[h])
  }

  /** Whatever else happens while r runs touches neither client, owner nor token, and r meets no failure. */
  ghost predicate Undisturbed(ss: seq<State>, acts: seq<Action>, r: RequestId, tok: TokenRequest)
    requires Path(ss, acts)
  {
    forall m :: 0 <= m < |acts| ==>
      && (Moves(acts[m], r) ==> acts[m].Step?)
      && (!Moves(acts[m], r) ==>
            WorldStands(ss[0], ss[m + 1], tok) && RowStands(ss[m], ss[m + 1], HashToken(tok.refreshToken)))
  }

  // ---- what each program counter has settled ----

  ghost predicate ReadAs(row: RT.TokenRow, tok: TokenRequest, rt: RefreshToken) {
    && rt.hash == HashToken(tok.refreshToken) && rt.family == row.family && rt.client == row.client
    && rt.user == row.user && rt.authTime == row.authTime && rt.consumed == row.consumed
  }

  /** A scope with exactly the words asked for. */
  ghost predicate AsAsked(row: RT.TokenRow, tok: TokenRequest, scope: Scope) {
    Canonical(scope) && Fields(scope.value) == WordsAsked(tok.scope, row.scope)
  }

  ghost predicate Resolved(s0: State, tok: TokenRequest, p: Proc)
    requires p.RefreshFind? || p.RefreshOwner? || p.RefreshMint? || p.RefreshRotate? || p.RefreshRevoke?
  {
    p.tok == tok && p.cid == ClientID(tok.clientID) && ClientPasses(s0, tok) && tok.refreshToken != ""
  }

  ghost predicate Located(s0: State, tok: TokenRequest, rt: RefreshToken, scope: Scope) {
    && TokenMatches(s0, tok) && ReadAs(s0.tokens.rows[HashToken(tok.refreshToken)], tok, rt)
    && AsAsked(s0.tokens.rows[HashToken(tok.refreshToken)], tok, scope)
  }

  ghost predicate RotateStands(s0: State, s: State, tok: TokenRequest, p: Proc)
    requires p.RefreshRotate?
  {
    && Resolved(s0, tok, p) && MayRefresh(s0, tok) && Located(s0, tok, p.rt, p.next.scope)
    && p.next == RefreshToken(p.next.hash, p.rt.family, p.rt.client, p.rt.user, p.next.scope, p.rt.authTime,
                              p.next.expiresAt, false)
    && s0.clock + 30 * 24 * HOUR <= p.next.expiresAt <= s.clock + 30 * 24 * HOUR
  }

  ghost predicate Answered(s0: State, s: State, tok: TokenRequest, reply: Reply) {
    if reply.Granted? then MayRefresh(s0, tok) && Handed(s0, s, tok, reply)
    else !MayRefresh(s0, tok) && RefusedWith(reply, Refusal(s0, tok))
  }

  ghost predicate CounterStands(s0: State, s: State, tok: TokenRequest, p: Proc) {
    match p
    case Arrived(req) => req == TokenCall(tok)
    case RefreshFind(_, _) => Resolved(s0, tok, p)
    case RefreshOwner(_, _, rt, scope) => Resolved(s0, tok, p) && Located(s0, tok, rt, scope)
    case RefreshMint(_, _, rt, scope) => Resolved(s0, tok, p) && Located(s0, tok, rt, scope) && MayRefresh(s0, tok)
    case RefreshRotate(_, _, _, _) => RotateStands(s0, s, tok, p)
    case RefreshRevoke(_, _, _) => Resolved(s0, tok, p) && !TokenIsHis(s0, tok)
    case Finished(req, reply) => req == TokenCall(tok) && Answered(s0, s, tok, reply)
    case _ => false
  }

  /** How far r has got, and what of MayRefresh it has found true. */
  ghost predicate OnTrack(s0: State, s: State, r: RequestId, tok: TokenRequest) {
    && r in s.procs && WorldStands(s0, s, tok) && CounterStands(s0, s, tok, s.procs[r])
    && (!s.procs[r].Finished? && !s.procs[r].RefreshRevoke? ==> RowStands(s0, s, HashToken(tok.refreshToken)))
  }

  // ---- the steps ----

  lemma RefusalOf(s: State, tok: TokenRequest)
    ensures tok.refreshToken == "" ==> Refusal(s, tok) == ("invalid_grant", 400)
    ensures tok.refreshToken != "" && !ClientPasses(s, tok) ==> Refusal(s, tok) == ClientRefusal(s, tok)
    ensures tok.refreshToken != "" && ClientPasses(s, tok) ==>
              Refusal(s, tok) == (if TokenIsHis(s, tok) && !TokenMatches(s, tok) then "invalid_scope" else "invalid_grant", 400)
  {
  }

  lemma MissingTokenSays()
    ensures RefusedWith(Failed(RefreshNotFound), ("invalid_grant", 400))
  {
  }

  lemma ReusedTokenSays()
    ensures RefusedWith(Failed(RefreshReused), ("invalid_grant", 400))
  {
  }

  lemma ForeignTokenSays()
    ensures RefusedWith(Failed(RefreshClientMismatch), ("invalid_grant", 400))
  {
  }

  lemma ScopeErrorSays()
    ensures RefusedWith(Failed(RefreshInvalidScope), ("invalid_scope", 400))
  {
  }

  lemma SameRefusal(s0: State, s: State, tok: TokenRequest)
    requires WorldStands(s0, s, tok) && !ClientPasses(s, tok) && !ClientPasses(s0, tok)
    ensures ClientRefusal(s, tok) == ClientRefusal(s0, tok)
  {
  }

  lemma ArrivalStep(s0: State, s: State, r: RequestId, tok: TokenRequest)
    requires Running(s, r) && s.procs[r].Arrived? && OnTrack(s0, s, r, tok) && tok.grantType == REFRESH_TOKEN
    ensures OnTrack(s0, StepArrived(s, r, s.procs[r].req), r, tok)
  {
    hide NoInsert, ResolveClient, TokenMatches, TokenIsHis, RefusedWith, Refusal, ClientRefusal;
    ResolvesExactly(s, tok);
    RefusalOf(s0, tok);
    MissingTokenSays();
    assert ClientPasses(s, tok) <==> ClientPasses(s0, tok);
    if !ClientPasses(s, tok) { SameRefusal(s0, s, tok); }
  }

  /** Narrowing grants exactly what is asked for, and exactly if every word of it is held. */
  lemma NarrowsToAsked(held: string, requested: string)
    requires ParseRefresh(held).Ok?
    ensures var narrowed := Narrow(ParseRefresh(held).value, requested);
            && (narrowed.Ok? <==> forall w :: w in Fields(requested) ==> w in Fields(held))
            && (narrowed.Ok? ==> Canonical(narrowed.value) && Fields(narrowed.value.value) == WordsAsked(requested, held))
  {
    ParsedIsCanonical(held);
    NarrowedIsCanonical(ParseRefresh(held).value, requested);
    assert forall w :: w in Fields(requested) <==> w in ValueSet(requested);
    assert forall w :: w in Fields(held) <==> w in ValueSet(held);
  }

  lemma FindStep(s0: State, s: State, r: RequestId, tok: TokenRequest)
    requires Running(s, r) && s.procs[r].RefreshFind? && OnTrack(s0, s, r, tok)
    requires HashToken(tok.refreshToken) in s0.tokens.rows ==>
               ParseRefresh(s0.tokens.rows[HashToken(tok.refreshToken)].scope).Ok?
    ensures OnTrack(s0, StepRefreshFind(s, r, s.procs[r]), r, tok)
  {
    hide NoInsert, ClientPasses, ParseRefresh, Canonical, Narrow, WordsAsked, RefusedWith, Refusal;
    RefusalOf(s0, tok);
    MissingTokenSays();
    ForeignTokenSays();
    ScopeErrorSays();
    if HashToken(tok.refreshToken) in s0.tokens.rows {
      NarrowsToAsked(s0.tokens.rows[HashToken(tok.refreshToken)].scope, tok.scope);
    }
  }

  lemma OwnerStep(s0: State, s: State, r: RequestId, tok: TokenRequest)
    requires Running(s, r) && s.procs[r].RefreshOwner? && OnTrack(s0, s, r, tok)
    ensures OnTrack(s0, StepRefreshOwner(s, r, s.procs[r]), r, tok)
  {
    hide NoInsert, ClientPasses, AsAsked, Fields, RefusedWith, Refusal;
    MissingOwnerLooksAlike();
    RefusalOf(s0, tok);
  }

  lemma MintStep(s0: State, s: State, r: RequestId, tok: TokenRequest, draw: Draw)
    requires Running(s, r) && s.procs[r].RefreshMint? && OnTrack(s0, s, r, tok)
    ensures OnTrack(s0, StepRefreshMint(s, r, s.procs[r], draw), r, tok)
  {
    hide NoInsert, ClientPasses, AsAsked, Fields, TokenMatches, RefusedWith, Refusal;
  }

  /** A live unconsumed row is rotated exactly as Handed says. */
  lemma RotationStores(l: TokenLedger, h: TokenHash, next: RefreshToken, now: Time)
    requires RT.Live(l.rows, h, now) && !l.rows[h].consumed && next.hash !in l.rows
    ensures var (l', res) := RotateLink(l, h, next, now);
            && res.Ok? && h in l'.rows && l'.rows[h] == l.rows[h].(consumed := true) && next.hash in l'.rows
            && l'.rows[next.hash]
               == RT.TokenRow(next.family, next.client, next.user, next.scope.value, next.authTime, next.expiresAt, false)
  {
  }

  lemma WordsInScope(row: RT.TokenRow, tok: TokenRequest, scope: Scope)
    requires AsAsked(row, tok, scope)
    ensures scope.values == (set w | w in WordsAsked(tok.scope, row.scope))
  {
  }

  lemma RotateStep(s0: State, s: State, r: RequestId, tok: TokenRequest)
    requires Running(s, r) && s.procs[r].RefreshRotate? && OnTrack(s0, s, r, tok)
    requires s.procs[r].next.hash !in s.tokens.rows
    ensures OnTrack(s0, StepRefreshRotate(s, r, s.procs[r]), r, tok)
  {
    hide ClientPasses, Fields, RotateLink, WordsAsked, Canonical, RefusedWith, Refusal;
    RotationStores(s.tokens, s.procs[r].rt.hash, s.procs[r].next, s.clock);
    WordsInScope(s0.tokens.rows[HashToken(tok.refreshToken)], tok, s.procs[r].next.scope);
  }

  lemma RevokeStep(s0: State, s: State, r: RequestId, tok: TokenRequest)
    requires Running(s, r) && s.procs[r].RefreshRevoke? && OnTrack(s0, s, r, tok)
    ensures OnTrack(s0, StepRefreshRevoke(s, r, s.procs[r]), r, tok)
  {
    hide NoInsert, ClientPasses, RefusedWith, Refusal, Fields;
    ReusedTokenSays();
    RefusalOf(s0, tok);
  }

  /** Every step of r keeps it on track. */
  lemma StepStaysOnTrack(s0: State, s: State, r: RequestId, tok: TokenRequest, draw: Draw)
    requires Running(s, r) && OnTrack(s0, s, r, tok) && tok.grantType == REFRESH_TOKEN
    requires HashToken(tok.refreshToken) in s0.tokens.rows ==>
               ParseRefresh(s0.tokens.rows[HashToken(tok.refreshToken)].scope).Ok?
    requires s.procs[r].RefreshRotate? ==> s.procs[r].next.hash !in s.tokens.rows
    ensures OnTrack(s0, StepProc(s, r, s.procs[r], draw), r, tok)
  {
    hide StepArrived, StepRefreshFind, StepRefreshOwner, StepRefreshMint, StepRefreshRotate, StepRefreshRevoke;
    hide WorldStands, RowStands, Resolved, Located, TokenMatches, TokenIsHis, MayRefresh, RotateStands, Answered, ParseRefresh;
    var p := s.procs[r];
    if p.Arrived? { ArrivalStep(s0, s, r, tok); }
    else if p.RefreshFind? { FindStep(s0, s, r, tok); }
    else if p.RefreshOwner? { OwnerStep(s0, s, r, tok); }
    else if p.RefreshMint? { MintStep(s0, s, r, tok, draw); }
    else if p.RefreshRotate? { RotateStep(s0, s, r, tok); }
    else if p.RefreshRevoke? { RevokeStep(s0, s, r, tok); }
  }

  /** Others keep it there as long as they touch nothing it depends on. */
  lemma OthersLeaveOnTrack(s0: State, s: State, a: Action, r: RequestId, tok: TokenRequest)
    requires Enabled(s, a) && !Moves(a, r) && Running(s, r) && OnTrack(s0, s, r, tok)
    requires WorldStands(s0, Apply(s, a), tok) && RowStands(s, Apply(s, a), HashToken(tok.refreshToken))
    ensures OnTrack(s0, Apply(s, a), r, tok)
  {
    hide StepProc, Resolved, Located, MayRefresh, TokenMatches, TokenIsHis;
    OthersStay(s, a, r);
    assert s.clock <= Apply(s, a).clock by { ClockAdvances(s, a); }
  }

  // ---- the theorem ----

  lemma RotatesToNewHash(s: State, r: RequestId)
    requires Inv(s) && Running(s, r) && s.procs[r].RefreshRotate?
    ensures s.procs[r].next.hash !in s.tokens.rows
  {
    hide RL.Inv, IssuedLawfully, CodeLedgerInv, ProcInv;
    assert ProcInv(s, r, s.procs[r]);
    PendingIsUnstored(s, r);
    RL.RowsHaveLinks(s.tokens, s.clock);
  }

  lemma NextOnTrack(ss: seq<State>, acts: seq<Action>, r: RequestId, tok: TokenRequest, m: nat)
    requires Path(ss, acts) && Undisturbed(ss, acts, r, tok) && m < |acts| && tok.grantType == REFRESH_TOKEN
    requires Running(ss[m], r) && OnTrack(ss[0], ss[m], r, tok)
    requires HashToken(tok.refreshToken) in ss[0].tokens.rows ==>
               ParseRefresh(ss[0].tokens.rows[HashToken(tok.refreshToken)].scope).Ok?
    requires Inv(ss[m])
    ensures OnTrack(ss[0], ss[m + 1], r, tok)
  {
    assert |ss| == |acts| + 1;
    assert StepOf(ss, acts, m);
    hide Inv, StepProc, OnTrack, WorldStands, RowStands, ParseRefresh, Path;
    if Moves(acts[m], r) {
      if ss[m].procs[r].RefreshRotate? { RotatesToNewHash(ss[m], r); }
      StepStaysOnTrack(ss[0], ss[m], r, tok, acts[m].draw);
    } else {
      OthersLeaveOnTrack(ss[0], ss[m], acts[m], r, tok);
    }
  }

  lemma StartsOnTrack(s: State, r: RequestId, tok: TokenRequest)
    requires r in s.procs && s.procs[r] == Arrived(TokenCall(tok))
    ensures OnTrack(s, s, r, tok)
  {
  }

  lemma {:induction false} StaysOnTrack(ss: seq<State>, acts: seq<Action>, r: RequestId, tok: TokenRequest, m: nat)
    requires Served(ss, acts, r, TokenCall(tok)) && Undisturbed(ss, acts, r, tok) && m <= |acts|
    requires tok.grantType == REFRESH_TOKEN && Inv(ss[0])
    requires HashToken(tok.refreshToken) in ss[0].tokens.rows ==>
               ParseRefresh(ss[0].tokens.rows[HashToken(tok.refreshToken)].scope).Ok?
    ensures OnTrack(ss[0], ss[m], r, tok)
    decreases m
  {
    assert |ss| == |acts| + 1;
    hide Inv, StepProc, ParseRefresh, Path, Undisturbed, OnTrack;
    if m == 0 {
      StartsOnTrack(ss[0], r, tok);
    } else {
      StaysOnTrack(ss, acts, r, tok, m - 1);
      PathKeepsInv(ss, acts, m - 1);
      NextOnTrack(ss, acts, r, tok, m - 1);
    }
  }

  lemma StoredTokensParse(s: State, h: TokenHash)
    requires Inv(s) && h in s.tokens.rows
    ensures ParseRefresh(s.tokens.rows[h].scope).Ok?
  {
    hide RL.Inv, IssuedLawfully, CodeLedgerInv, MakersInv, FamiliesInv, ProcsInv;
    TT.RowsParse(s.tokens, h, s.clock);
  }

  lemma AnswerStands(s0: State, s: State, r: RequestId, tok: TokenRequest)
    requires OnTrack(s0, s, r, tok) && Done(s, r)
    ensures s.procs[r].reply.Granted? <==> MayRefresh(s0, tok)
    ensures MayRefresh(s0, tok) ==> Handed(s0, s, tok, s.procs[r].reply)
    ensures !MayRefresh(s0, tok) ==> RefusedWith(s.procs[r].reply, Refusal(s0, tok))
  {
    hide MayRefresh, Handed, WorldStands, RefusedWith, Refusal;
  }

  /**
    A refresh that nothing disturbs is granted exactly if, on its arrival,
    client, grant and secret pass, the token is stored, has not expired and
    has not been rotated, it is bound to this client, its scope has every word
    asked for, and its owner is still there. Then the reply and the new row
    have exactly the words asked for, or all of the token's if none were.
    Otherwise the error names what is wrong with the client or the scope, or
    only that the grant is invalid.
   */
  lemma RefreshGrantedExactly(ss: seq<State>, acts: seq<Action>, r: RequestId, tok: TokenRequest)
    requires Served(ss, acts, r, TokenCall(tok)) && tok.grantType == REFRESH_TOKEN
    requires Reachable(ss[0]) && Undisturbed(ss, acts, r, tok)
    ensures ss[|acts|].procs[r].reply.Granted? <==> MayRefresh(ss[0], tok)
    ensures MayRefresh(ss[0], tok) ==> Handed(ss[0], ss[|acts|], tok, ss[|acts|].procs[r].reply)
    ensures !MayRefresh(ss[0], tok) ==> RefusedWith(ss[|acts|].procs[r].reply, Refusal(ss[0], tok))
  {
    assert |ss| == |acts| + 1;
    hide Inv, Reachable, ParseRefresh, Undisturbed, MayRefresh, Handed, OnTrack, Path, RefusedWith, Refusal;
    ReachableInv(ss[0]);
    if HashToken(tok.refreshToken) in ss[0].tokens.rows { StoredTokensParse(ss[0], HashToken(tok.refreshToken)); }
    StaysOnTrack(ss, acts, r, tok, |acts|);
    AnswerStands(ss[0], ss[|acts|], r, tok);
  }

  /** A refresh alone on the server is answered within seven steps, and by this rule. */
  lemma LoneRefresh(s: State, r: RequestId, tok: TokenRequest) returns (ss: seq<State>, acts: seq<Action>)
    requires Reachable(s) && r in s.procs && s.procs[r] == Arrived(TokenCall(tok)) && tok.grantType == REFRESH_TOKEN
    ensures Served(ss, acts, r, TokenCall(tok)) && ss[0] == s && |acts| <= 7
    ensures ss[|acts|].procs[r].reply.Granted? <==> MayRefresh(s, tok)
    ensures MayRefresh(s, tok) ==> Handed(s, ss[|acts|], tok, ss[|acts|].procs[r].reply)
  {
    hide Reachable, MayRefresh, Handed, WorldStands, RowStands, StepOf;
    ss, acts := EndsAlone(s, r);
    RefreshGrantedExactly(ss, acts, r, tok);
  }

  // ---- scopes, under every interleaving ----

  /** scope has the words tok asks for of the token it presents, as that was stored. */
  ghost predicate HasWords(s: State, tok: TokenRequest, scope: Scope) {
    && HashToken(tok.refreshToken) in s.tokens.links
    && Fields(scope.value) == WordsAsked(tok.scope, s.tokens.links[HashToken(tok.refreshToken)].row.scope)
  }

  ghost predicate GrantsWords(s: State, tok: TokenRequest, reply: Reply) {
    reply.Granted? ==>
      && HasWords(s, tok, reply.scope) && reply.refresh.Some? && reply.refresh.value.hash in s.tokens.links
      && s.tokens.links[reply.refresh.value.hash].row.scope == reply.scope.value
  }

  /** What a refresh hands on is what was asked for, from the narrowing to the answer. */
  ghost predicate KeepsWords(s: State, p: Proc) {
    && (p.RefreshOwner? || p.RefreshMint? ==> HasWords(s, p.tok, p.scope))
    && (p.RefreshRotate? ==> HasWords(s, p.tok, p.next.scope))
    && (p.Finished? && p.req.TokenCall? && p.req.tok.grantType == REFRESH_TOKEN ==> GrantsWords(s, p.req.tok, p.reply))
  }

  lemma RowIsLink(l: TokenLedger, h: TokenHash, now: Time)
    requires RL.Inv(l, now) && h in l.rows
    ensures h in l.links && l.links[h].row.scope == l.rows[h].scope && ParseRefresh(l.rows[h].scope).Ok?
  {
  }

  lemma FindKeepsWords(s: State, r: RequestId)
    requires Running(s, r) && s.procs[r].RefreshFind?
    requires RL.Inv(s.tokens, s.clock)
    ensures var s' := StepRefreshFind(s, r, s.procs[r]); r in s'.procs && KeepsWords(s', s'.procs[r])
  {
    hide NoInsert, Narrow, ParseRefresh, RL.Inv, WordsAsked;
    var h := HashToken(s.procs[r].tok.refreshToken);
    if h in s.tokens.rows {
      RowIsLink(s.tokens, h, s.clock);
      NarrowsToAsked(s.tokens.rows[h].scope, s.procs[r].tok.scope);
    }
  }

  lemma RotateKeepsWords(s: State, r: RequestId)
    requires Running(s, r) && s.procs[r].RefreshRotate? && KeepsWords(s, s.procs[r])
    requires s.procs[r].next.hash !in s.tokens.links
    ensures var s' := StepRefreshRotate(s, r, s.procs[r]); r in s'.procs && KeepsWords(s', s'.procs[r])
  {
    hide WordsAsked;
  }

  lemma CodeGrantsKeepWords(s: State, r: RequestId, draw: Draw)
    requires Running(s, r) && (s.procs[r].CodeMint? || s.procs[r].CodeSave?) && GrantMatches(s.procs[r])
    ensures var s' := StepProc(s, r, s.procs[r], draw); r in s'.procs && KeepsWords(s', s'.procs[r])
  {
    hide NoInsert, ParseRefresh, SaveFirst, HasWords;
  }

  lemma OwnerKeepsWords(s: State, r: RequestId, draw: Draw)
    requires Running(s, r) && (s.procs[r].RefreshOwner? || s.procs[r].RefreshMint?) && KeepsWords(s, s.procs[r])
    ensures var s' := StepProc(s, r, s.procs[r], draw); r in s'.procs && KeepsWords(s', s'.procs[r])
  {
    hide WordsAsked;
  }

  lemma OthersKeepWords(s: State, r: RequestId, draw: Draw)
    requires Running(s, r) && GrantOf(s.procs[r]) != Some(REFRESH_TOKEN) && !s.procs[r].CodeMint? && !s.procs[r].CodeSave?
    ensures var s' := StepProc(s, r, s.procs[r], draw); r in s'.procs && KeepsWords(s', s'.procs[r])
  {
    TT.OthersGrantNothing(s, r, draw);
    NoneEntersRefresh(s, r, draw);
    hide StepProc;
  }

  lemma NoneEntersRefresh(s: State, r: RequestId, draw: Draw)
    requires Running(s, r) && GrantOf(s.procs[r]) != Some(REFRESH_TOKEN)
    ensures var s' := StepProc(s, r, s.procs[r], draw);
            r in s'.procs ==> !s'.procs[r].RefreshOwner? && !s'.procs[r].RefreshMint? && !s'.procs[r].RefreshRotate?
  {
    hide StepArrived, NoInsert, Verify, MayRevoke, Validate, ParseAuth, ParseRefresh, SaveFirst;
    if s.procs[r].Arrived? { ArrivalEntersNone(s, r); }
  }

  lemma ArrivalEntersNone(s: State, r: RequestId)
    requires Running(s, r) && s.procs[r].Arrived?
    ensures var s' := StepArrived(s, r, s.procs[r].req);
            r in s'.procs ==> !s'.procs[r].RefreshOwner? && !s'.procs[r].RefreshMint? && !s'.procs[r].RefreshRotate?
  {
    hide ResolveClient, NormalizeScope, NoInsert, RT.FindByTokenHash;
  }

  lemma RevokeKeepsWords(s: State, r: RequestId)
    requires Running(s, r) && s.procs[r].RefreshRevoke?
    ensures var s' := StepRefreshRevoke(s, r, s.procs[r]); r in s'.procs && KeepsWords(s', s'.procs[r])
  {
    hide NoInsert;
  }

  lemma StepKeepsWords(s: State, r: RequestId, draw: Draw)
    requires Running(s, r) && KeepsWords(s, s.procs[r])
    requires Inv(s)
    ensures var s' := StepProc(s, r, s.procs[r], draw); r in s'.procs && KeepsWords(s', s'.procs[r])
  {
    var p := s.procs[r];
    hide RL.Inv, IssuedLawfully, CodeLedgerInv, MakersInv, FamiliesInv, ProcInv, KeepsWords, StepProc;
    assert ProcInv(s, r, p) && GrantMatches(p);
    if p.RefreshFind? { FindKeepsWords(s, r); StepIs(s, r, draw); }
    else if p.RefreshRotate? { PendingIsUnstored(s, r); RotateKeepsWords(s, r); StepIs(s, r, draw); }
    else if p.RefreshRevoke? { RevokeKeepsWords(s, r); StepIs(s, r, draw); }
    else if p.RefreshOwner? || p.RefreshMint? { OwnerKeepsWords(s, r, draw); }
    else if p.CodeMint? || p.CodeSave? { CodeGrantsKeepWords(s, r, draw); }
    else { OthersKeepWords(s, r, draw); }
  }

  lemma StepIs(s: State, r: RequestId, draw: Draw)
    requires Running(s, r)
    ensures s.procs[r].RefreshFind? ==> StepProc(s, r, s.procs[r], draw) == StepRefreshFind(s, r, s.procs[r])
    ensures s.procs[r].RefreshRotate? ==> StepProc(s, r, s.procs[r], draw) == StepRefreshRotate(s, r, s.procs[r])
    ensures s.procs[r].RefreshRevoke? ==> StepProc(s, r, s.procs[r], draw) == StepRefreshRevoke(s, r, s.procs[r])
  {
    hide StepRefreshFind, StepRefreshRotate, StepRefreshRevoke;
  }

  ghost predicate AllKeepWords(s: State) {
    forall r :: r in s.procs ==> KeepsWords(s, s.procs[r])
  }

  /** The links a program knows stay, so what it knows of their words stays. */
  lemma WordsStay(s: State, s': State, p: Proc)
    requires KeepsWords(s, p)
    requires forall h :: h in s.tokens.links ==> h in s'.tokens.links && s'.tokens.links[h] == s.tokens.links[h]
    ensures KeepsWords(s', p)
  {
    hide WordsAsked;
  }

  lemma ActionKeepsWords(s: State, a: Action)
    requires Enabled(s, a) && AllKeepWords(s)
    requires Inv(s)
    ensures AllKeepWords(Apply(s, a))
  {
    hide Inv, StepProc, KeepsWords;
    var s' := Apply(s, a);
    forall h | h in s.tokens.links ensures h in s'.tokens.links && s'.tokens.links[h] == s.tokens.links[h] {
      OT.HistoryStays(s, a, h);
    }
    forall r | r in s'.procs ensures KeepsWords(s', s'.procs[r]) {
      if Moves(a, r) {
        if a.Step? { StepKeepsWords(s, r, a.draw); } else { NewsKeepsWords(s', s'.procs[r]); }
      } else {
        OthersStay(s, a, r);
        WordsStay(s, s', s.procs[r]);
      }
    }
  }

  lemma NewsKeepsWords(s: State, p: Proc)
    requires p.Arrived? || (p.Finished? && p.reply.Failed?)
    ensures KeepsWords(s, p)
  {
  }

  lemma {:induction false} RunKeepsWords(s: State, acts: seq<Action>)
    requires Legal(s, acts) && AllKeepWords(s)
    requires Inv(s)
    ensures AllKeepWords(Run(s, acts))
    decreases |acts|
  {
    hide Inv, AllKeepWords, Apply;
    if acts != [] {
      ActionKeepsInv(s, acts[0]);
      ActionKeepsWords(s, acts[0]);
      RunKeepsWords(Apply(s, acts[0]), acts[1..]);
    }
  }

  /**
    Whatever interleaves, a granted refresh answers with exactly the words it
    asked for, or all of the presented token's if it named none, and the row
    it stored has that scope.
   */
  lemma RefreshScopeIsAsked(s: State, r: RequestId)
    requires Reachable(s) && TT.Succeeded(s, r, REFRESH_TOKEN)
    ensures var tok, reply := s.procs[r].req.tok, s.procs[r].reply;
            var h := HashToken(tok.refreshToken);
            && h in s.tokens.links && reply.refresh.Some? && reply.refresh.value.hash in s.tokens.links
            && Fields(reply.scope.value) == WordsAsked(tok.scope, s.tokens.links[h].row.scope)
            && s.tokens.links[reply.refresh.value.hash].row.scope == reply.scope.value
  {
    hide Inv, WordsAsked;
    var s0, acts :| Initial(s0) && Legal(s0, acts) && Run(s0, acts) == s;
    InitialInv(s0);
    RunKeepsWords(s0, acts);
    assert KeepsWords(s, s.procs[r]);
  }
}
