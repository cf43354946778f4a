/**
  What the token protocol promises over whole runs: the shape of rotation
  chains, the permanence of revocation, single use of codes and of refresh
  tokens, and where the rights of every refresh token come from.
 */
module TokenTheorems {
  import opened Wrappers
  import opened Scopes
  import opened Domain
  import opened Pkce
  import opened Authorize
  import opened TokenProtocol
  import opened TokenInvariants
  import RT = RefreshTokenStore
  import RL = RotationLedger

  // ---- frames ----

  /** A step moves its own request and nothing of the world around the tables. */
  lemma StepMovesOnly(s: State, r: RequestId, draw: Draw)
    requires Running(s, r)
    ensures OnlyMoves(s, StepProc(s, r, s.procs[r], draw), r) && SameWorld(s, StepProc(s, r, s.procs[r], draw))
  {
    hide StepArrived, StepRefreshFind, StepRefreshOwner, StepRefreshMint, StepRefreshRotate, StepRefreshRevoke;
    hide StepCodeFind, StepCodeVerify, StepCodeConsume, StepCodeOwner, StepCodeMint, StepCodeSave;
    hide StepAuthorizeIssue, StepAuthorizeSave, StepRevokeClient, StepRevokeDelete;
  }

  /** Makers only ever gain the value this step drew. */
  lemma MakersGain(s: State, r: RequestId, draw: Draw)
    requires Running(s, r)
    ensures var s' := StepProc(s, r, s.procs[r], draw);
            s'.tokens.makers == s.tokens.makers || s'.tokens.makers == s.tokens.makers[draw.hash := r]
  {
    hide StepArrived, NoInsert, Narrow, Verify, MayRevoke, Validate, ParseAuth, ParseRefresh, RT.FindByTokenHash;
    hide RT.Rotate, RT.Save, RefreshFound;
    if s.procs[r].Arrived? { ArrivedKeepsMakers(s, r); }
  }

  lemma ArrivedKeepsMakers(s: State, r: RequestId)
    requires Running(s, r) && s.procs[r].Arrived?
    ensures StepArrived(s, r, s.procs[r].req).tokens.makers == s.tokens.makers
  {
    hide ResolveClient, NormalizeScope, NoInsert, RT.FindByTokenHash;
  }

  // ---- fresh values never run out ----

  lemma {:induction false} LongerThanAll(strings: set<string>) returns (n: nat)
    ensures forall x :: x in strings ==> |x| < n
  {
    if strings == {} {
      n := 0;
    } else {
      var x :| x in strings;
      n := LongerThanAll(strings - {x});
      n := if |x| < n then n else |x| + 1;
    }
  }

  lemma FreshDraw(s: State) returns (draw: Draw)
    ensures IsFresh(s, draw) && draw.code.value != ""
  {
    var n := LongerThanAll({""} + (set h | h in s.tokens.makers :: h.value) + (set h | h in s.presented :: h.value)
                           + (set f | f in s.tokens.founders :: f.value) + (set x | x in s.codes.makers :: x.value));
    var v := seq(n, _ => 'a');
    draw := Draw(TokenHash(v), FamilyID(v), Code(v));
    assert |draw.hash.value| == n && |draw.family.value| == n && |draw.code.value| == n;
  }

  lemma PendingCodeIsUnstored(s: State, r: RequestId)
    requires Reachable(s) && Running(s, r) && s.procs[r].AuthorizeSave?
    ensures s.procs[r].ac.code !in s.codes.rows
  {
    hide RL.Inv, IssuedLawfully, MakersInv, FamiliesInv, ProcInv;
    ReachableInv(s);
    assert ProcInv(s, r, s.procs[r]);
    PendingIsUnstored(s, r);
  }

  // ---- chains ----

  /**
    In every reachable state, whatever evictions, purges, revocations, deletes
    and rotations are in flight, each family shows a suffix of its chain.
   */
  lemma ChainLaw(s: State, f: FamilyID)
    requires Reachable(s) && f in s.tokens.chain
    ensures exists k: nat :: RL.ShowsSuffix(s.tokens, f, k, s.clock)
    ensures RL.ExpiryAscends(s.tokens, f)
  {
    hide RL.Inv, RL.ShowsSuffix, RL.ExpiryAscends;
    ReachableInv(s);
    var k := RL.VisibleRowsAreChainSuffix(s.tokens, f, s.clock);
  }

  // ---- revocation ----

  /** r was answered with a new refresh token of family f. */
  ghost predicate SucceededFrom(s: State, r: RequestId, f: FamilyID) {
    && Done(s, r) && s.procs[r].reply.Granted?
    && s.procs[r].reply.refresh.Some? && s.procs[r].reply.refresh.value.family == f
  }

  /** r stands at a RevokeFamily(f) call. */
  ghost predicate AboutToRevoke(s: State, r: RequestId, f: FamilyID) {
    r in s.procs && (s.procs[r].RefreshRevoke? || s.procs[r].RevokeDelete?) && s.procs[r].rt.family == f
  }

  ghost predicate NoRowOf(s: State, f: FamilyID) {
    forall h :: h in s.tokens.rows ==> s.tokens.rows[h].family != f
  }

  lemma RotationLeavesRevoked(l: TokenLedger, rt: RefreshToken, next: RefreshToken, now: Time)
    requires RL.Inv(l, now) && RL.Snapshot(l, rt) && next.family == rt.family
    ensures RotateLink(l, rt.hash, next, now).0.revoked == l.revoked
    ensures rt.family in l.revoked ==> RotateLink(l, rt.hash, next, now).1.Err?
  {
  }

  lemma RevokedMeansFounded(l: TokenLedger, f: FamilyID, now: Time)
    requires RL.Inv(l, now) && f in l.revoked
    ensures f in l.chain && forall h :: h in l.rows ==> l.rows[h].family != f
  {
  }

  /** The one call that stores a rotated token, and the one that stores a first token. */
  lemma InsertingStepSparesRevoked(s: State, r: RequestId, f: FamilyID)
    requires Running(s, r) && (s.procs[r].RefreshRotate? || s.procs[r].CodeSave?)
    requires Inv(s)
    ensures var s' := if s.procs[r].RefreshRotate? then StepRefreshRotate(s, r, s.procs[r])
                      else StepCodeSave(s, r, s.procs[r]);
            && s'.tokens.revoked == s.tokens.revoked
            && (f in s.tokens.revoked && SucceededFrom(s', r, f) ==> SucceededFrom(s, r, f))
  {
    hide RL.Inv, CodeLedgerInv, IssuedLawfully, MakersInv, FamiliesInv, RL.Snapshot, RotateLink;
    hide ReadFrom, Presented, Exchanging, OwnerPresent;
    var p := s.procs[r];
    assert ProcInv(s, r, p);
    PendingIsUnstored(s, r);
    if p.RefreshRotate? { RotationLeavesRevoked(s.tokens, p.rt, p.next, s.clock); }
    if f in s.tokens.revoked { RevokedMeansFounded(s.tokens, f, s.clock); }
  }

  ghost predicate AnswersNoRefresh(p: Proc) {
    p.Finished? && p.reply.Granted? ==> p.reply.refresh.None?
  }

  lemma EarlyStepsAnswerNoRefresh(s: State, r: RequestId)
    requires Running(s, r) && s.procs[r].Arrived?
    ensures var s' := StepArrived(s, r, s.procs[r].req);
            OnlyMoves(s, s', r) && AnswersNoRefresh(s'.procs[r]) && s'.tokens.revoked == s.tokens.revoked
  {
    hide ResolveClient, RT.FindByTokenHash, NormalizeScope, SameWorld;
  }

  lemma OtherStepsAnswerNoRefresh(s: State, r: RequestId, draw: Draw)
    requires Running(s, r) && !s.procs[r].RefreshRotate? && !s.procs[r].CodeSave?
    ensures var s' := StepProc(s, r, s.procs[r], draw);
            && OnlyMoves(s, s', r) && AnswersNoRefresh(s'.procs[r])
            && s'.tokens.revoked ==
               if s.procs[r].RefreshRevoke? || s.procs[r].RevokeDelete?
               then s.tokens.revoked + {s.procs[r].rt.family} else s.tokens.revoked
  {
    hide StepArrived, RT.FindByTokenHash, Verify, Narrow, MayRevoke, SameWorld, Validate, ParseAuth, ParseRefresh;
    if s.procs[r].Arrived? { EarlyStepsAnswerNoRefresh(s, r); }
  }

  lemma StepSparesRevoked(s: State, r: RequestId, draw: Draw, f: FamilyID)
    requires Running(s, r) && IsFresh(s, draw)
    requires Inv(s)
    ensures var s' := StepProc(s, r, s.procs[r], draw);
            && (f in s'.tokens.revoked <==> f in s.tokens.revoked || AboutToRevoke(s, r, f))
            && (f in s.tokens.revoked ==> forall q :: SucceededFrom(s', q, f) ==> SucceededFrom(s, q, f))
  {
    hide Inv, StepCodeSave, StepRefreshRotate;
    hide StepArrived, StepRefreshFind, StepRefreshOwner, StepRefreshMint, StepRefreshRevoke, StepCodeFind;
    hide StepCodeVerify, StepCodeConsume, StepCodeOwner, StepCodeMint, StepAuthorizeIssue, StepAuthorizeSave;
    hide StepRevokeClient, StepRevokeDelete;
    if s.procs[r].RefreshRotate? || s.procs[r].CodeSave? {
      InsertingStepSparesRevoked(s, r, f);
    } else {
      OtherStepsAnswerNoRefresh(s, r, draw);
    }
  }

  /** A family becomes revoked at exactly the RevokeFamily steps, and from then on nothing succeeds from it. */
  lemma ActionSparesRevoked(s: State, a: Action, f: FamilyID)
    requires Enabled(s, a)
    requires Inv(s)
    ensures f in Apply(s, a).tokens.revoked
            <==> f in s.tokens.revoked || (a.Step? && AboutToRevoke(s, a.r, f))
    ensures f in s.tokens.revoked ==> forall q :: SucceededFrom(Apply(s, a), q, f) ==> SucceededFrom(s, q, f)
  {
    hide Inv, StepProc;
    if a.Step? { StepSparesRevoked(s, a.r, a.draw, f); }
  }

  lemma {:induction false} RevokedStays(s: State, acts: seq<Action>, f: FamilyID)
    requires Legal(s, acts) && f in s.tokens.revoked
    requires Inv(s)
    ensures var s' := Run(s, acts);
            && f in s'.tokens.revoked && NoRowOf(s', f)
            && (forall q :: SucceededFrom(s', q, f) ==> SucceededFrom(s, q, f))
    decreases |acts|
  {
    hide Apply, RL.Inv, MakersInv, FamiliesInv, ProcsInv, SucceededFrom;
    if acts == [] {
      RevokedMeansFounded(s.tokens, f, s.clock);
    } else {
      hide Inv;
      ActionKeepsInv(s, acts[0]);
      ActionSparesRevoked(s, acts[0], f);
      RevokedStays(Apply(s, acts[0]), acts[1..], f);
    }
  }

  /**
    Revocation is permanent. Once a request has taken a RevokeFamily(f) step,
    after any further steps of any requests (also of those that had read a row
    of f before) there is no row of f, and no request gets a token of f that
    had not got it already.
   */
  lemma RevocationIsPermanent(s: State, r: RequestId, draw: Draw, acts: seq<Action>, f: FamilyID)
    requires Reachable(s) && Enabled(s, Step(r, draw)) && AboutToRevoke(s, r, f)
    requires Legal(Apply(s, Step(r, draw)), acts)
    ensures var s' := Run(Apply(s, Step(r, draw)), acts);
            && NoRowOf(s', f)
            && (forall q :: SucceededFrom(s', q, f) ==> SucceededFrom(Apply(s, Step(r, draw)), q, f))
  {
    hide Inv, Apply, Run, SucceededFrom;
    ReachableInv(s);
    ActionKeepsInv(s, Step(r, draw));
    ActionSparesRevoked(s, Step(r, draw), f);
    RevokedStays(Apply(s, Step(r, draw)), acts, f);
  }

  /** Presenting a stored token again after its rotation always leads to the revocation of its family. */
  lemma ReuseIsDetected(s: State, r: RequestId, draw: Draw)
    requires Reachable(s) && Enabled(s, Step(r, draw))
    requires s.procs[r].RefreshFind? || s.procs[r].RefreshRotate?
    requires var h := HashToken(s.procs[r].tok.refreshToken);
             RT.Live(s.tokens.rows, h, s.clock) && s.tokens.rows[h].consumed
    ensures AboutToRevoke(Apply(s, Step(r, draw)), r, s.tokens.rows[HashToken(s.procs[r].tok.refreshToken)].family)
  {
    hide RL.Inv, Narrow, MakersInv, FamiliesInv, IssuedLawfully, CodeLedgerInv;
    ReachableInv(s);
    var p := s.procs[r];
    var h := HashToken(p.tok.refreshToken);
    RowsParse(s.tokens, h, s.clock);
    if p.RefreshRotate? {
      assert ProcInv(s, r, p) && GrantMatches(p);
      SnapshotFamily(s.tokens, p.rt, s.clock);
    }
  }

  lemma SnapshotFamily(l: TokenLedger, rt: RefreshToken, now: Time)
    requires RL.Inv(l, now) && RL.Snapshot(l, rt) && rt.hash in l.rows
    ensures l.rows[rt.hash].family == rt.family
  {
  }

  lemma RowsParse(l: TokenLedger, h: TokenHash, now: Time)
    requires RL.Inv(l, now) && h in l.rows
    ensures RT.Reconstruct(h, l.rows[h]).Ok?
  {
  }

  // ---- single use ----

  /** r was answered with tokens under the given grant. */
  ghost predicate Succeeded(s: State, r: RequestId, grant: string) {
    && Done(s, r) && s.procs[r].reply.Granted?
    && s.procs[r].req.TokenCall? && s.procs[r].req.tok.grantType == grant
  }

  lemma AnswerIsLawful(s: State, r: RequestId)
    requires Inv(s) && Done(s, r)
    ensures AnsweredLawfully(s, r, s.procs[r].req, s.procs[r].reply)
  {
    hide RL.Inv, MakersInv, FamiliesInv, IssuedLawfully, CodeLedgerInv, AnsweredLawfully;
    assert ProcInv(s, r, s.procs[r]);
  }

  /** Of all requests that ever present one authorization code, at most one gets tokens for it. */
  lemma CodeSingleUse(s: State, q: RequestId, r: RequestId)
    requires Reachable(s) && Succeeded(s, q, AUTHORIZATION_CODE) && Succeeded(s, r, AUTHORIZATION_CODE)
    requires s.procs[q].req.tok.code == s.procs[r].req.tok.code
    ensures q == r
  {
    hide Inv;
    ReachableInv(s);
    AnswerIsLawful(s, q);
    AnswerIsLawful(s, r);
  }

  /** Of all requests that ever present one refresh token, at most one gets a successor for it. */
  lemma RefreshTokenSingleUse(s: State, q: RequestId, r: RequestId)
    requires Reachable(s) && Succeeded(s, q, REFRESH_TOKEN) && Succeeded(s, r, REFRESH_TOKEN)
    requires s.procs[q].req.tok.refreshToken == s.procs[r].req.tok.refreshToken
    ensures q == r
  {
    hide Inv, RL.Inv;
    ReachableInv(s);
    AnswerIsLawful(s, q);
    AnswerIsLawful(s, r);
    assert RL.Inv(s.tokens, s.clock) by { LedgersOf(s); }
    LinksByPlace(s.tokens, s.procs[q].reply.refresh.value.hash, s.procs[r].reply.refresh.value.hash, s.clock);
  }

  lemma LedgersOf(s: State)
    requires Inv(s)
    ensures RL.Inv(s.tokens, s.clock) && CodeLedgerInv(s.codes)
  {
    hide RL.Inv, MakersInv, FamiliesInv, IssuedLawfully, CodeLedgerInv, ProcsInv;
  }

  lemma LinksByPlace(l: TokenLedger, a: TokenHash, b: TokenHash, now: Time)
    requires RL.Inv(l, now) && RL.SameFamily(l, a, b) && l.links[a].pos == l.links[b].pos
    ensures a == b
  {
    assert RL.ChainShape(l);
  }

  /** Two refresh-token families never come from one authorization code. */
  lemma FamiliesHaveDistinctCodes(s: State, f: FamilyID, g: FamilyID)
    requires Reachable(s) && f in s.tokens.chain && g in s.tokens.chain
    requires f in s.tokens.origin && g in s.tokens.origin && s.tokens.origin[f] == s.tokens.origin[g]
    ensures f == g
  {
    hide RL.Inv, MakersInv, ProcsInv, IssuedLawfully, CodeLedgerInv;
    ReachableInv(s);
    assert FoundedBy(s, f, s.tokens.founders[f]) && FoundedBy(s, g, s.tokens.founders[g]);
  }

  /**
    Tokens for a code are handed out only if that code had been issued, was
    redeemed by this very request before it expired, and client, redirect URI
    and PKCE verifier all match what it was issued with.
   */
  lemma CodeSuccessMeansVerified(s: State, r: RequestId)
    requires Reachable(s) && Succeeded(s, r, AUTHORIZATION_CODE)
    ensures var tok, reply, x := s.procs[r].req.tok, s.procs[r].reply, Code(s.procs[r].req.tok.code);
            && x in s.codes.issued && x in s.codes.redeemed && s.codes.redeemed[x].redeemer == r
            && x !in s.codes.rows
            && var row := s.codes.issued[x].row;
               && s.codes.redeemed[x].time <= row.expiresAt
               && row.client == reply.client && row.redirectURI == tok.redirectURI
               && VerifyChallenge(row.challenge, tok.codeVerifier).Ok?
               && row.user == reply.user && row.authTime == reply.authTime && reply.scope.values == ValueSet(row.scope)
  {
    hide RL.Inv, MakersInv, FamiliesInv, ProcsInv, IssuedLawfully, VerifyChallenge, ValueSet;
    ReachableInv(s);
    AnswerIsLawful(s, r);
  }

  // ---- lineage ----

  /** Where the rights of a link come from. */
  ghost predicate Descended(s: State, h: TokenHash)
    requires h in s.tokens.links
  {
    var link := s.tokens.links[h].row;
    && link.family in s.tokens.origin && s.tokens.origin[link.family] in s.codes.issued
    && var code := s.codes.issued[s.tokens.origin[link.family]];
       && link.client == code.row.client && link.user == code.row.user && link.authTime == code.row.authTime
       && ValueSet(link.scope) <= ValueSet(code.row.scope)
       && ValueSet(code.row.scope) <= code.allowed + {OPENID}
       && Consent(code.row.user, code.row.client, code.row.scope) in s.consented
  }

  lemma LineageHolds(s: State, h: TokenHash)
    requires Inv(s) && h in s.tokens.links
    ensures Descended(s, h)
    ensures var l := s.tokens.links[h];
            l.pos > 0 ==>
              && l.row.family in s.tokens.chain && l.pos < |s.tokens.chain[l.row.family]|
              && var before := s.tokens.chain[l.row.family][l.pos - 1];
                 && before in s.tokens.links && s.tokens.links[before].row.family == l.row.family
                 && ValueSet(l.row.scope) <= ValueSet(s.tokens.links[before].row.scope)
  {
    hide RL.Inv, MakersInv, ProcsInv, CodeLedgerInv, ValueSet;
    var l := s.tokens.links[h];
    LinkBelowFirst(s.tokens, h, s.clock);
    assert FromCode(s, l.row.family);
    if l.pos > 0 { LinkBelow(s.tokens, h, s.clock); }
  }

  /**
    Every refresh token ever stored has the client, user and auth_time of the
    code that started its family. Its scope lies within its predecessor's and
    so within the code's, which in turn lies within openid and what the client
    was allowed at issue and has been consented to by that user for that client.
   */
  lemma Lineage(s: State, h: TokenHash)
    requires Reachable(s) && h in s.tokens.links
    ensures Descended(s, h)
    ensures var l := s.tokens.links[h];
            l.pos > 0 ==>
              && l.row.family in s.tokens.chain && l.pos < |s.tokens.chain[l.row.family]|
              && var before := s.tokens.chain[l.row.family][l.pos - 1];
                 && before in s.tokens.links && s.tokens.links[before].row.family == l.row.family
                 && ValueSet(l.row.scope) <= ValueSet(s.tokens.links[before].row.scope)
  {
    hide Inv, Descended, ValueSet;
    ReachableInv(s);
    LineageHolds(s, h);
  }

  lemma LinkBelowFirst(l: TokenLedger, h: TokenHash, now: Time)
    requires RL.Inv(l, now) && h in l.links
    ensures l.links[h].row.family in l.chain && l.chain[l.links[h].row.family] != []
    ensures var a := l.chain[l.links[h].row.family][0];
            && a in l.links
            && var ra, rh := l.links[a].row, l.links[h].row;
               && ra.client == rh.client && ra.user == rh.user && ra.authTime == rh.authTime
               && ValueSet(rh.scope) <= ValueSet(ra.scope)
  {
    var f := l.links[h].row.family;
    assert RL.ChainShape(l) && RL.ChainsAreLinks(l) && f in l.chain;
    assert RL.SameFamily(l, l.chain[f][0], h);
  }

  lemma LinkBelow(l: TokenLedger, h: TokenHash, now: Time)
    requires RL.Inv(l, now) && h in l.links && l.links[h].pos > 0
    ensures var f, i := l.links[h].row.family, l.links[h].pos;
            && f in l.chain && i < |l.chain[f]|
            && var before := l.chain[f][i - 1];
               && before in l.links && l.links[before].row.family == f
               && ValueSet(l.links[h].row.scope) <= ValueSet(l.links[before].row.scope)
  {
    var f := l.links[h].row.family;
    assert RL.ChainShape(l) && RL.ChainsAreLinks(l) && f in l.chain;
    assert RL.SameFamily(l, l.chain[f][l.links[h].pos - 1], h);
  }

  /**
    At the instant a refresh succeeds the presented token is stored, live and
    unconsumed, its owner still exists, and what is handed out is the next
    link of its chain, bound to the requesting client and no wider in scope.
   */
  lemma RefreshSuccessIsSound(s: State, r: RequestId, draw: Draw)
    requires Reachable(s) && Enabled(s, Step(r, draw)) && s.procs[r].RefreshRotate?
    requires Succeeded(Apply(s, Step(r, draw)), r, REFRESH_TOKEN)
    ensures var p, s' := s.procs[r], Apply(s, Step(r, draw));
            var h := HashToken(p.tok.refreshToken);
            && RT.Live(s.tokens.rows, h, s.clock) && !s.tokens.rows[h].consumed
            && s.tokens.rows[h].client == ClientID(p.tok.clientID) && s.tokens.rows[h].user in s.users
            && s'.procs[r].reply.refresh.Some? && s'.procs[r].reply.refresh.value == p.next
            && s'.procs[r].reply.scope.values <= ValueSet(s.tokens.rows[h].scope)
            && p.next.family in s.tokens.chain && p.next.family in s'.tokens.chain && s.tokens.chain[p.next.family] != []
            && s'.tokens.chain[p.next.family] == s.tokens.chain[p.next.family] + [p.next.hash]
            && s.tokens.chain[p.next.family][|s.tokens.chain[p.next.family]| - 1] == h
  {
    hide RL.Inv, MakersInv, FamiliesInv, IssuedLawfully, CodeLedgerInv, ValueSet, RotateLink;
    ReachableInv(s);
    var p := s.procs[r];
    assert ProcInv(s, r, p) && GrantMatches(p);
    PendingIsUnstored(s, r);
    assert RotateLink(s.tokens, p.rt.hash, p.next, s.clock).1.Ok?;
    RotationFoundLastLink(s.tokens, p.rt, p.next, s.clock);
  }

  lemma RotationFoundLastLink(l: TokenLedger, rt: RefreshToken, next: RefreshToken, now: Time)
    requires RL.Inv(l, now) && RL.Snapshot(l, rt) && RL.Follows(rt, next) && next.hash !in l.links
    requires RotateLink(l, rt.hash, next, now).1.Ok?
    ensures var l' := RotateLink(l, rt.hash, next, now).0;
            && RT.Live(l.rows, rt.hash, now) && !l.rows[rt.hash].consumed
            && l.rows[rt.hash].client == rt.client && l.rows[rt.hash].user == rt.user
            && ValueSet(l.rows[rt.hash].scope) == rt.scope.values
            && rt.family in l.chain && l.chain[rt.family] != [] && rt.family in l'.chain
            && l'.chain[rt.family] == l.chain[rt.family] + [next.hash]
            && l.chain[rt.family][|l.chain[rt.family]| - 1] == rt.hash
  {
    hide ValueSet;
    RL.RotationExtendsChain(l, rt, next, now);
    assert RL.RowsAreLinks(l) && RL.ChainShape(l);
  }

  // ---- who may do what ----

  /** A /token call gets past its first step exactly with a known client, its grant, its secret and something to redeem. */
  lemma TokenCallProceedsExactly(s: State, r: RequestId, draw: Draw)
    requires Enabled(s, Step(r, draw)) && s.procs[r].Arrived? && s.procs[r].req.TokenCall?
    ensures var tok, p' := s.procs[r].req.tok, Apply(s, Step(r, draw)).procs[r];
            var cid := ClientID(tok.clientID);
            && (!p'.Finished? <==>
                  && (tok.grantType == AUTHORIZATION_CODE || tok.grantType == REFRESH_TOKEN)
                  && (tok.grantType == AUTHORIZATION_CODE ==> tok.code != "")
                  && (tok.grantType == REFRESH_TOKEN ==> tok.refreshToken != "")
                  && tok.clientID != "" && cid in s.clients && tok.grantType in s.clients[cid].grantTypes
                  && (s.clients[cid].secret.Some? ==>
                        tok.clientSecret != "" && tok.clientSecret == s.clients[cid].secret.value))
            && (!p'.Finished? ==> if tok.grantType == REFRESH_TOKEN then p'.RefreshFind? else p'.CodeFind?)
  {
    hide NoInsert;
  }

  /**
    A revocation request deletes a family only on behalf of the client the
    token belongs to: a confidential one with its own id and secret, a public
    one unless another client is named. Everything else it answers the same.
   */
  lemma RevokeNeedsItsClient(s: State, r: RequestId, draw: Draw)
    requires Enabled(s, Step(r, draw)) && s.procs[r].RevokeClient?
    ensures var p, p' := s.procs[r], Apply(s, Step(r, draw)).procs[r];
            && (p'.RevokeDelete? <==>
                  && p.rt.client.value != "" && p.rt.client in s.clients
                  && (s.clients[p.rt.client].secret.Some? ==>
                        p.rev.clientID == p.rt.client.value && p.rev.clientSecret != ""
                        && p.rev.clientSecret == s.clients[p.rt.client].secret.value)
                  && (s.clients[p.rt.client].secret.None? ==> p.rev.clientID == "" || p.rev.clientID == p.rt.client.value))
            && (!p'.RevokeDelete? ==> p' == Finished(RevokeCall(p.rev), Revoked))
  {
    hide NoInsert;
  }

  lemma RevokeLookupNeverFails(s: State, r: RequestId)
    requires Running(s, r) && s.procs[r].Arrived? && s.procs[r].req.RevokeCall?
    requires RL.Inv(s.tokens, s.clock)
    ensures var p' := StepRevokeFind(s, r, s.procs[r], s.procs[r].req.rev).procs[r]; p'.Finished? ==> p'.reply == Revoked
  {
    hide NoInsert, RL.Inv, RT.Reconstruct;
    var h := HashToken(s.procs[r].req.rev.token);
    if h in s.tokens.rows { RowsParse(s.tokens, h, s.clock); }
  }

  /** No step of a revocation request ever answers anything but success. */
  lemma RevokeAlwaysAnswersSuccess(s: State, r: RequestId, draw: Draw)
    requires Reachable(s) && Enabled(s, Step(r, draw))
    requires s.procs[r].RevokeClient? || s.procs[r].RevokeDelete? || (s.procs[r].Arrived? && s.procs[r].req.RevokeCall?)
    ensures var p' := Apply(s, Step(r, draw)).procs[r]; p'.Finished? ==> p'.reply == Revoked
  {
    hide NoInsert, MayRevoke, RL.Inv, Inv, StepRevokeFind;
    ReachableInv(s);
    LedgersOf(s);
    if s.procs[r].Arrived? { RevokeLookupNeverFails(s, r); }
  }

  // ---- deleted users ----

  /** r refreshed a token of user u. */
  ghost predicate RefreshedFor(s: State, r: RequestId, u: UserID) {
    Succeeded(s, r, REFRESH_TOKEN) && s.procs[r].reply.user == u
  }

  lemma SnapshotOwner(l: TokenLedger, rt: RefreshToken, next: RefreshToken, now: Time)
    requires RL.Snapshot(l, rt) && RotateLink(l, rt.hash, next, now).1.Ok?
    ensures rt.hash in l.rows
  {
  }

  lemma RotationNeedsOwner(s: State, r: RequestId, u: UserID)
    requires Running(s, r) && s.procs[r].RefreshRotate? && u !in s.users
    requires Inv(s)
    ensures !RefreshedFor(StepRefreshRotate(s, r, s.procs[r]), r, u)
  {
    hide RL.Inv, CodeLedgerInv, IssuedLawfully, MakersInv, FamiliesInv, RL.Snapshot, RotateLink;
    hide ReadFrom, Presented, Exchanging;
    var p := s.procs[r];
    assert ProcInv(s, r, p);
    if RotateLink(s.tokens, p.rt.hash, p.next, s.clock).1.Ok? { SnapshotOwner(s.tokens, p.rt, p.next, s.clock); }
  }

  lemma ActionSparesDeleted(s: State, a: Action, u: UserID)
    requires Enabled(s, a) && u !in s.users && a != PutUser(u)
    requires Inv(s)
    ensures u !in Apply(s, a).users
    ensures forall r :: RefreshedFor(Apply(s, a), r, u) ==> RefreshedFor(s, r, u)
  {
    hide Inv, StepProc;
    if a.Step? { StepSparesDeleted(s, a.r, a.draw, u); }
  }

  lemma CodeGrantStays(s: State, r: RequestId, draw: Draw)
    requires Running(s, r) && s.procs[r].CodeMint? && GrantMatches(s.procs[r])
    ensures var s' := StepProc(s, r, s.procs[r], draw); r in s'.procs && !Succeeded(s', r, REFRESH_TOKEN)
  {
    hide NoInsert, ParseRefresh;
  }

  lemma SaveIsCodeGrant(s: State, r: RequestId)
    requires Running(s, r) && s.procs[r].CodeSave? && GrantMatches(s.procs[r])
    ensures !Succeeded(StepCodeSave(s, r, s.procs[r]), r, REFRESH_TOKEN)
  {
    hide SaveFirst;
  }

  lemma StepSparesDeleted(s: State, r: RequestId, draw: Draw, u: UserID)
    requires Running(s, r) && u !in s.users
    requires Inv(s)
    ensures var s' := StepProc(s, r, s.procs[r], draw);
            u !in s'.users && forall q :: RefreshedFor(s', q, u) ==> RefreshedFor(s, q, u)
  {
    hide RL.Inv, CodeLedgerInv, IssuedLawfully, MakersInv, FamiliesInv, ProcInv, GrantMatches, StepProc;
    hide StepRefreshRotate, StepCodeSave;
    var s' := StepProc(s, r, s.procs[r], draw);
    assert ProcInv(s, r, s.procs[r]) && GrantMatches(s.procs[r]);
    StepMovesOnly(s, r, draw);
    assert !RefreshedFor(s', r, u) by {
      StepIsProgram(s, r, draw);
      if s.procs[r].RefreshRotate? { RotationNeedsOwner(s, r, u); }
      else if s.procs[r].CodeSave? { SaveIsCodeGrant(s, r); }
      else if s.procs[r].CodeMint? { CodeGrantStays(s, r, draw); }
      else { OthersGrantNothing(s, r, draw); }
    }
  }

  lemma StepIsProgram(s: State, r: RequestId, draw: Draw)
    requires Running(s, r)
    ensures s.procs[r].RefreshRotate? ==> StepProc(s, r, s.procs[r], draw) == StepRefreshRotate(s, r, s.procs[r])
    ensures s.procs[r].CodeSave? ==> StepProc(s, r, s.procs[r], draw) == StepCodeSave(s, r, s.procs[r])
  {
    hide StepRefreshRotate, StepCodeSave;
  }

  lemma OthersGrantNothing(s: State, r: RequestId, draw: Draw)
    requires Running(s, r) && !s.procs[r].RefreshRotate? && !s.procs[r].CodeSave? && !s.procs[r].CodeMint?
    ensures var s' := StepProc(s, r, s.procs[r], draw);
            r in s'.procs && !(s'.procs[r].Finished? && s'.procs[r].reply.Granted?)
  {
    hide StepArrived, RT.FindByTokenHash, Verify, Narrow, MayRevoke, NoInsert, Validate, ParseAuth;
    if s.procs[r].Arrived? { ArrivalGrantsNothing(s, r); }
  }

  lemma ArrivalGrantsNothing(s: State, r: RequestId)
    requires Running(s, r) && s.procs[r].Arrived?
    ensures var s' := StepArrived(s, r, s.procs[r].req);
            r in s'.procs && !(s'.procs[r].Finished? && s'.procs[r].reply.Granted?)
  {
    hide ResolveClient, RT.FindByTokenHash, NormalizeScope, NoInsert;
  }

  /**
    Once a user is gone and not registered again, no refresh token of that
    user is ever redeemed, whatever requests were under way and whatever rows
    an exchange in flight may still have stored.
   */
  lemma {:induction false} DeletedUserNeverRefreshes(s: State, acts: seq<Action>, u: UserID)
    requires Legal(s, acts) && u !in s.users && PutUser(u) !in acts
    requires Inv(s)
    ensures var s' := Run(s, acts); u !in s'.users && forall r :: RefreshedFor(s', r, u) ==> RefreshedFor(s, r, u)
    decreases |acts|
  {
    hide Inv, Apply, RefreshedFor;
    if acts != [] {
      ActionKeepsInv(s, acts[0]);
      ActionSparesDeleted(s, acts[0], u);
      DeletedUserNeverRefreshes(Apply(s, acts[0]), acts[1..], u);
    }
  }
}
