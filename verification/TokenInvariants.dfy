/**
  The inductive invariant of the token protocol: the two ledgers, the history
  that names who made what, and for every program counter what its request
  has established by then. It holds in every reachable state.
 */
module TokenInvariants {
  import opened Wrappers
  import opened Scopes
  import opened Domain
  import opened Pkce
  import opened Authorize
  import opened TokenProtocol
  import RT = RefreshTokenStore
  import AC = AuthCodeStore
  import RL = RotationLedger

  // ---- codes ----

  ghost predicate CodeLedgerInv(c: CodeLedger) {
    && (forall x :: x in c.rows ==> x in c.issued && c.rows[x] == c.issued[x].row)
    && (forall x :: x in c.redeemed ==>
          x in c.issued && x !in c.rows && c.redeemed[x].time <= c.issued[x].row.expiresAt)
  }

  /** Every issued code was consented to, and asks for no more than its client was allowed. */
  ghost predicate IssuedLawfully(s: State) {
    forall x :: x in s.codes.issued ==>
      var row := s.codes.issued[x].row;
      && Consent(row.user, row.client, row.scope) in s.consented
      && ValueSet(row.scope) <= s.codes.issued[x].allowed + {OPENID}
  }

  /** ac is what a call read from the row of its code. */
  ghost predicate ReadFrom(c: CodeLedger, ac: AuthorizationCode) {
    && ac.code in c.issued && Canonical(ac.scope)
    && var row := c.issued[ac.code].row;
       && ac.client == row.client && ac.user == row.user && ac.redirectURI == row.redirectURI
       && ac.challenge == row.challenge && ac.authTime == row.authTime && ac.expiresAt == row.expiresAt
       && ac.scope.values == ValueSet(row.scope)
  }

  /** What a code exchange has checked once it passed Verify. */
  ghost predicate Presented(tok: TokenRequest, cid: ClientID, ac: AuthorizationCode) {
    && ac.code == Code(tok.code) && ac.client == cid && ac.redirectURI == tok.redirectURI
    && VerifyChallenge(ac.challenge, tok.codeVerifier).Ok?
  }

  ghost predicate RedeemedBy(c: CodeLedger, x: Code, r: RequestId) {
    x in c.redeemed && c.redeemed[x].redeemer == r
  }

  /** A code exchange that has consumed its code. */
  ghost predicate Exchanging(s: State, r: RequestId, tok: TokenRequest, cid: ClientID, ac: AuthorizationCode) {
    ReadFrom(s.codes, ac) && Presented(tok, cid, ac) && RedeemedBy(s.codes, ac.code, r)
  }

  // ---- programs ----

  /** The owner of a token being refreshed is still there as long as the token's row is. */
  ghost predicate OwnerPresent(s: State, rt: RefreshToken) {
    rt.hash in s.tokens.rows ==> rt.user in s.users
  }

  ghost predicate ExchangeGranted(s: State, r: RequestId, tok: TokenRequest, reply: Reply)
    requires reply.Granted?
  {
    var x := Code(tok.code);
    && RedeemedBy(s.codes, x, r) && x in s.codes.issued
    && var row := s.codes.issued[x].row;
       && row.client == reply.client && row.user == reply.user && row.authTime == reply.authTime
       && reply.scope.values == ValueSet(row.scope)
       && row.redirectURI == tok.redirectURI && VerifyChallenge(row.challenge, tok.codeVerifier).Ok?
  }

  ghost predicate Narrowed(s: State, rt: RefreshToken, scope: Scope) {
    RL.Snapshot(s.tokens, rt) && Canonical(scope) && scope.values <= rt.scope.values
  }

  ghost predicate RotateReady(s: State, r: RequestId, rt: RefreshToken, next: RefreshToken) {
    && RL.Snapshot(s.tokens, rt) && RL.Follows(rt, next) && OwnerPresent(s, rt)
    && next.hash in s.tokens.makers && s.tokens.makers[next.hash] == r
    && next.expiresAt <= s.clock + REFRESH_TOKEN_TTL
  }

  ghost predicate SaveReady(s: State, r: RequestId, ac: AuthorizationCode, rt: RefreshToken) {
    && rt.client == ac.client && rt.user == ac.user && rt.authTime == ac.authTime
    && rt.scope.values == ac.scope.values && Canonical(rt.scope)
    && rt.hash in s.tokens.makers && s.tokens.makers[rt.hash] == r
    && rt.family in s.tokens.founders && s.tokens.founders[rt.family] == r
    && rt.expiresAt <= s.clock + REFRESH_TOKEN_TTL
  }

  ghost predicate ConsentSeen(s: State, auth: AuthorizeRequest, owner: UserID) {
    && NormalizeScope(auth.scope).Ok?
    && Consent(owner, ClientID(auth.clientID), NormalizeScope(auth.scope).value) in s.consented
  }

  ghost predicate IssueReady(s: State, r: RequestId, ac: AuthorizationCode, allowed: set<string>) {
    && Consent(ac.user, ac.client, ac.scope.value) in s.consented
    && Canonical(ac.scope) && ac.scope.values <= allowed + {OPENID}
    && ac.code in s.codes.makers && s.codes.makers[ac.code] == r
  }

  /** A granted refresh answers with the link right behind the one presented, drawn by this very request. */
  ghost predicate RefreshGranted(s: State, r: RequestId, tok: TokenRequest, reply: Reply)
    requires reply.Granted?
  {
    var previous := HashToken(tok.refreshToken);
    && reply.refresh.Some? && reply.refresh.value.hash in s.tokens.links && previous in s.tokens.links
    && var h, links := reply.refresh.value.hash, s.tokens.links;
       && links[h].row == RT.RowOf(reply.refresh.value) && links[h].pos == links[previous].pos + 1
       && links[h].row.family == links[previous].row.family && links[h].row.client == ClientID(tok.clientID)
       && h in s.tokens.makers && s.tokens.makers[h] == r
  }

  ghost predicate AnsweredLawfully(s: State, r: RequestId, req: Request, reply: Reply) {
    req.TokenCall? && reply.Granted? ==>
      && (req.tok.grantType == AUTHORIZATION_CODE ==> ExchangeGranted(s, r, req.tok, reply))
      && (req.tok.grantType == REFRESH_TOKEN ==> RefreshGranted(s, r, req.tok, reply))
  }

  /** What a request has established by the time it stands at p. */
  ghost predicate ProcInv(s: State, r: RequestId, p: Proc) {
    && (p.RefreshOwner? ==> Narrowed(s, p.rt, p.scope))
    && (p.RefreshMint? ==> Narrowed(s, p.rt, p.scope) && OwnerPresent(s, p.rt))
    && (p.RefreshRotate? ==> RotateReady(s, r, p.rt, p.next))
    && (p.RefreshRevoke? || p.RevokeClient? || p.RevokeDelete? ==> RL.Snapshot(s.tokens, p.rt))
    && (p.CodeVerify? ==> ReadFrom(s.codes, p.ac) && p.ac.code == Code(p.tok.code))
    && (p.CodeConsume? ==> ReadFrom(s.codes, p.ac) && Presented(p.tok, p.cid, p.ac))
    && (p.CodeOwner? || p.CodeMint? || p.CodeSave? ==> Exchanging(s, r, p.tok, p.cid, p.ac))
    && (p.CodeSave? ==> SaveReady(s, r, p.ac, p.rt))
    && (p.AuthorizeIssue? ==> ConsentSeen(s, p.auth, p.owner))
    && (p.AuthorizeSave? ==> IssueReady(s, r, p.ac, p.allowed))
    && (p.Finished? ==> AnsweredLawfully(s, r, p.req, p.reply))
  }

  ghost predicate ProcsInv(s: State) {
    forall r {:trigger ProcInv(s, r, s.procs[r])} {:trigger GrantMatches(s.procs[r])} :: r in s.procs ==>
      ProcInv(s, r, s.procs[r]) && GrantMatches(s.procs[r])
  }

  /** The grant a program counter belongs to. */
  function GrantOf(p: Proc): Option<string> {
    match p
    case RefreshFind(_, _) => Some(REFRESH_TOKEN)
    case RefreshOwner(_, _, _, _) => Some(REFRESH_TOKEN)
    case RefreshMint(_, _, _, _) => Some(REFRESH_TOKEN)
    case RefreshRotate(_, _, _, _) => Some(REFRESH_TOKEN)
    case RefreshRevoke(_, _, _) => Some(REFRESH_TOKEN)
    case CodeFind(_, _, _) => Some(AUTHORIZATION_CODE)
    case CodeVerify(_, _, _, _) => Some(AUTHORIZATION_CODE)
    case CodeConsume(_, _, _, _) => Some(AUTHORIZATION_CODE)
    case CodeOwner(_, _, _, _) => Some(AUTHORIZATION_CODE)
    case CodeMint(_, _, _, _) => Some(AUTHORIZATION_CODE)
    case CodeSave(_, _, _, _) => Some(AUTHORIZATION_CODE)
    case _ => None
  }

  /** A program works for its own grant, on the token presented, for the client that token is bound to. */
  ghost predicate GrantMatches(p: Proc) {
    && (GrantOf(p).Some? ==> GrantOf(p).value == p.tok.grantType && p.cid == ClientID(p.tok.clientID))
    && (p.RefreshOwner? || p.RefreshMint? || p.RefreshRotate? || p.RefreshRevoke? ==>
          p.rt.hash == HashToken(p.tok.refreshToken))
    && (p.RefreshOwner? || p.RefreshMint? || p.RefreshRotate? ==> p.rt.client == p.cid)
  }

  // ---- makers: fresh values are stored once, by a request that then ends ----

  ghost predicate Done(s: State, r: RequestId) { r in s.procs && s.procs[r].Finished? }

  ghost predicate MakersInv(s: State) {
    && (forall h :: h in s.tokens.links ==>
          h in s.tokens.makers && Done(s, s.tokens.makers[h]))
    && (forall x :: x in s.codes.issued ==>
          x in s.codes.makers && Done(s, s.codes.makers[x]))
  }

  /** The first link of a family carries over the code its founder redeemed. */
  ghost predicate FromCode(s: State, f: FamilyID)
    requires f in s.tokens.chain && s.tokens.chain[f] != []
  {
    var h := s.tokens.chain[f][0];
    && f in s.tokens.origin && s.tokens.origin[f] in s.codes.issued && h in s.tokens.links
    && var first, code := s.tokens.links[h].row, s.codes.issued[s.tokens.origin[f]].row;
       && first.client == code.client && first.user == code.user && first.authTime == code.authTime
       && ValueSet(first.scope) == ValueSet(code.scope)
  }

  ghost predicate FoundedBy(s: State, f: FamilyID, r: RequestId) {
    && Done(s, r) && s.procs[r].reply.Granted? && s.procs[r].reply.refresh.Some?
    && s.procs[r].reply.refresh.value.family == f
  }

  ghost predicate FamiliesInv(s: State) {
    forall f :: f in s.tokens.chain ==>
      && s.tokens.chain[f] != [] && FromCode(s, f)
      && f in s.tokens.founders && FoundedBy(s, f, s.tokens.founders[f])
      && RedeemedBy(s.codes, s.tokens.origin[f], s.tokens.founders[f])
  }

  ghost predicate Inv(s: State) {
    && RL.Inv(s.tokens, s.clock) && CodeLedgerInv(s.codes) && IssuedLawfully(s)
    && MakersInv(s) && FamiliesInv(s) && ProcsInv(s) && s.consents <= s.consented
  }

  // ---- stability under the steps of others ----

  /** The history of tokens only grows; rows of old links only go away. */
  ghost predicate TokensGrow(l: TokenLedger, l': TokenLedger) {
    && (forall h :: h in l.links ==> h in l'.links && l'.links[h] == l.links[h])
    && (forall h :: h in l.makers ==> h in l'.makers && l'.makers[h] == l.makers[h])
    && (forall f :: f in l.founders ==> f in l'.founders && l'.founders[f] == l.founders[f])
    && (forall h :: h in l.links && h in l'.rows ==> h in l.rows)
  }

  ghost predicate CodesGrow(c: CodeLedger, c': CodeLedger) {
    && (forall x :: x in c.issued ==> x in c'.issued && c'.issued[x] == c.issued[x])
    && (forall x :: x in c.redeemed ==> x in c'.redeemed && c'.redeemed[x] == c.redeemed[x])
    && (forall x :: x in c.makers ==> x in c'.makers && c'.makers[x] == c.makers[x])
  }

  /** A user only leaves together with the rows of its tokens. */
  ghost predicate UsersLeaveWithRows(s: State, s': State) {
    forall h :: h in s.tokens.links && h in s'.tokens.rows && s.tokens.links[h].row.user in s.users ==>
      s.tokens.links[h].row.user in s'.users
  }

  ghost predicate Grows(s: State, s': State) {
    && s.clock <= s'.clock && s.consented <= s'.consented
    && TokensGrow(s.tokens, s'.tokens) && CodesGrow(s.codes, s'.codes) && UsersLeaveWithRows(s, s')
  }

  lemma ProcInvIsStable(s: State, s': State, r: RequestId, p: Proc)
    requires Grows(s, s') && ProcInv(s, r, p)
    ensures ProcInv(s', r, p)
  {
  }

  lemma OthersKeepProcs(s: State, s': State, r: RequestId)
    requires ProcsInv(s) && Grows(s, s') && OnlyMoves(s, s', r)
    requires ProcInv(s', r, s'.procs[r]) && GrantMatches(s'.procs[r])
    ensures ProcsInv(s')
  {
    forall q | q in s'.procs ensures ProcInv(s', q, s'.procs[q]) && GrantMatches(s'.procs[q]) {
      assert q != r ==> ProcInv(s, q, s.procs[q]) && GrantMatches(s.procs[q]);
      if q != r { ProcInvIsStable(s, s', q, s.procs[q]); }
    }
  }

  ghost predicate DoneStays(s: State, s': State) {
    forall q :: Done(s, q) ==> q in s'.procs && s'.procs[q] == s.procs[q]
  }

  lemma MakersStay(s: State, s': State)
    requires MakersInv(s) && Grows(s, s') && DoneStays(s, s')
    requires s'.tokens.links.Keys == s.tokens.links.Keys && s'.codes.issued.Keys == s.codes.issued.Keys
    ensures MakersInv(s')
  {
    forall h | h in s'.tokens.links ensures h in s'.tokens.makers && Done(s', s'.tokens.makers[h]) {
      assert Done(s, s.tokens.makers[h]);
    }
    forall x | x in s'.codes.issued ensures x in s'.codes.makers && Done(s', s'.codes.makers[x]) {
      assert Done(s, s.codes.makers[x]);
    }
  }

  /** Chains may grow at the end; where they begin does not change. */
  lemma FamiliesStay(s: State, s': State)
    requires FamiliesInv(s) && Grows(s, s') && DoneStays(s, s')
    requires s'.tokens.chain.Keys == s.tokens.chain.Keys && s'.tokens.origin == s.tokens.origin
    requires forall f :: f in s.tokens.chain ==> s.tokens.chain[f] <= s'.tokens.chain[f]
    ensures FamiliesInv(s')
  {
    forall f | f in s'.tokens.chain
      ensures && s'.tokens.chain[f] != [] && FromCode(s', f)
              && f in s'.tokens.founders && FoundedBy(s', f, s'.tokens.founders[f])
              && RedeemedBy(s'.codes, s'.tokens.origin[f], s'.tokens.founders[f])
    {
      assert FromCode(s, f) && Done(s, s.tokens.founders[f]);
      assert s'.tokens.chain[f][0] == s.tokens.chain[f][0];
    }
  }

  // ---- steps ----

  /** What a request is about to store has not been stored before. */
  ghost predicate Unstored(s: State, p: Proc) {
    match p
    case RefreshRotate(_, _, _, next) => next.hash !in s.tokens.links
    case CodeSave(_, _, _, rt) => rt.hash !in s.tokens.links && rt.family !in s.tokens.chain
    case AuthorizeSave(_, _, ac, _) => ac.code !in s.codes.issued
    case _ => true
  }

  lemma PendingIsUnstored(s: State, r: RequestId)
    requires MakersInv(s) && FamiliesInv(s) && Running(s, r) && ProcInv(s, r, s.procs[r])
    ensures Unstored(s, s.procs[r])
  {
    assert !Done(s, r);
  }

  /** A step that stores nothing new: only its ledger parts and its own program are left to check. */
  lemma StepWithoutInsert(s: State, s': State, r: RequestId)
    requires !Done(s, r) && NoInsert(s, s', r)
    requires Inv(s)
    requires TokensGrow(s.tokens, s'.tokens) && CodesGrow(s.codes, s'.codes)
    requires RL.Inv(s'.tokens, s'.clock) && CodeLedgerInv(s'.codes)
    requires ProcInv(s', r, s'.procs[r]) && GrantMatches(s'.procs[r])
    ensures Inv(s')
  {
    hide RL.Inv, CodeLedgerInv, ProcInv, TokensGrow, CodesGrow, ValueSet;
    assert UsersLeaveWithRows(s, s');
    assert Grows(s, s');
    assert DoneStays(s, s');
    MakersStay(s, s');
    FamiliesStay(s, s');
    OthersKeepProcs(s, s', r);
  }

  lemma ArrivedStep(s: State, r: RequestId)
    requires Running(s, r) && s.procs[r].Arrived? && !s.procs[r].req.RevokeCall?
    requires Inv(s)
    ensures Inv(StepArrived(s, r, s.procs[r].req))
  {
    hide RL.Inv, CodeLedgerInv, IssuedLawfully, MakersInv, FamiliesInv, NoInsert, Narrowed, OwnerPresent, RotateReady;
    hide RL.Snapshot, ReadFrom, Presented, Exchanging, SaveReady, IssueReady, ExchangeGranted, ResolveClient;
    hide NormalizeScope, StepRevokeFind;
    assert ProcInv(s, r, s.procs[r]);
    StepWithoutInsert(s, StepArrived(s, r, s.procs[r].req), r);
  }

  lemma EvictionGrows(l: TokenLedger, h: TokenHash, now: Time)
    ensures TokensGrow(l, l.(rows := RT.FindByTokenHash(l.rows, h, now).0)) && TokensGrow(l, l)
  {
  }

  lemma DrawGrows(s: State, r: RequestId, draw: Draw)
    requires IsFresh(s, draw)
    ensures var makers, founders := s.tokens.makers[draw.hash := r], s.tokens.founders[draw.family := r];
            && TokensGrow(s.tokens, s.tokens.(makers := makers))
            && TokensGrow(s.tokens, s.tokens.(makers := makers, founders := founders))
            && TokensGrow(s.tokens, s.tokens)
  {
  }

  lemma RevokeFindStep(s: State, r: RequestId)
    requires Running(s, r) && s.procs[r].Arrived? && s.procs[r].req.RevokeCall?
    requires Inv(s)
    ensures Inv(StepRevokeFind(s, r, s.procs[r], s.procs[r].req.rev))
  {
    hide RL.Inv, CodeLedgerInv, IssuedLawfully, MakersInv, FamiliesInv, NoInsert, Narrowed, OwnerPresent, RotateReady;
    hide RL.Snapshot, ReadFrom, Presented, Exchanging, SaveReady, ConsentSeen, IssueReady, ExchangeGranted;
    hide TokensGrow, RT.FindByTokenHash, Canonical;
    assert ProcInv(s, r, s.procs[r]);
    var rev := s.procs[r].req.rev;
    var h := HashToken(rev.token);
    RL.FoundAfterFind(s.tokens, h, s.clock);
    RL.FindKeepsInv(s.tokens, h, s.clock);
    EvictionGrows(s.tokens, h, s.clock);
    StepWithoutInsert(s, StepRevokeFind(s, r, s.procs[r], rev), r);
  }

  lemma RefreshFoundOutcome(s: State, r: RequestId, p: Proc, rt: RefreshToken)
    requires p.RefreshFind? && GrantMatches(p) && RL.Snapshot(s.tokens, rt) && Canonical(rt.scope)
    requires rt.hash == HashToken(p.tok.refreshToken)
    ensures var s' := RefreshFound(s, r, p, rt);
            ProcInv(s', r, s'.procs[r]) && GrantMatches(s'.procs[r])
  {
    hide RL.Snapshot, Canonical, Narrow, NoInsert;
    NarrowedIsCanonical(rt.scope, p.tok.scope);
  }

  lemma RefreshFindOutcome(s: State, r: RequestId)
    requires Running(s, r) && s.procs[r].RefreshFind? && GrantMatches(s.procs[r])
    requires RL.Inv(s.tokens, s.clock)
    ensures var s' := StepRefreshFind(s, r, s.procs[r]);
            ProcInv(s', r, s'.procs[r]) && GrantMatches(s'.procs[r])
  {
    hide RL.Inv, RL.Snapshot, RT.FindByTokenHash, Canonical, RefreshFound, NoInsert;
    var p := s.procs[r];
    var h := HashToken(p.tok.refreshToken);
    RL.FoundAfterFind(s.tokens, h, s.clock);
    var (rows, found) := RT.FindByTokenHash(s.tokens.rows, h, s.clock);
    if found.Ok? { RefreshFoundOutcome(s.(tokens := s.tokens.(rows := rows)), r, p, found.value); }
  }

  lemma RefreshFindStep(s: State, r: RequestId)
    requires Running(s, r) && s.procs[r].RefreshFind?
    requires Inv(s)
    ensures Inv(StepRefreshFind(s, r, s.procs[r]))
  {
    hide RL.Inv, CodeLedgerInv, IssuedLawfully, MakersInv, FamiliesInv, NoInsert, ProcInv, TokensGrow;
    hide RT.FindByTokenHash, StepRefreshFind;
    var p := s.procs[r];
    assert ProcInv(s, r, p);
    var h := HashToken(p.tok.refreshToken);
    RefreshFindOutcome(s, r);
    RL.FindKeepsInv(s.tokens, h, s.clock);
    EvictionGrows(s.tokens, h, s.clock);
    NoInsertKeepsWorld(s, StepRefreshFind(s, r, p), r);
    StepWithoutInsert(s, StepRefreshFind(s, r, p), r);
  }

  lemma RefreshOwnerStep(s: State, r: RequestId)
    requires Running(s, r) && s.procs[r].RefreshOwner?
    requires Inv(s)
    ensures Inv(StepRefreshOwner(s, r, s.procs[r]))
  {
    hide RL.Inv, CodeLedgerInv, IssuedLawfully, MakersInv, FamiliesInv, NoInsert, RotateReady, RL.Snapshot, ReadFrom;
    hide Presented, Exchanging, SaveReady, ConsentSeen, IssueReady, ExchangeGranted;
    assert ProcInv(s, r, s.procs[r]);
    StepWithoutInsert(s, StepRefreshOwner(s, r, s.procs[r]), r);
  }

  lemma RefreshMintStep(s: State, r: RequestId, draw: Draw)
    requires Running(s, r) && s.procs[r].RefreshMint? && IsFresh(s, draw)
    requires Inv(s)
    ensures Inv(StepRefreshMint(s, r, s.procs[r], draw))
  {
    hide RL.Inv, CodeLedgerInv, IssuedLawfully, MakersInv, FamiliesInv, NoInsert, ReadFrom, Presented, Exchanging;
    hide SaveReady, ConsentSeen, IssueReady, AnsweredLawfully, ExchangeGranted, Canonical;
    assert ProcInv(s, r, s.procs[r]);
    var p := s.procs[r];
    var s' := StepRefreshMint(s, r, p, draw);
    RL.MakersKeepInv(s.tokens, s'.tokens, s.clock);
    RL.SnapshotIsRecent(s.tokens, p.rt, s.clock);
    StepWithoutInsert(s, s', r);
  }

  lemma RefreshRevokeStep(s: State, r: RequestId)
    requires Running(s, r) && s.procs[r].RefreshRevoke?
    requires Inv(s)
    ensures Inv(StepRefreshRevoke(s, r, s.procs[r]))
  {
    hide RL.Inv, CodeLedgerInv, IssuedLawfully, MakersInv, FamiliesInv, NoInsert, Narrowed, OwnerPresent, RotateReady;
    hide RL.Snapshot, ReadFrom, Presented, Exchanging, SaveReady, ConsentSeen, IssueReady, ExchangeGranted;
    assert ProcInv(s, r, s.procs[r]);
    RL.RevocationKeepsInv(s.tokens, s.procs[r].rt, s.clock);
    StepWithoutInsert(s, StepRefreshRevoke(s, r, s.procs[r]), r);
  }

  lemma RevokeDeleteStep(s: State, r: RequestId)
    requires Running(s, r) && s.procs[r].RevokeDelete?
    requires Inv(s)
    ensures Inv(StepRevokeDelete(s, r, s.procs[r]))
  {
    hide RL.Inv, CodeLedgerInv, IssuedLawfully, MakersInv, FamiliesInv, NoInsert, Narrowed, OwnerPresent, RotateReady;
    hide RL.Snapshot, ReadFrom, Presented, Exchanging, SaveReady, ConsentSeen, IssueReady, ExchangeGranted;
    assert ProcInv(s, r, s.procs[r]);
    RL.RevocationKeepsInv(s.tokens, s.procs[r].rt, s.clock);
    StepWithoutInsert(s, StepRevokeDelete(s, r, s.procs[r]), r);
  }

  lemma RevokeClientStep(s: State, r: RequestId)
    requires Running(s, r) && s.procs[r].RevokeClient?
    requires Inv(s)
    ensures Inv(StepRevokeClient(s, r, s.procs[r]))
  {
    hide RL.Inv, CodeLedgerInv, IssuedLawfully, MakersInv, FamiliesInv, NoInsert, Narrowed, OwnerPresent, RotateReady;
    hide RL.Snapshot, ReadFrom, Presented, Exchanging, SaveReady, ConsentSeen, IssueReady, ExchangeGranted;
    hide MayRevoke;
    assert ProcInv(s, r, s.procs[r]);
    StepWithoutInsert(s, StepRevokeClient(s, r, s.procs[r]), r);
  }

  lemma FoundCode(c: CodeLedger, x: Code, now: Time)
    requires CodeLedgerInv(c)
    ensures var (rows', found) := AC.FindByCode(c.rows, x, now);
            var c' := c.(rows := rows');
            && CodeLedgerInv(c') && CodesGrow(c, c')
            && (found.Ok? ==> ReadFrom(c', found.value) && found.value.code == x)
  {
    if x in c.rows { ParsedIsCanonical(c.rows[x].scope); }
  }

  lemma CodeFindStep(s: State, r: RequestId)
    requires Running(s, r) && s.procs[r].CodeFind?
    requires Inv(s)
    ensures Inv(StepCodeFind(s, r, s.procs[r]))
  {
    hide RL.Inv, CodeLedgerInv, IssuedLawfully, MakersInv, FamiliesInv, NoInsert, Narrowed, OwnerPresent, RotateReady;
    hide RL.Snapshot, ReadFrom, Presented, Exchanging, SaveReady, ConsentSeen, IssueReady, ExchangeGranted;
    hide CodesGrow, AC.FindByCode;
    var p := s.procs[r];
    assert ProcInv(s, r, p);
    FoundCode(s.codes, Code(p.tok.code), s.clock);
    StepWithoutInsert(s, StepCodeFind(s, r, p), r);
  }

  lemma CodeVerifyStep(s: State, r: RequestId)
    requires Running(s, r) && s.procs[r].CodeVerify?
    requires Inv(s)
    ensures Inv(StepCodeVerify(s, r, s.procs[r]))
  {
    hide RL.Inv, CodeLedgerInv, IssuedLawfully, MakersInv, FamiliesInv, NoInsert, Narrowed, OwnerPresent, RotateReady;
    hide RL.Snapshot, ReadFrom, Exchanging, SaveReady, ConsentSeen, IssueReady, ExchangeGranted;
    hide VerifyChallenge;
    assert ProcInv(s, r, s.procs[r]);
    StepWithoutInsert(s, StepCodeVerify(s, r, s.procs[r]), r);
  }

  lemma ConsumedCode(c: CodeLedger, ac: AuthorizationCode, r: RequestId, now: Time)
    requires CodeLedgerInv(c) && ReadFrom(c, ac)
    ensures var (rows', res) := AC.Consume(c.rows, ac.code, now);
            var c' := if res.Ok? then c.(rows := rows', redeemed := c.redeemed[ac.code := Redemption(r, now)])
                      else c.(rows := rows');
            && CodeLedgerInv(c') && CodesGrow(c, c') && ReadFrom(c', ac)
            && (res.Ok? ==> RedeemedBy(c', ac.code, r))
  {
    hide Canonical, ValueSet;
  }

  lemma CodeConsumeStep(s: State, r: RequestId)
    requires Running(s, r) && s.procs[r].CodeConsume?
    requires Inv(s)
    ensures Inv(StepCodeConsume(s, r, s.procs[r]))
  {
    hide RL.Inv, CodeLedgerInv, IssuedLawfully, MakersInv, FamiliesInv, NoInsert, Narrowed, OwnerPresent, RotateReady;
    hide RL.Snapshot, ReadFrom, Presented, SaveReady, ConsentSeen, IssueReady, ExchangeGranted, RedeemedBy;
    hide CodesGrow, AC.Consume;
    var p := s.procs[r];
    assert ProcInv(s, r, p);
    ConsumedCode(s.codes, p.ac, r, s.clock);
    StepWithoutInsert(s, StepCodeConsume(s, r, p), r);
  }

  lemma CodeOwnerStep(s: State, r: RequestId)
    requires Running(s, r) && s.procs[r].CodeOwner?
    requires Inv(s)
    ensures Inv(StepCodeOwner(s, r, s.procs[r]))
  {
    hide RL.Inv, CodeLedgerInv, IssuedLawfully, MakersInv, FamiliesInv, NoInsert, Narrowed, OwnerPresent, RotateReady;
    hide RL.Snapshot, Presented, SaveReady, ConsentSeen, IssueReady, ExchangeGranted, Canonical;
    assert ProcInv(s, r, s.procs[r]);
    StepWithoutInsert(s, StepCodeOwner(s, r, s.procs[r]), r);
  }

  lemma CanonicalRead(c: CodeLedger, ac: AuthorizationCode)
    requires ReadFrom(c, ac)
    ensures Canonical(ac.scope)
  {
  }

  /** Answering an exchange with the values of its code is lawful. */
  lemma ExchangeMayAnswer(s: State, r: RequestId, tok: TokenRequest, cid: ClientID, ac: AuthorizationCode,
                          refresh: Option<RefreshToken>)
    requires Exchanging(s, r, tok, cid, ac)
    ensures ExchangeGranted(s, r, tok, Granted(cid, ac.user, ac.scope, ac.authTime, refresh))
  {
    hide Canonical, ValueSet, VerifyChallenge;
  }

  lemma CodeMintOutcome(s: State, r: RequestId, draw: Draw)
    requires Running(s, r) && s.procs[r].CodeMint? && GrantMatches(s.procs[r])
    requires ProcInv(s, r, s.procs[r])
    ensures var s' := StepCodeMint(s, r, s.procs[r], draw);
            ProcInv(s', r, s'.procs[r]) && GrantMatches(s'.procs[r])
  {
    hide VerifyChallenge, RedeemedBy, ParseRefresh, Canonical, ValueSet, ReadFrom, ExchangeGranted, NoInsert;
    var p := s.procs[r];
    var s' := StepCodeMint(s, r, p, draw);
    CanonicalRead(s.codes, p.ac);
    ReloadPreservesScope(p.ac.scope);
    ExchangeMayAnswer(s', r, p.tok, p.cid, p.ac, None);
  }

  lemma CodeMintLedgers(s: State, r: RequestId, draw: Draw)
    requires Running(s, r) && s.procs[r].CodeMint? && IsFresh(s, draw)
    requires RL.Inv(s.tokens, s.clock)
    ensures var s' := StepCodeMint(s, r, s.procs[r], draw);
            RL.Inv(s'.tokens, s.clock) && TokensGrow(s.tokens, s'.tokens) && s'.codes == s.codes
  {
    hide RL.Inv, TokensGrow, ParseRefresh, NoInsert;
    DrawGrows(s, r, draw);
    RL.MakersKeepInv(s.tokens, StepCodeMint(s, r, s.procs[r], draw).tokens, s.clock);
  }

  lemma CodeMintStep(s: State, r: RequestId, draw: Draw)
    requires Running(s, r) && s.procs[r].CodeMint? && IsFresh(s, draw)
    requires Inv(s)
    ensures Inv(StepCodeMint(s, r, s.procs[r], draw))
  {
    hide RL.Inv, CodeLedgerInv, IssuedLawfully, MakersInv, FamiliesInv, NoInsert, ProcInv, TokensGrow;
    hide StepCodeMint;
    assert ProcInv(s, r, s.procs[r]);
    var s' := StepCodeMint(s, r, s.procs[r], draw);
    CodeMintOutcome(s, r, draw);
    CodeMintLedgers(s, r, draw);
    assert SameWorld(s, s') by { NoInsertKeepsWorld(s, s', r); }
    StepWithoutInsert(s, s', r);
  }

  lemma NoInsertKeepsWorld(s: State, s': State, r: RequestId)
    requires NoInsert(s, s', r)
    ensures SameWorld(s, s') && r in s'.procs
  {
  }

  lemma AuthorizeIssueOutcome(s: State, r: RequestId, draw: Draw)
    requires Running(s, r) && s.procs[r].AuthorizeIssue? && ProcInv(s, r, s.procs[r])
    ensures var s' := StepAuthorizeIssue(s, r, s.procs[r], draw);
            ProcInv(s', r, s'.procs[r]) && GrantMatches(s'.procs[r])
  {
    hide Validate, ParseAuth, Canonical, NoInsert;
    var p := s.procs[r];
    if Validate(s.clients, p.auth).error.None? {
      AcceptedScopeIsAllowed(s.clients, p.auth);
      ParsedIsCanonical(p.auth.scope);
    }
  }

  lemma AuthorizeIssueStep(s: State, r: RequestId, draw: Draw)
    requires Running(s, r) && s.procs[r].AuthorizeIssue? && IsFresh(s, draw)
    requires Inv(s)
    ensures Inv(StepAuthorizeIssue(s, r, s.procs[r], draw))
  {
    hide RL.Inv, IssuedLawfully, MakersInv, FamiliesInv, NoInsert, ProcInv, Validate, ParseAuth;
    assert ProcInv(s, r, s.procs[r]);
    AuthorizeIssueOutcome(s, r, draw);
    StepWithoutInsert(s, StepAuthorizeIssue(s, r, s.procs[r], draw), r);
  }

  // ---- the three steps that store something new ----

  /** The new keys are the ones r drew, and r has now ended. */
  lemma MakersAfterInsert(s: State, s': State, r: RequestId)
    requires MakersInv(s) && Grows(s, s') && DoneStays(s, s') && Done(s', r)
    requires forall h :: h in s'.tokens.links && h !in s.tokens.links ==>
               h in s'.tokens.makers && s'.tokens.makers[h] == r
    requires forall x :: x in s'.codes.issued && x !in s.codes.issued ==>
               x in s'.codes.makers && s'.codes.makers[x] == r
    ensures MakersInv(s')
  {
    forall h | h in s'.tokens.links ensures h in s'.tokens.makers && Done(s', s'.tokens.makers[h]) {
      if h in s.tokens.links { assert Done(s, s.tokens.makers[h]); }
    }
    forall x | x in s'.codes.issued ensures x in s'.codes.makers && Done(s', s'.codes.makers[x]) {
      if x in s.codes.issued { assert Done(s, s.codes.makers[x]); }
    }
  }

  lemma InsertGrows(s: State, s': State, r: RequestId)
    requires Running(s, r) && OnlyMoves(s, s', r) && SameWorld(s, s')
    requires TokensGrow(s.tokens, s'.tokens) && CodesGrow(s.codes, s'.codes)
    ensures Grows(s, s') && DoneStays(s, s')
  {
    hide TokensGrow, CodesGrow;
  }

  lemma RotationGrows(l: TokenLedger, rt: RefreshToken, next: RefreshToken, now: Time)
    requires next.hash !in l.links && next.family == rt.family
    requires rt.family in l.chain && RotateLink(l, rt.hash, next, now).1.Ok?
    ensures var l' := RotateLink(l, rt.hash, next, now).0;
            && TokensGrow(l, l') && l'.links.Keys == l.links.Keys + {next.hash} && l'.origin == l.origin
            && l'.makers == l.makers && l'.chain.Keys == l.chain.Keys
            && forall f :: f in l.chain ==> l.chain[f] <= l'.chain[f]
  {
  }

  lemma RefreshRotateLedger(s: State, r: RequestId)
    requires Running(s, r) && s.procs[r].RefreshRotate?
    requires RL.Inv(s.tokens, s.clock) && ProcInv(s, r, s.procs[r]) && Unstored(s, s.procs[r])
    ensures var p := s.procs[r];
            var (l', res) := RotateLink(s.tokens, p.rt.hash, p.next, s.clock);
            && RL.Inv(l', s.clock) && (res.Err? ==> l' == s.tokens)
            && p.rt.family in s.tokens.chain && RL.Snapshot(s.tokens, p.rt) && p.next.family == p.rt.family
  {
    var p := s.procs[r];
    RL.RotationKeepsInv(s.tokens, p.rt, p.next, s.clock);
  }

  /** A successful rotation stores the link right behind the one presented. */
  lemma RotationMayAnswer(s: State, r: RequestId, tok: TokenRequest, rt: RefreshToken, next: RefreshToken)
    requires RL.Inv(s.tokens, s.clock) && RotateReady(s, r, rt, next) && next.hash !in s.tokens.links
    requires rt.hash == HashToken(tok.refreshToken) && rt.client == ClientID(tok.clientID)
    requires RotateLink(s.tokens, rt.hash, next, s.clock).1.Ok?
    ensures var s' := s.(tokens := RotateLink(s.tokens, rt.hash, next, s.clock).0);
            RefreshGranted(s', r, tok, Granted(rt.client, next.user, next.scope, next.authTime, Some(next)))
  {
    hide Canonical, ValueSet;
    RL.RotationExtendsChain(s.tokens, rt, next, s.clock);
    assert RL.ChainShape(s.tokens);
    assert s.tokens.links[rt.hash].pos + 1 == |s.tokens.chain[rt.family]| by {
      RL.RotatedLandsLast(s.tokens, RotateLink(s.tokens, rt.hash, next, s.clock).0, rt, next);
    }
  }

  lemma RotationFails(s: State, r: RequestId)
    requires Running(s, r) && s.procs[r].RefreshRotate?
    requires RotateLink(s.tokens, s.procs[r].rt.hash, s.procs[r].next, s.clock).1.Err?
    requires Inv(s)
    ensures Inv(StepRefreshRotate(s, r, s.procs[r]))
  {
    hide RL.Inv, CodeLedgerInv, MakersInv, FamiliesInv, TokensGrow, RL.Snapshot, RL.Follows, RotateLink;
    hide OwnerPresent, ReadFrom, Presented, Exchanging, SaveReady, ConsentSeen, IssueReady, ExchangeGranted;
    hide RefreshGranted;
    var p := s.procs[r];
    assert ProcInv(s, r, p);
    PendingIsUnstored(s, r);
    RefreshRotateLedger(s, r);
    TokensGrowReflexive(s.tokens);
    StepWithoutInsert(s, StepRefreshRotate(s, r, p), r);
  }

  /** A request that answers lawfully needs nothing else to hold. */
  lemma LawfulAnswer(s: State, r: RequestId, req: Request, reply: Reply)
    requires AnsweredLawfully(s, r, req, reply)
    ensures ProcInv(s, r, Finished(req, reply)) && GrantMatches(Finished(req, reply))
  {
  }

  lemma RotationSucceeds(s: State, r: RequestId)
    requires Running(s, r) && s.procs[r].RefreshRotate?
    requires RotateLink(s.tokens, s.procs[r].rt.hash, s.procs[r].next, s.clock).1.Ok?
    requires Inv(s)
    ensures Inv(StepRefreshRotate(s, r, s.procs[r]))
  {
    hide RL.Inv, CodeLedgerInv, MakersInv, FamiliesInv, TokensGrow, RL.Snapshot, RL.Follows, RotateLink;
    hide OwnerPresent, ReadFrom, Presented, Exchanging, SaveReady, ConsentSeen, IssueReady, ExchangeGranted;
    hide RefreshGranted;
    var p := s.procs[r];
    var s' := StepRefreshRotate(s, r, p);
    assert ProcInv(s, r, p) && GrantMatches(p);
    PendingIsUnstored(s, r);
    RefreshRotateLedger(s, r);
    RotationMayAnswer(s, r, p.tok, p.rt, p.next);
    RotationGrows(s.tokens, p.rt, p.next, s.clock);
    RefreshGrantedStays(s.(tokens := s'.tokens), s', r, p.tok, s'.procs[r].reply);
    LawfulAnswer(s', r, s'.procs[r].req, s'.procs[r].reply);
    hide ProcInv, GrantMatches;
    InsertGrows(s, s', r);
    MakersAfterInsert(s, s', r);
    FamiliesStay(s, s');
    OthersKeepProcs(s, s', r);
  }

  lemma RefreshGrantedStays(s: State, s': State, r: RequestId, tok: TokenRequest, reply: Reply)
    requires reply.Granted? && RefreshGranted(s, r, tok, reply) && s'.tokens == s.tokens
    ensures RefreshGranted(s', r, tok, reply)
  {
  }

  lemma RefreshRotateStep(s: State, r: RequestId)
    requires Running(s, r) && s.procs[r].RefreshRotate?
    requires Inv(s)
    ensures Inv(StepRefreshRotate(s, r, s.procs[r]))
  {
    hide Inv, RotateLink;
    var p := s.procs[r];
    if RotateLink(s.tokens, p.rt.hash, p.next, s.clock).1.Err? { RotationFails(s, r); } else { RotationSucceeds(s, r); }
  }

  lemma TokensGrowReflexive(l: TokenLedger)
    ensures TokensGrow(l, l)
  {
  }

  /** The founder of a new family has redeemed its code and carries that code over. */
  lemma FamiliesAfterSave(s: State, s': State, r: RequestId, rt: RefreshToken, ac: AuthorizationCode)
    requires FamiliesInv(s) && Grows(s, s') && DoneStays(s, s') && s'.codes == s.codes
    requires s'.tokens.chain == s.tokens.chain[rt.family := [rt.hash]]
    requires s'.tokens.origin == s.tokens.origin[rt.family := ac.code]
    requires rt.hash in s'.tokens.links && s'.tokens.links[rt.hash].row == RT.RowOf(rt)
    requires FoundedBy(s', rt.family, r) && SaveReady(s, r, ac, rt) && ReadFrom(s.codes, ac)
    requires RedeemedBy(s.codes, ac.code, r) && rt.family !in s.tokens.chain
    ensures FamiliesInv(s')
  {
    forall f | f in s'.tokens.chain
      ensures && s'.tokens.chain[f] != [] && FromCode(s', f)
              && f in s'.tokens.founders && FoundedBy(s', f, s'.tokens.founders[f])
              && RedeemedBy(s'.codes, s'.tokens.origin[f], s'.tokens.founders[f])
    {
      if f == rt.family {
        assert s'.tokens.chain[f] == [rt.hash];
      } else {
        assert FromCode(s, f) && Done(s, s.tokens.founders[f]);
      }
    }
  }

  lemma FoundingGrows(l: TokenLedger, rt: RefreshToken, x: Code)
    requires rt.hash !in l.links && rt.family !in l.chain && SaveFirst(l, rt, x).1.Ok?
    ensures var l' := SaveFirst(l, rt, x).0;
            && TokensGrow(l, l') && l'.links == l.links[rt.hash := Link(RT.RowOf(rt), 0)]
            && l'.chain == l.chain[rt.family := [rt.hash]] && l'.origin == l.origin[rt.family := x]
            && l'.makers == l.makers
  {
    assert [] + [rt.hash] == [rt.hash];
  }

  lemma CodeSaveStep(s: State, r: RequestId)
    requires Running(s, r) && s.procs[r].CodeSave?
    requires Inv(s)
    ensures Inv(StepCodeSave(s, r, s.procs[r]))
  {
    hide RL.Inv, CodeLedgerInv, MakersInv, FamiliesInv, TokensGrow, RL.Snapshot, RL.Follows, SaveFirst;
    hide OwnerPresent, ReadFrom, Presented, ConsentSeen, IssueReady, ExchangeGranted, Canonical, RedeemedBy;
    var p := s.procs[r];
    var s' := StepCodeSave(s, r, p);
    assert ProcInv(s, r, p);
    PendingIsUnstored(s, r);
    RL.FirstSaveKeepsInv(s.tokens, p.rt, p.ac.code, s.clock);
    FoundingGrows(s.tokens, p.rt, p.ac.code);
    InsertGrows(s, s', r);
    MakersAfterInsert(s, s', r);
    FamiliesAfterSave(s, s', r, p.rt, p.ac);
    ExchangeMayAnswer(s', r, p.tok, p.cid, p.ac, Some(p.rt));
    OthersKeepProcs(s, s', r);
  }

  lemma NewCodeKeepsLedger(c: CodeLedger, ac: AuthorizationCode, allowed: set<string>)
    requires CodeLedgerInv(c) && ac.code !in c.issued
    ensures AC.Save(c.rows, ac).1.Ok?
    ensures var c' := c.(rows := AC.Save(c.rows, ac).0, issued := c.issued[ac.code := Issued(AC.RowOf(ac), allowed)]);
            CodeLedgerInv(c') && CodesGrow(c, c')
  {
  }

  lemma AuthorizeSaveStep(s: State, r: RequestId)
    requires Running(s, r) && s.procs[r].AuthorizeSave?
    requires Inv(s)
    ensures Inv(StepAuthorizeSave(s, r, s.procs[r]))
  {
    hide RL.Inv, CodeLedgerInv, MakersInv, FamiliesInv, TokensGrow, CodesGrow, RL.Snapshot, RL.Follows, AC.Save;
    hide OwnerPresent, ReadFrom, Presented, Exchanging, ConsentSeen, SaveReady, ExchangeGranted;
    var p := s.procs[r];
    var s' := StepAuthorizeSave(s, r, p);
    assert ProcInv(s, r, p);
    PendingIsUnstored(s, r);
    NewCodeKeepsLedger(s.codes, p.ac, p.allowed);
    TokensGrowReflexive(s.tokens);
    InsertGrows(s, s', r);
    MakersAfterInsert(s, s', r);
    FamiliesStay(s, s');
    OthersKeepProcs(s, s', r);
  }

  // ---- any step, any run ----

  lemma StepKeepsInv(s: State, r: RequestId, draw: Draw)
    requires Running(s, r) && IsFresh(s, draw)
    requires Inv(s)
    ensures Inv(StepProc(s, r, s.procs[r], draw))
  {
    hide Inv, StepArrived, StepRefreshFind, StepRefreshOwner, StepRefreshMint, StepRefreshRotate, StepRefreshRevoke;
    hide StepCodeFind, StepCodeVerify, StepCodeConsume, StepCodeOwner, StepCodeMint, StepCodeSave;
    hide StepAuthorizeIssue, StepAuthorizeSave, StepRevokeClient, StepRevokeDelete;
    match s.procs[r] {
      case Arrived(req) =>
        if req.RevokeCall? {
          RevokeFindStep(s, r);
          ArrivedRevokes(s, r);
        } else {
          ArrivedStep(s, r);
        }
      case RefreshFind(_, _) => RefreshFindStep(s, r);
      case RefreshOwner(_, _, _, _) => RefreshOwnerStep(s, r);
      case RefreshMint(_, _, _, _) => RefreshMintStep(s, r, draw);
      case RefreshRotate(_, _, _, _) => RefreshRotateStep(s, r);
      case RefreshRevoke(_, _, _) => RefreshRevokeStep(s, r);
      case CodeFind(_, _, _) => CodeFindStep(s, r);
      case CodeVerify(_, _, _, _) => CodeVerifyStep(s, r);
      case CodeConsume(_, _, _, _) => CodeConsumeStep(s, r);
      case CodeOwner(_, _, _, _) => CodeOwnerStep(s, r);
      case CodeMint(_, _, _, _) => CodeMintStep(s, r, draw);
      case CodeSave(_, _, _, _) => CodeSaveStep(s, r);
      case AuthorizeIssue(_, _, _) => AuthorizeIssueStep(s, r, draw);
      case AuthorizeSave(_, _, _, _) => AuthorizeSaveStep(s, r);
      case RevokeClient(_, _) => RevokeClientStep(s, r);
      case RevokeDelete(_, _) => RevokeDeleteStep(s, r);
    }
  }

  lemma ArrivedRevokes(s: State, r: RequestId)
    requires Running(s, r) && s.procs[r].Arrived? && s.procs[r].req.RevokeCall?
    ensures StepArrived(s, r, s.procs[r].req) == StepRevokeFind(s, r, s.procs[r], s.procs[r].req.rev)
  {
    hide StepRevokeFind;
  }

  lemma EnvironmentGrows(s: State, s': State)
    requires s'.procs == s.procs && s.clock <= s'.clock && s.consented <= s'.consented
    requires s'.tokens == s.tokens.(rows := s'.tokens.rows) && s'.codes == s.codes.(rows := s'.codes.rows)
    requires UsersLeaveWithRows(s, s') && forall h :: h in s'.tokens.rows ==> h in s.tokens.rows
    ensures Grows(s, s') && DoneStays(s, s')
  {
    hide UsersLeaveWithRows;
  }

  /** A step of the environment: no request moves, nothing new is stored. */
  lemma EnvironmentKeepsInv(s: State, s': State)
    requires s'.procs == s.procs && s.clock <= s'.clock && s.consented <= s'.consented && s'.consents <= s'.consented
    requires s'.tokens == s.tokens.(rows := s'.tokens.rows) && s'.codes == s.codes.(rows := s'.codes.rows)
    requires UsersLeaveWithRows(s, s') && forall h :: h in s'.tokens.rows ==> h in s.tokens.rows
    requires forall x :: x in s'.codes.rows ==> x in s.codes.rows && s'.codes.rows[x] == s.codes.rows[x]
    requires RL.Inv(s'.tokens, s'.clock)
    requires Inv(s)
    ensures Inv(s')
  {
    hide RL.Inv, ProcInv, GrantMatches, ValueSet, UsersLeaveWithRows, Grows, DoneStays, FamiliesInv, MakersInv;
    EnvironmentGrows(s, s');
    MakersStay(s, s');
    FamiliesStay(s, s');
    forall q | q in s'.procs ensures ProcInv(s', q, s'.procs[q]) && GrantMatches(s'.procs[q]) {
      assert ProcInv(s, q, s.procs[q]) && GrantMatches(s.procs[q]);
      ProcInvIsStable(s, s', q, s.procs[q]);
    }
    assert IssuedLawfully(s') by { IssuedStays(s, s'); }
  }

  lemma IssuedStays(s: State, s': State)
    requires IssuedLawfully(s) && s'.codes.issued == s.codes.issued && s.consented <= s'.consented
    ensures IssuedLawfully(s')
  {
  }

  lemma ArriveKeepsInv(s: State, r: RequestId, req: Request)
    requires r !in s.procs
    requires Inv(s)
    ensures Inv(Apply(s, Arrive(r, req)))
  {
    hide RL.Inv, CodeLedgerInv, IssuedLawfully, MakersInv, FamiliesInv, ProcsInv;
    hide Narrowed, OwnerPresent, RotateReady, RL.Snapshot, ReadFrom, Presented, Exchanging, SaveReady, ConsentSeen;
    hide IssueReady, AnsweredLawfully, TokensGrow;
    var s1 := s.(presented := s.presented + HashesOf(req));
    EnvironmentKeepsInv(s, s1);
    TokensGrowReflexive(s1.tokens);
    StepWithoutInsert(s1, Apply(s, Arrive(r, req)), r);
  }

  lemma FailKeepsInv(s: State, r: RequestId)
    requires Running(s, r)
    requires Inv(s)
    ensures Inv(Apply(s, Fail(r)))
  {
    hide RL.Inv, CodeLedgerInv, IssuedLawfully, MakersInv, FamiliesInv;
    TokensGrowReflexive(s.tokens);
    StepWithoutInsert(s, Apply(s, Fail(r)), r);
  }

  lemma PurgesKeepInv(s: State)
    requires Inv(s)
    ensures Inv(Apply(s, PurgeTokens)) && Inv(Apply(s, PurgeCodes))
  {
    hide RL.Inv, CodeLedgerInv, IssuedLawfully, MakersInv, FamiliesInv, ProcsInv;
    RL.PurgeKeepsInv(s.tokens, s.clock);
    EnvironmentKeepsInv(s, Apply(s, PurgeTokens));
    EnvironmentKeepsInv(s, Apply(s, PurgeCodes));
  }

  lemma DeleteUserKeepsInv(s: State, u: UserID)
    requires Inv(s)
    ensures Inv(RemoveUser(s, u))
  {
    hide CodeLedgerInv, IssuedLawfully, MakersInv, FamiliesInv, ProcsInv, RL.Inv, UsersLeaveWithRows;
    RowsOfGoneUser(s, u);
    RL.CascadesKeepInv(s.tokens, u, ClientID(""), s.clock);
    EnvironmentKeepsInv(s, RemoveUser(s, u));
  }

  lemma DeleteClientKeepsInv(s: State, cid: ClientID)
    requires Inv(s)
    ensures Inv(RemoveClient(s, cid))
  {
    hide CodeLedgerInv, IssuedLawfully, MakersInv, FamiliesInv, ProcsInv, RL.Inv;
    RL.CascadesKeepInv(s.tokens, UserID(""), cid, s.clock);
    EnvironmentKeepsInv(s, RemoveClient(s, cid));
  }

  lemma RowsOfGoneUser(s: State, u: UserID)
    requires RL.Inv(s.tokens, s.clock)
    ensures UsersLeaveWithRows(s, RemoveUser(s, u))
  {
    assert RL.RowsAreLinks(s.tokens);
  }

  lemma AdministrationKeepsInv(s: State, a: Action)
    requires Enabled(s, a) && (a.Tick? || a.GrantConsent? || a.PutClient? || a.PutUser?)
    requires Inv(s)
    ensures Inv(Apply(s, a))
  {
    hide CodeLedgerInv, IssuedLawfully, MakersInv, FamiliesInv, ProcsInv, RL.Inv, NormalizeScope;
    if a.Tick? { RL.ClockKeepsInv(s.tokens, s.clock, a.now); }
    EnvironmentKeepsInv(s, Apply(s, a));
  }

  lemma ActionKeepsInv(s: State, a: Action)
    requires Enabled(s, a)
    requires Inv(s)
    ensures Inv(Apply(s, a))
  {
    hide Inv, StepProc, RemoveUser, RemoveClient;
    match a {
      case Arrive(r, req) => ArriveKeepsInv(s, r, req);
      case Step(r, draw) => StepKeepsInv(s, r, draw);
      case Fail(r) => FailKeepsInv(s, r);
      case PurgeTokens => PurgesKeepInv(s);
      case PurgeCodes => PurgesKeepInv(s);
      case DeleteClient(cid) => DeleteClientKeepsInv(s, cid);
      case DeleteUser(u) => DeleteUserKeepsInv(s, u);
      case _ => AdministrationKeepsInv(s, a);
    }
  }

  lemma {:induction false} RunKeepsInv(s: State, acts: seq<Action>)
    requires Legal(s, acts)
    requires Inv(s)
    ensures Inv(Run(s, acts))
    decreases |acts|
  {
    hide Inv, Apply;
    if acts != [] {
      ActionKeepsInv(s, acts[0]);
      RunKeepsInv(Apply(s, acts[0]), acts[1..]);
    }
  }

  lemma InitialInv(s: State)
    requires Initial(s)
    ensures Inv(s)
  {
  }

  /** The invariant holds in every reachable state, under every interleaving. */
  lemma ReachableInv(s: State)
    requires Reachable(s)
    ensures Inv(s)
  {
    hide Inv;
    var s0, acts :| Initial(s0) && Legal(s0, acts) && Run(s0, acts) == s;
    InitialInv(s0);
    RunKeepsInv(s0, acts);
  }
}
