/**
  What becomes of every row of the token and code tables, and of every
  consent: which action removes it, and that nothing else does anything to it.
 */
module RowFates {
  import opened Wrappers
  import opened Scopes
  import opened Domain
  import opened Authorize
  import opened TokenProtocol
  import RT = RefreshTokenStore
  import AC = AuthCodeStore
  import TT = TokenTheorems

  // ---- refresh tokens ----

  /** r is about to look the token up, to refresh or to revoke it. */
  predicate LooksUp(p: Proc, h: TokenHash) {
    || (p.RefreshFind? && HashToken(p.tok.refreshToken) == h)
    || (p.Arrived? && p.req.RevokeCall? && p.req.rev.token != "" && HashToken(p.req.rev.token) == h)
  }

  /** r is about to revoke the family. */
  predicate Revokes(p: Proc, f: FamilyID) { (p.RefreshRevoke? || p.RevokeDelete?) && p.rt.family == f }

  /** The actions that end a row: its family revoked, its user or client deleted, or it has expired and is met. */
  predicate EndsToken(s: State, a: Action, h: TokenHash, row: RT.TokenRow)
    requires Enabled(s, a)
  {
    || (a.Step? && Revokes(s.procs[a.r], row.family))
    || (a == DeleteUser(row.user) && row.user in s.users)
    || (a == DeleteClient(row.client) && row.client in s.clients)
    || (row.expiresAt <= s.clock && (a.PurgeTokens? || (a.Step? && LooksUp(s.procs[a.r], h))))
  }

  /** r is about to rotate the token away, and may. */
  predicate Spends(s: State, p: Proc, h: TokenHash) {
    && p.RefreshRotate? && p.rt.hash == h && p.next.hash !in s.tokens.rows
    && h in s.tokens.rows && s.clock < s.tokens.rows[h].expiresAt && !s.tokens.rows[h].consumed
  }

  /** What an action leaves of a stored row. */
  ghost predicate Fate(s: State, a: Action, h: TokenHash)
    requires Enabled(s, a) && h in s.tokens.rows
  {
    var row, rows' := s.tokens.rows[h], Apply(s, a).tokens.rows;
    && (h !in rows' <==> EndsToken(s, a, h, row))
    && (h in rows' ==>
          rows'[h] == if a.Step? && Spends(s, s.procs[a.r], h) then row.(consumed := true) else row)
  }

  /** The token a step is about to store: the first of a family, or the successor of the row it rotates away. */
  function Newcomer(s: State, p: Proc): Option<RefreshToken> {
    if p.CodeSave? && p.rt.hash !in s.tokens.rows then Some(p.rt)
    else if p.RefreshRotate? && Spends(s, p, p.rt.hash) then Some(p.next)
    else None
  }

  /** How a row comes to be stored. */
  ghost predicate Birth(s: State, a: Action, h: TokenHash)
    requires Enabled(s, a) && h !in s.tokens.rows
  {
    var rows' := Apply(s, a).tokens.rows;
    var newcomer := if a.Step? then Newcomer(s, s.procs[a.r]) else None;
    && (h in rows' <==> newcomer.Some? && newcomer.value.hash == h)
    && (h in rows' ==>
          var rt := newcomer.value;
          rows'[h] == RT.TokenRow(rt.family, rt.client, rt.user, rt.scope.value, rt.authTime, rt.expiresAt, false))
  }

  lemma QuietSteps(s: State, r: RequestId, draw: Draw)
    requires Running(s, r)
    requires var p := s.procs[r];
             && !p.RefreshFind? && !p.RefreshRotate? && !p.RefreshRevoke? && !p.RevokeDelete? && !p.CodeSave?
             && !(p.Arrived? && p.req.RevokeCall?)
    ensures StepProc(s, r, s.procs[r], draw).tokens.rows == s.tokens.rows
  {
    hide NoInsert, ResolveClient, NormalizeScope, Verify, MayRevoke, Validate, ParseAuth, ParseRefresh;
    hide AC.FindByCode, AC.Consume, AC.Save;
  }

  lemma QuietFate(s: State, r: RequestId, draw: Draw, h: TokenHash)
    requires Running(s, r) && IsFresh(s, draw) && h in s.tokens.rows
    requires var p := s.procs[r];
             && !p.RefreshFind? && !p.RefreshRotate? && !p.RefreshRevoke? && !p.RevokeDelete? && !p.CodeSave?
             && !(p.Arrived? && p.req.RevokeCall?)
    ensures Fate(s, Step(r, draw), h)
  {
    QuietSteps(s, r, draw);
    hide StepProc, IsFresh;
  }

  lemma FindFate(s: State, r: RequestId, draw: Draw, h: TokenHash)
    requires Running(s, r) && IsFresh(s, draw) && h in s.tokens.rows && s.procs[r].RefreshFind?
    ensures Fate(s, Step(r, draw), h)
  {
    hide NoInsert, RefreshFound, IsFresh, RT.Reconstruct;
  }

  lemma RevokeFindRows(s: State, r: RequestId, p: Proc, rev: RevokeRequest)
    ensures StepRevokeFind(s, r, p, rev).tokens.rows
            == if rev.token == "" || RT.Live(s.tokens.rows, HashToken(rev.token), s.clock) then s.tokens.rows
               else s.tokens.rows - {HashToken(rev.token)}
  {
    hide NoInsert, RT.Reconstruct, RevokeFound;
  }

  lemma RevokeFindFate(s: State, r: RequestId, draw: Draw, h: TokenHash)
    requires Running(s, r) && IsFresh(s, draw) && h in s.tokens.rows
    requires s.procs[r].Arrived? && s.procs[r].req.RevokeCall?
    ensures Fate(s, Step(r, draw), h)
  {
    hide NoInsert, StepRevokeFind, IsFresh;
    RevokeFindRows(s, r, s.procs[r], s.procs[r].req.rev);
  }

  lemma RotationRows(s: State, r: RequestId, draw: Draw)
    requires Running(s, r) && s.procs[r].RefreshRotate?
    ensures var p := s.procs[r];
            StepProc(s, r, p, draw).tokens.rows
            == if Spends(s, p, p.rt.hash)
               then s.tokens.rows[p.rt.hash := s.tokens.rows[p.rt.hash].(consumed := true)][p.next.hash := RT.RowOf(p.next)]
               else s.tokens.rows
  {
  }

  lemma RotationFate(s: State, r: RequestId, draw: Draw, h: TokenHash)
    requires Running(s, r) && IsFresh(s, draw) && h in s.tokens.rows && s.procs[r].RefreshRotate?
    ensures Fate(s, Step(r, draw), h)
  {
    RotationRows(s, r, draw);
    hide IsFresh, StepProc;
  }

  lemma RevocationFate(s: State, r: RequestId, draw: Draw, h: TokenHash)
    requires Running(s, r) && IsFresh(s, draw) && h in s.tokens.rows
    requires s.procs[r].RefreshRevoke? || s.procs[r].RevokeDelete?
    ensures Fate(s, Step(r, draw), h)
  {
    hide NoInsert, IsFresh;
  }

  lemma SaveFate(s: State, r: RequestId, draw: Draw, h: TokenHash)
    requires Running(s, r) && IsFresh(s, draw) && h in s.tokens.rows && s.procs[r].CodeSave?
    ensures Fate(s, Step(r, draw), h)
  {
    hide IsFresh;
  }

  lemma CascadeRows(s: State, u: UserID, cid: ClientID)
    ensures Apply(s, DeleteUser(u)).tokens.rows
            == if u in s.users then RT.DropUser(s.tokens.rows, u) else s.tokens.rows
    ensures Apply(s, DeleteClient(cid)).tokens.rows
            == if cid in s.clients then RT.DropClient(s.tokens.rows, cid) else s.tokens.rows
  {
    hide StepProc, AC.DropUser, AC.DropClient, RT.DropUser, RT.DropClient, IsFresh;
  }

  lemma UserCascadeFate(s: State, u: UserID, h: TokenHash)
    requires h in s.tokens.rows
    ensures Fate(s, DeleteUser(u), h)
  {
    CascadeRows(s, u, ClientID(""));
    hide IsFresh, Apply;
  }

  lemma ClientCascadeFate(s: State, cid: ClientID, h: TokenHash)
    requires h in s.tokens.rows
    ensures Fate(s, DeleteClient(cid), h)
  {
    CascadeRows(s, UserID(""), cid);
    hide IsFresh, Apply;
  }

  lemma EnvironmentFate(s: State, a: Action, h: TokenHash)
    requires Enabled(s, a) && h in s.tokens.rows && !a.Step? && !a.DeleteUser? && !a.DeleteClient?
    ensures Fate(s, a, h)
  {
    hide IsFresh, NormalizeScope, StepProc, RemoveUser, RemoveClient, AC.PurgeExpired;
  }

  /**
    The fate of every stored token row under every action: it goes exactly
    when its family is revoked, its user or client is deleted, or it has
    expired and is looked up or purged; otherwise it stays as it is, but for
    the consumed flag of the one row that is rotated away.
   */
  lemma TokenFate(s: State, a: Action, h: TokenHash)
    requires Enabled(s, a) && h in s.tokens.rows
    ensures Fate(s, a, h)
  {
    hide Fate, StepProc, IsFresh;
    if a.Step? {
      var p := s.procs[a.r];
      if p.RefreshFind? { FindFate(s, a.r, a.draw, h); }
      else if p.Arrived? && p.req.RevokeCall? { RevokeFindFate(s, a.r, a.draw, h); }
      else if p.RefreshRotate? { RotationFate(s, a.r, a.draw, h); }
      else if p.RefreshRevoke? || p.RevokeDelete? { RevocationFate(s, a.r, a.draw, h); }
      else if p.CodeSave? { SaveFate(s, a.r, a.draw, h); }
      else { QuietFate(s, a.r, a.draw, h); }
    } else if a.DeleteUser? {
      UserCascadeFate(s, a.uid, h);
    } else if a.DeleteClient? {
      ClientCascadeFate(s, a.cid, h);
    } else {
      EnvironmentFate(s, a, h);
    }
  }

  // ---- births ----

  lemma QuietBirth(s: State, r: RequestId, draw: Draw, h: TokenHash)
    requires Running(s, r) && IsFresh(s, draw) && h !in s.tokens.rows
    requires !s.procs[r].RefreshRotate? && !s.procs[r].CodeSave?
    ensures Birth(s, Step(r, draw), h)
  {
    RowsOnlyGo(s, r, draw);
    hide StepProc, IsFresh;
  }

  lemma RowsOnlyGo(s: State, r: RequestId, draw: Draw)
    requires Running(s, r) && !s.procs[r].RefreshRotate? && !s.procs[r].CodeSave?
    ensures StepProc(s, r, s.procs[r], draw).tokens.rows.Keys <= s.tokens.rows.Keys
  {
    hide NoInsert, StepRevokeFind, RefreshFound, RT.Reconstruct, StepProc;
    var p := s.procs[r];
    if p.Arrived? && p.req.RevokeCall? {
      RevokeFindRows(s, r, p, p.req.rev);
      StepsAre(s, r, draw);
    } else if p.RefreshFind? || p.RefreshRevoke? || p.RevokeDelete? {
      StepsAre(s, r, draw);
    } else {
      QuietSteps(s, r, draw);
    }
  }

  lemma StepsAre(s: State, r: RequestId, draw: Draw)
    requires Running(s, r)
    ensures var p, s' := s.procs[r], StepProc(s, r, s.procs[r], draw);
            && (p.Arrived? && p.req.RevokeCall? ==> s' == StepRevokeFind(s, r, p, p.req.rev))
            && (p.RefreshFind? ==> s' == StepRefreshFind(s, r, p))
            && (p.RefreshRevoke? ==> s' == StepRefreshRevoke(s, r, p))
            && (p.RevokeDelete? ==> s' == StepRevokeDelete(s, r, p))
            && (p.CodeFind? ==> s' == StepCodeFind(s, r, p))
            && (p.CodeConsume? ==> s' == StepCodeConsume(s, r, p))
            && (p.AuthorizeSave? ==> s' == StepAuthorizeSave(s, r, p))
  {
    hide StepRevokeFind, StepRefreshFind, StepRefreshRevoke, StepRevokeDelete, StepCodeFind, StepCodeConsume;
    hide StepAuthorizeSave;
  }

  lemma RotationBirth(s: State, r: RequestId, draw: Draw, h: TokenHash)
    requires Running(s, r) && IsFresh(s, draw) && h !in s.tokens.rows && s.procs[r].RefreshRotate?
    ensures Birth(s, Step(r, draw), h)
  {
    RotationRows(s, r, draw);
    hide IsFresh, StepProc;
  }

  lemma SaveBirth(s: State, r: RequestId, draw: Draw, h: TokenHash)
    requires Running(s, r) && IsFresh(s, draw) && h !in s.tokens.rows && s.procs[r].CodeSave?
    ensures Birth(s, Step(r, draw), h)
  {
    hide IsFresh;
  }

  /** No token row appears but by the save of an exchange or as the successor of a row rotated away. */
  lemma TokenBirth(s: State, a: Action, h: TokenHash)
    requires Enabled(s, a) && h !in s.tokens.rows
    ensures Birth(s, a, h)
  {
    hide Birth, StepProc, IsFresh;
    if a.Step? {
      if s.procs[a.r].RefreshRotate? { RotationBirth(s, a.r, a.draw, h); }
      else if s.procs[a.r].CodeSave? { SaveBirth(s, a.r, a.draw, h); }
      else { QuietBirth(s, a.r, a.draw, h); }
    } else {
      EnvironmentBirth(s, a, h);
    }
  }

  lemma EnvironmentBirth(s: State, a: Action, h: TokenHash)
    requires Enabled(s, a) && h !in s.tokens.rows && !a.Step?
    ensures Birth(s, a, h)
  {
    hide IsFresh, NormalizeScope, StepProc;
  }

  // ---- authorization codes ----

  /** The actions that end a code's row: its redemption, its user or client deleted, or it has expired and is met. */
  predicate EndsCode(s: State, a: Action, x: Code, row: AC.CodeRow)
    requires Enabled(s, a)
  {
    || (a.Step? && s.procs[a.r].CodeConsume? && s.procs[a.r].ac.code == x)
    || (a == DeleteUser(row.user) && row.user in s.users)
    || (a == DeleteClient(row.client) && row.client in s.clients)
    || (row.expiresAt <= s.clock
        && (a.PurgeCodes? || (a.Step? && s.procs[a.r].CodeFind? && Code(s.procs[a.r].tok.code) == x)))
  }

  ghost predicate CodeLives(s: State, a: Action, x: Code)
    requires Enabled(s, a)
  {
    var rows, rows' := s.codes.rows, Apply(s, a).codes.rows;
    if x in rows then
      (x !in rows' <==> EndsCode(s, a, x, rows[x])) && (x in rows' ==> rows'[x] == rows[x])
    else
      && (x in rows' <==> a.Step? && s.procs[a.r].AuthorizeSave? && s.procs[a.r].ac.code == x)
      && (x in rows' ==>
            var ac := s.procs[a.r].ac;
            rows'[x] == AC.CodeRow(ac.client, ac.user, ac.redirectURI, ac.scope.value,
                                   if ac.nonce == "" then None else Some(ac.nonce), ac.challenge, ac.authTime, ac.expiresAt))
  }

  lemma OtherStepsLeaveCodes(s: State, r: RequestId, draw: Draw)
    requires Running(s, r) && !s.procs[r].CodeFind? && !s.procs[r].CodeConsume? && !s.procs[r].AuthorizeSave?
    ensures StepProc(s, r, s.procs[r], draw).codes.rows == s.codes.rows
  {
    hide NoInsert, StepArrived, Verify, MayRevoke, Validate, ParseAuth, ParseRefresh, RotateLink, SaveFirst;
    hide RT.FindByTokenHash, RefreshFound, RevokeChain;
    if s.procs[r].Arrived? { ArrivalLeavesCodes(s, r); }
  }

  lemma ArrivalLeavesCodes(s: State, r: RequestId)
    requires Running(s, r) && s.procs[r].Arrived?
    ensures StepArrived(s, r, s.procs[r].req).codes.rows == s.codes.rows
  {
    hide ResolveClient, NormalizeScope, NoInsert, RT.FindByTokenHash;
  }

  lemma FindCodeLives(s: State, r: RequestId, draw: Draw, x: Code)
    requires Running(s, r) && IsFresh(s, draw) && s.procs[r].CodeFind?
    ensures CodeLives(s, Step(r, draw), x)
  {
    hide NoInsert, StepProc, AC.Reconstruct, IsFresh;
    StepsAre(s, r, draw);
  }

  lemma ConsumeCodeLives(s: State, r: RequestId, draw: Draw, x: Code)
    requires Running(s, r) && IsFresh(s, draw) && s.procs[r].CodeConsume?
    ensures CodeLives(s, Step(r, draw), x)
  {
    hide NoInsert, StepProc, IsFresh;
    StepsAre(s, r, draw);
  }

  lemma SaveCodeLives(s: State, r: RequestId, draw: Draw, x: Code)
    requires Running(s, r) && IsFresh(s, draw) && s.procs[r].AuthorizeSave?
    ensures CodeLives(s, Step(r, draw), x)
  {
    hide StepProc, IsFresh;
    StepsAre(s, r, draw);
  }

  lemma QuietCodeLives(s: State, r: RequestId, draw: Draw, x: Code)
    requires Running(s, r) && IsFresh(s, draw)
    requires !s.procs[r].CodeFind? && !s.procs[r].CodeConsume? && !s.procs[r].AuthorizeSave?
    ensures CodeLives(s, Step(r, draw), x)
  {
    OtherStepsLeaveCodes(s, r, draw);
    hide StepProc, IsFresh;
  }

  lemma CascadeCodeLives(s: State, a: Action, x: Code)
    requires a.DeleteUser? || a.DeleteClient?
    ensures CodeLives(s, a, x)
  {
    hide IsFresh, StepProc, RT.DropUser, RT.DropClient;
  }

  lemma EnvironmentCodeLives(s: State, a: Action, x: Code)
    requires Enabled(s, a) && !a.Step? && !a.DeleteUser? && !a.DeleteClient?
    ensures CodeLives(s, a, x)
  {
    hide IsFresh, NormalizeScope, StepProc, RemoveUser, RemoveClient, RT.PurgeExpired;
  }

  /** The same for authorization codes, their redemption included. */
  lemma CodeFate(s: State, a: Action, x: Code)
    requires Enabled(s, a)
    ensures CodeLives(s, a, x)
  {
    hide CodeLives, StepProc, IsFresh;
    if a.Step? {
      var p := s.procs[a.r];
      if p.CodeFind? { FindCodeLives(s, a.r, a.draw, x); }
      else if p.CodeConsume? { ConsumeCodeLives(s, a.r, a.draw, x); }
      else if p.AuthorizeSave? { SaveCodeLives(s, a.r, a.draw, x); }
      else { QuietCodeLives(s, a.r, a.draw, x); }
    } else if a.DeleteUser? || a.DeleteClient? {
      CascadeCodeLives(s, a, x);
    } else {
      EnvironmentCodeLives(s, a, x);
    }
  }

  // ---- consents, users and clients ----

  /** Consents come by being granted and go with their user or client; users and clients come and go by name. */
  lemma WorldFate(s: State, a: Action, c: Consent)
    requires Enabled(s, a)
    ensures c in Apply(s, a).consents <==>
              || (c in s.consents && !(a == DeleteUser(c.user) && c.user in s.users)
                  && !(a == DeleteClient(c.client) && c.client in s.clients))
              || (a.GrantConsent? && a.user == c.user && a.client == c.client
                  && "openid" in Fields(a.scope) && c.scope == Join(Fields(a.scope)))
    ensures Apply(s, a).users ==
              if a.PutUser? then s.users + {a.uid} else if a.DeleteUser? then s.users - {a.uid} else s.users
    ensures Apply(s, a).clients ==
              if a.PutClient? then s.clients[a.cid := a.record] else if a.DeleteClient? then s.clients - {a.cid} else s.clients
  {
    hide StepProc, Fields, AC.DropUser, AC.DropClient, RT.DropUser, RT.DropClient;
    if a.Step? { TT.StepMovesOnly(s, a.r, a.draw); }
  }
}
