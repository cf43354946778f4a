/**
  Where things in a state come from: runs written out state by state, and for
  what a state shows the earlier steps that must have brought it about.
 */
module TokenRuns {
  import opened Wrappers
  import opened Scopes
  import opened Domain
  import opened Authorize
  import opened TokenProtocol
  import opened TokenInvariants
  import RT = RefreshTokenStore
  import RL = RotationLedger
  import TT = TokenTheorems

  ghost predicate StepOf(ss: seq<State>, acts: seq<Action>, i: nat)
    requires |ss| == |acts| + 1 && i < |acts|
  {
    Enabled(ss[i], acts[i]) && ss[i + 1] == Apply(ss[i], acts[i])
  }

  /** The states of a run and the actions between them. */
  ghost predicate Path(ss: seq<State>, acts: seq<Action>) {
    |ss| == |acts| + 1 && forall i :: 0 <= i < |acts| ==> StepOf(ss, acts, i)
  }

  /** The states of a run from an initial one, and the actions between them. */
  ghost predicate Trace(ss: seq<State>, acts: seq<Action>) {
    |ss| == |acts| + 1 && Initial(ss[0]) && forall i :: 0 <= i < |acts| ==> StepOf(ss, acts, i)
  }

  /** Every run is such a sequence. */
  lemma {:induction false} StatesOf(s: State, acts: seq<Action>) returns (ss: seq<State>)
    requires Legal(s, acts)
    ensures |ss| == |acts| + 1 && ss[0] == s && ss[|acts|] == Run(s, acts)
    ensures forall i :: 0 <= i < |acts| ==> StepOf(ss, acts, i)
    decreases |acts|
  {
    hide Enabled, Apply;
    if acts == [] {
      ss := [s];
    } else {
      var rest := StatesOf(Apply(s, acts[0]), acts[1..]);
      ss := [s] + rest;
      forall i | 0 <= i < |acts| ensures StepOf(ss, acts, i) {
        if i > 0 { assert StepOf(rest, acts[1..], i - 1) && ss[i + 1] == rest[i] && ss[i] == rest[i - 1]; }
      }
    }
  }

  lemma {:induction false} TraceKeepsInv(ss: seq<State>, acts: seq<Action>, n: nat)
    requires Trace(ss, acts) && n <= |acts|
    ensures Inv(ss[n])
    decreases n
  {
    hide Inv, Enabled, Apply;
    if n == 0 {
      InitialInv(ss[0]);
    } else {
      TraceKeepsInv(ss, acts, n - 1);
      assert StepOf(ss, acts, n - 1);
      ActionKeepsInv(ss[n - 1], acts[n - 1]);
    }
  }

  lemma {:induction false} PathKeepsInv(ss: seq<State>, acts: seq<Action>, n: nat)
    requires Path(ss, acts) && n <= |acts| && Inv(ss[0])
    ensures Inv(ss[n])
    decreases n
  {
    hide Inv, Enabled, Apply;
    if n > 0 {
      PathKeepsInv(ss, acts, n - 1);
      assert StepOf(ss, acts, n - 1);
      ActionKeepsInv(ss[n - 1], acts[n - 1]);
    }
  }

  // ---- the last move of a request ----

  predicate Moves(a: Action, r: RequestId) { (a.Arrive? || a.Step? || a.Fail?) && a.r == r }

  lemma OthersStay(s: State, a: Action, r: RequestId)
    requires Enabled(s, a) && !Moves(a, r)
    ensures r in Apply(s, a).procs <==> r in s.procs
    ensures r in s.procs ==> Apply(s, a).procs[r] == s.procs[r]
  {
    hide StepProc;
    if a.Step? { TT.StepMovesOnly(s, a.r, a.draw); }
  }

  /** The action that brought r to where it stands. */
  lemma {:induction false} LastMove(ss: seq<State>, acts: seq<Action>, n: nat, r: RequestId) returns (k: nat)
    requires Trace(ss, acts) && n <= |acts| && r in ss[n].procs
    ensures k < n && Moves(acts[k], r) && r in ss[k + 1].procs && ss[k + 1].procs[r] == ss[n].procs[r]
    decreases n
  {
    hide Enabled, Apply;
    if n > 0 {
      assert StepOf(ss, acts, n - 1);
      if Moves(acts[n - 1], r) {
        StillThere(ss, acts, n - 1, r);
        k := n - 1;
      } else {
        OthersStay(ss[n - 1], acts[n - 1], r);
        k := LastMove(ss, acts, n - 1, r);
      }
    }
  }

  lemma StillThere(ss: seq<State>, acts: seq<Action>, i: nat, r: RequestId)
    requires |ss| == |acts| + 1 && i < |acts| && StepOf(ss, acts, i) && Moves(acts[i], r)
    ensures r in ss[i + 1].procs
  {
    hide StepProc;
    if acts[i].Step? { TT.StepMovesOnly(ss[i], r, acts[i].draw); }
  }

  /** A request in the middle of its program got there by a step. */
  lemma LastStep(ss: seq<State>, acts: seq<Action>, n: nat, r: RequestId) returns (k: nat)
    requires Trace(ss, acts) && n <= |acts| && r in ss[n].procs
    requires !ss[n].procs[r].Arrived? && !ss[n].procs[r].Finished?
    ensures k < n && acts[k].Step? && acts[k].r == r && Running(ss[k], r)
    ensures ss[n].procs[r] == StepProc(ss[k], r, ss[k].procs[r], acts[k].draw).procs[r]
  {
    hide StepProc;
    k := LastMove(ss, acts, n, r);
    assert StepOf(ss, acts, k);
  }

  /** r arrives at the beginning of the path and is answered by its last action. */
  ghost predicate Served(ss: seq<State>, acts: seq<Action>, r: RequestId, req: Request) {
    && Path(ss, acts) && acts != [] && r in ss[0].procs && ss[0].procs[r] == Arrived(req)
    && (forall m :: 0 <= m < |acts| ==> Running(ss[m], r)) && Done(ss[|acts|], r)
  }

  // ---- every request is answered ----

  /** Steps a request still takes at most. */
  function StepsLeft(p: Proc): nat {
    match p
    case Arrived(_) => 7
    case CodeFind(_, _, _) => 6
    case CodeVerify(_, _, _, _) => 5
    case CodeConsume(_, _, _, _) => 4
    case CodeOwner(_, _, _, _) => 3
    case CodeMint(_, _, _, _) => 2
    case CodeSave(_, _, _, _) => 1
    case RefreshFind(_, _) => 5
    case RefreshOwner(_, _, _, _) => 4
    case RefreshMint(_, _, _, _) => 3
    case RefreshRotate(_, _, _, _) => 2
    case RefreshRevoke(_, _, _) => 1
    case AuthorizeIssue(_, _, _) => 2
    case AuthorizeSave(_, _, _, _) => 1
    case RevokeClient(_, _) => 2
    case RevokeDelete(_, _) => 1
    case Finished(_, _) => 0
  }

  lemma ArrivalComesCloser(s: State, r: RequestId)
    requires Running(s, r) && s.procs[r].Arrived?
    ensures var s' := StepArrived(s, r, s.procs[r].req); r in s'.procs && StepsLeft(s'.procs[r]) < 7
  {
    hide ResolveClient, NormalizeScope, NoInsert, RT.FindByTokenHash;
  }

  lemma StepComesCloser(s: State, r: RequestId, draw: Draw)
    requires Running(s, r)
    ensures var s' := StepProc(s, r, s.procs[r], draw); r in s'.procs && StepsLeft(s'.procs[r]) < StepsLeft(s.procs[r])
  {
    hide StepArrived, NoInsert, Narrow, Verify, MayRevoke, Validate, ParseAuth, ParseRefresh, RT.FindByTokenHash;
    hide RotateLink, SaveFirst;
    if s.procs[r].Arrived? { ArrivalComesCloser(s, r); }
  }

  /** A request that runs alone is answered, within seven steps. */
  lemma {:induction false} EndsAlone(s: State, r: RequestId) returns (ss: seq<State>, acts: seq<Action>)
    requires Running(s, r)
    ensures Path(ss, acts) && ss[0] == s && acts != [] && |acts| <= StepsLeft(s.procs[r])
    ensures forall m :: 0 <= m < |acts| ==> acts[m].Step? && acts[m].r == r && Running(ss[m], r)
    ensures Done(ss[|acts|], r)
    decreases StepsLeft(s.procs[r])
  {
    hide StepProc, StepsLeft, IsFresh;
    var draw := TT.FreshDraw(s);
    var a := Step(r, draw);
    var s' := Apply(s, a);
    StepComesCloser(s, r, a.draw);
    if Done(s', r) {
      ss, acts := [s, s'], [a];
      assert StepOf(ss, acts, 0);
    } else {
      var ss', acts' := EndsAlone(s', r);
      ss, acts := [s] + ss', [a] + acts';
      forall i | 0 <= i < |acts| ensures StepOf(ss, acts, i) {
        if i > 0 { assert StepOf(ss', acts', i - 1) && ss[i + 1] == ss'[i] && ss[i] == ss'[i - 1]; }
      }
    }
  }

  // ---- what a step must have come from ----

  /** The check Revoke makes, on the client record of that moment. */
  predicate Credentials(clients: Clients, cid: ClientID, rev: RevokeRequest) {
    && cid.value != "" && cid in clients
    && (clients[cid].secret.Some? ==>
          rev.clientID == cid.value && rev.clientSecret != "" && rev.clientSecret == clients[cid].secret.value)
    && (clients[cid].secret.None? ==> rev.clientID == "" || rev.clientID == cid.value)
  }

  lemma ArrivedLeadsTo(s: State, r: RequestId)
    requires Running(s, r) && s.procs[r].Arrived?
    ensures var p, req := StepArrived(s, r, s.procs[r].req).procs[r], s.procs[r].req;
            && !p.RefreshRevoke? && !p.RevokeDelete? && !p.AuthorizeSave?
            && (p.AuthorizeIssue? ==>
                  && req == AuthorizeCall(p.auth, p.owner, p.authTime) && NormalizeScope(p.auth.scope).Ok?
                  && Consent(p.owner, ClientID(p.auth.clientID), NormalizeScope(p.auth.scope).value) in s.consents)
            && (p.RevokeClient? ==>
                  && req == RevokeCall(p.rev) && p.rt.hash == HashToken(p.rev.token)
                  && RT.FindByTokenHash(s.tokens.rows, p.rt.hash, s.clock).1 == Ok(p.rt))
  {
    hide ResolveClient, NormalizeScope, NoInsert;
    if s.procs[r].req.RevokeCall? { ReconstructKeepsHash(HashToken(s.procs[r].req.rev.token), s.tokens.rows); }
  }

  lemma ReconstructKeepsHash(h: TokenHash, rows: RT.Rows)
    ensures h in rows && RT.Reconstruct(h, rows[h]).Ok? ==> RT.Reconstruct(h, rows[h]).value.hash == h
  {
  }

  /** The steps by which requests come to revoke, and to store a code. */
  lemma WhatPrecedes(s: State, r: RequestId, draw: Draw)
    requires Running(s, r)
    ensures var p, p' := s.procs[r], StepProc(s, r, s.procs[r], draw).procs[r];
            && (p'.RevokeDelete? ==> p == RevokeClient(p'.rev, p'.rt) && Credentials(s.clients, p.rt.client, p.rev))
            && (p'.RevokeClient? ==> p == Arrived(RevokeCall(p'.rev)))
            && (p'.RefreshRevoke? ==> p.RefreshFind? || (p.RefreshRotate? && p.rt == p'.rt))
            && (p'.AuthorizeSave? ==>
                  && p.AuthorizeIssue? && p'.auth == p.auth && p'.owner == p.owner
                  && Validate(s.clients, p.auth).error.None? && p'.ac.user == p.owner
                  && p'.ac.client == ClientID(p.auth.clientID) && ParseAuth(p.auth.scope) == Ok(p'.ac.scope)
                  && p'.ac.challenge != "")
            && (p'.AuthorizeIssue? ==> p == Arrived(AuthorizeCall(p'.auth, p'.owner, p'.authTime)))
  {
    hide StepArrived, RT.FindByTokenHash, Verify, Narrow, NoInsert, Validate, ParseRefresh, RotateLink, SaveFirst;
    if s.procs[r].Arrived? { ArrivedLeadsTo(s, r); }
    if s.procs[r].AuthorizeIssue? && Validate(s.clients, s.procs[r].auth).error.None? {
      AcceptedScopeIsAllowed(s.clients, s.procs[r].auth);
    }
  }

  /** A request that is about to revoke for reuse has seen a live consumed row of that family under the token presented. */
  lemma ReuseWasSeen(s: State, r: RequestId, draw: Draw)
    requires Running(s, r) && StepProc(s, r, s.procs[r], draw).procs[r].RefreshRevoke?
    requires Inv(s)
    ensures var p, p' := s.procs[r], StepProc(s, r, s.procs[r], draw).procs[r];
            && (p.RefreshFind? || p.RefreshRotate?) && p.tok == p'.tok
            && var h := HashToken(p.tok.refreshToken);
               RT.Live(s.tokens.rows, h, s.clock) && s.tokens.rows[h].consumed && s.tokens.rows[h].family == p'.rt.family
  {
    hide Inv, StepProc;
    WhatPrecedes(s, r, draw);
    if s.procs[r].RefreshFind? { ReuseSeenAtFind(s, r, draw); } else { ReuseSeenAtRotate(s, r, draw); }
  }

  lemma ReuseSeenAtFind(s: State, r: RequestId, draw: Draw)
    requires Running(s, r) && s.procs[r].RefreshFind? && StepProc(s, r, s.procs[r], draw).procs[r].RefreshRevoke?
    ensures var p, p' := s.procs[r], StepProc(s, r, s.procs[r], draw).procs[r];
            && p.tok == p'.tok
            && var h := HashToken(p.tok.refreshToken);
               RT.Live(s.tokens.rows, h, s.clock) && s.tokens.rows[h].consumed && s.tokens.rows[h].family == p'.rt.family
  {
    hide Narrow, NoInsert, ParseRefresh;
  }

  lemma ReuseSeenAtRotate(s: State, r: RequestId, draw: Draw)
    requires Running(s, r) && s.procs[r].RefreshRotate? && StepProc(s, r, s.procs[r], draw).procs[r].RefreshRevoke?
    requires Inv(s)
    ensures var p, p' := s.procs[r], StepProc(s, r, s.procs[r], draw).procs[r];
            && p.tok == p'.tok
            && var h := HashToken(p.tok.refreshToken);
               RT.Live(s.tokens.rows, h, s.clock) && s.tokens.rows[h].consumed && s.tokens.rows[h].family == p'.rt.family
  {
    hide RL.Inv, MakersInv, FamiliesInv, IssuedLawfully, CodeLedgerInv;
    var p := s.procs[r];
    assert ProcInv(s, r, p) && GrantMatches(p);
    if p.rt.hash in s.tokens.rows { TT.SnapshotFamily(s.tokens, p.rt, s.clock); }
  }

  // ---- revocation ----

  lemma {:induction false} EntersRevoked(ss: seq<State>, acts: seq<Action>, n: nat, f: FamilyID) returns (k: nat)
    requires Trace(ss, acts) && n <= |acts| && f in ss[n].tokens.revoked
    ensures k < n && acts[k].Step? && TT.AboutToRevoke(ss[k], acts[k].r, f)
    decreases n
  {
    hide Inv, Enabled, Apply;
    if n > 0 {
      assert StepOf(ss, acts, n - 1);
      TraceKeepsInv(ss, acts, n - 1);
      TT.ActionSparesRevoked(ss[n - 1], acts[n - 1], f);
      if acts[n - 1].Step? && TT.AboutToRevoke(ss[n - 1], acts[n - 1].r, f) {
        k := n - 1;
      } else {
        k := EntersRevoked(ss, acts, n - 1, f);
      }
    }
  }

  /** At step j, r saw a live consumed row of f under the refresh token it presented. */
  ghost predicate SawReuse(s: State, r: RequestId, f: FamilyID) {
    && r in s.procs && (s.procs[r].RefreshFind? || s.procs[r].RefreshRotate?)
    && var h := HashToken(s.procs[r].tok.refreshToken);
       RT.Live(s.tokens.rows, h, s.clock) && s.tokens.rows[h].consumed && s.tokens.rows[h].family == f
  }

  /** r presents for revocation a live token of f, bound to client cid. */
  ghost predicate Presents(s: State, r: RequestId, f: FamilyID, cid: ClientID, rev: RevokeRequest) {
    && r in s.procs && s.procs[r] == Arrived(RevokeCall(rev))
    && var h := HashToken(rev.token);
       RT.Live(s.tokens.rows, h, s.clock) && s.tokens.rows[h].family == f && s.tokens.rows[h].client == cid
  }

  lemma LookupShowsFamily(s: State, r: RequestId, draw: Draw)
    requires Running(s, r) && StepProc(s, r, s.procs[r], draw).procs[r].RevokeClient?
    ensures var p' := StepProc(s, r, s.procs[r], draw).procs[r];
            Presents(s, r, p'.rt.family, p'.rt.client, p'.rev)
  {
    hide StepArrived;
    WhatPrecedes(s, r, draw);
    ArrivedLeadsTo(s, r);
    hide StepProc;
  }

  /**
    Every revocation has a cause. If a family is revoked after n actions, some
    request had either seen a live, already consumed token of that family
    presented to it, or presented a live token of the family to /revoke and,
    later, the credentials of the client that token is bound to, as the
    client's record stood then; and nothing else revokes it.
   */
  lemma RevocationHasCause(ss: seq<State>, acts: seq<Action>, n: nat, f: FamilyID)
    returns (i: nat, j: nat, k: nat, r: RequestId, rev: RevokeRequest, cid: ClientID)
    requires Trace(ss, acts) && n <= |acts| && f in ss[n].tokens.revoked
    ensures i <= j < k < n && acts[k].Step? && acts[k].r == r && TT.AboutToRevoke(ss[k], r, f)
    ensures ss[k].procs[r].RefreshRevoke? ==> SawReuse(ss[j], r, f)
    ensures ss[k].procs[r].RevokeDelete? ==>
              i < j && Presents(ss[i], r, f, cid, rev) && Credentials(ss[j].clients, cid, rev)
  {
    assert |ss| == |acts| + 1;
    hide Inv, StepProc, Trace, Presents, Credentials;
    k := EntersRevoked(ss, acts, n, f);
    r := acts[k].r;
    j := LastStep(ss, acts, k, r);
    i, rev, cid := j, RevokeRequest("", "", ""), ClientID("");
    WhatPrecedes(ss[j], r, acts[j].draw);
    if ss[k].procs[r].RefreshRevoke? {
      TraceKeepsInv(ss, acts, j);
      ReuseWasSeen(ss[j], r, acts[j].draw);
    } else {
      rev, cid := ss[k].procs[r].rev, ss[k].procs[r].rt.client;
      i := LastStep(ss, acts, j, r);
      LookupShowsFamily(ss[i], r, acts[i].draw);
    }
  }

  lemma {:induction false} Waits(ss: seq<State>, acts: seq<Action>, m: nat, n: nat, r: RequestId)
    requires Trace(ss, acts) && m <= n <= |acts| && r in ss[m].procs
    requires forall i :: m <= i < n ==> !Moves(acts[i], r)
    ensures r in ss[n].procs && ss[n].procs[r] == ss[m].procs[r]
    decreases n
  {
    hide Enabled, Apply;
    if m < n {
      Waits(ss, acts, m, n - 1, r);
      assert StepOf(ss, acts, n - 1);
      OthersStay(ss[n - 1], acts[n - 1], r);
    }
  }

  lemma PresentedIsFound(s: State, r: RequestId, draw: Draw, f: FamilyID, cid: ClientID, rev: RevokeRequest)
    requires Running(s, r) && Presents(s, r, f, cid, rev) && rev.token != ""
    requires RL.Inv(s.tokens, s.clock)
    ensures var s' := StepProc(s, r, s.procs[r], draw);
            r in s'.procs && s'.procs[r].RevokeClient? && s'.procs[r].rev == rev
            && s'.procs[r].rt.family == f && s'.procs[r].rt.client == cid
  {
    hide RL.Inv, NoInsert, RevokeFound;
    var h := HashToken(rev.token);
    TT.RowsParse(s.tokens, h, s.clock);
    FoundGoesOn(s, r, rev, RT.Reconstruct(h, s.tokens.rows[h]));
  }

  lemma FoundGoesOn(s: State, r: RequestId, rev: RevokeRequest, found: Result<RefreshToken, Error>)
    requires Running(s, r) && found.Ok?
    ensures RevokeFound(s, r, s.procs[r], rev, found).procs[r] == RevokeClient(rev, found.value)
  {
    hide NoInsert;
  }

  /**
    And it takes effect: a request that presents a live token of a family to
    /revoke and then the credentials of its client has revoked the family with
    its third step, whatever happens in between.
   */
  lemma CredentialsRevoke(ss: seq<State>, acts: seq<Action>, i: nat, j: nat, k: nat, r: RequestId,
                          f: FamilyID, cid: ClientID, rev: RevokeRequest)
    requires Trace(ss, acts) && i < j < k < |acts|
    requires forall m :: i <= m <= k ==> (Moves(acts[m], r) <==> m in [i, j, k])
    requires acts[i].Step? && acts[j].Step? && acts[k].Step?
    requires Presents(ss[i], r, f, cid, rev) && rev.token != "" && Credentials(ss[j].clients, cid, rev)
    ensures f in ss[k + 1].tokens.revoked
  {
    assert |ss| == |acts| + 1;
    hide Trace, Presents, Credentials, TT.AboutToRevoke;
    assert Moves(acts[i], r) && Moves(acts[j], r) && Moves(acts[k], r);
    LookupAt(ss, acts, i, r, f, cid, rev);
    Waits(ss, acts, i + 1, j, r);
    PassesAt(ss, acts, j, r, f, cid);
    WaitsToRevoke(ss, acts, j + 1, k, r, f);
    RevokesAt(ss, acts, k, f);
  }

  lemma WaitsToRevoke(ss: seq<State>, acts: seq<Action>, m: nat, n: nat, r: RequestId, f: FamilyID)
    requires Trace(ss, acts) && m <= n <= |acts| && TT.AboutToRevoke(ss[m], r, f)
    requires forall i :: m <= i < n ==> !Moves(acts[i], r)
    ensures TT.AboutToRevoke(ss[n], r, f)
  {
    assert |ss| == |acts| + 1;
    hide Trace;
    Waits(ss, acts, m, n, r);
  }

  lemma LookupAt(ss: seq<State>, acts: seq<Action>, i: nat, r: RequestId, f: FamilyID, cid: ClientID, rev: RevokeRequest)
    requires Trace(ss, acts) && i < |acts| && acts[i].Step? && acts[i].r == r
    requires Presents(ss[i], r, f, cid, rev) && rev.token != ""
    ensures r in ss[i + 1].procs && ss[i + 1].procs[r].RevokeClient? && ss[i + 1].procs[r].rev == rev
    ensures ss[i + 1].procs[r].rt.family == f && ss[i + 1].procs[r].rt.client == cid
  {
    hide RL.Inv, StepProc;
    TraceStep(ss, acts, i);
    TraceKeepsInv(ss, acts, i);
    PresentedIsFound(ss[i], r, acts[i].draw, f, cid, rev);
  }

  lemma PassesAt(ss: seq<State>, acts: seq<Action>, j: nat, r: RequestId, f: FamilyID, cid: ClientID)
    requires Trace(ss, acts) && j < |acts| && acts[j].Step? && acts[j].r == r
    requires r in ss[j].procs && ss[j].procs[r].RevokeClient? && ss[j].procs[r].rt.family == f
    requires ss[j].procs[r].rt.client == cid && Credentials(ss[j].clients, cid, ss[j].procs[r].rev)
    ensures TT.AboutToRevoke(ss[j + 1], r, f)
  {
    hide StepProc;
    TraceStep(ss, acts, j);
    TT.RevokeNeedsItsClient(ss[j], r, acts[j].draw);
    TT.StepMovesOnly(ss[j], r, acts[j].draw);
    GoesOnToDelete(ss[j], r, acts[j].draw);
  }

  lemma GoesOnToDelete(s: State, r: RequestId, draw: Draw)
    requires Running(s, r) && s.procs[r].RevokeClient? && StepProc(s, r, s.procs[r], draw).procs[r].RevokeDelete?
    ensures StepProc(s, r, s.procs[r], draw).procs[r].rt == s.procs[r].rt
  {
    hide NoInsert, MayRevoke;
  }

  lemma RevokesAt(ss: seq<State>, acts: seq<Action>, k: nat, f: FamilyID)
    requires Trace(ss, acts) && k < |acts| && acts[k].Step? && TT.AboutToRevoke(ss[k], acts[k].r, f)
    ensures f in ss[k + 1].tokens.revoked
  {
    hide Inv, StepProc;
    TraceStep(ss, acts, k);
    TraceKeepsInv(ss, acts, k);
    TT.ActionSparesRevoked(ss[k], acts[k], f);
  }

  // ---- consent and lineage ----

  /** Only the save at the end of Authorize issues a code. */
  lemma IssuedBySave(s: State, a: Action, x: Code)
    requires Enabled(s, a) && x in Apply(s, a).codes.issued && x !in s.codes.issued
    ensures a.Step? && s.procs[a.r].AuthorizeSave? && s.procs[a.r].ac.code == x
  {
    hide StepProc;
    if a.Step? { StepIssues(s, a.r, a.draw, x); }
  }

  lemma StepIssues(s: State, r: RequestId, draw: Draw, x: Code)
    requires Running(s, r) && x in StepProc(s, r, s.procs[r], draw).codes.issued && x !in s.codes.issued
    ensures s.procs[r].AuthorizeSave? && s.procs[r].ac.code == x
  {
    hide StepArrived, StepRefreshFind, StepRefreshOwner, StepRefreshMint, StepRefreshRevoke, StepCodeFind;
    hide StepCodeVerify, StepCodeConsume, StepCodeOwner, StepCodeMint, StepAuthorizeIssue, StepRevokeClient;
    hide StepRevokeDelete, RotateLink, SaveFirst;
  }

  lemma CodeStaysIssued(s: State, a: Action, x: Code)
    requires Enabled(s, a) && x in s.codes.issued
    requires Inv(s)
    ensures x in Apply(s, a).codes.issued && Apply(s, a).codes.issued[x] == s.codes.issued[x]
  {
    hide Inv, StepProc;
    if a.Step? { StepKeepsIssued(s, a.r, a.draw, x); }
  }

  lemma StepKeepsIssued(s: State, r: RequestId, draw: Draw, x: Code)
    requires Running(s, r) && x in s.codes.issued
    requires Inv(s)
    ensures var s' := StepProc(s, r, s.procs[r], draw); x in s'.codes.issued && s'.codes.issued[x] == s.codes.issued[x]
  {
    hide RL.Inv, FamiliesInv, IssuedLawfully, CodeLedgerInv, MakersInv, ProcInv;
    hide StepArrived, StepRefreshFind, StepRefreshOwner, StepRefreshMint, StepRefreshRevoke, StepCodeFind;
    hide StepCodeVerify, StepCodeConsume, StepCodeOwner, StepCodeMint, StepAuthorizeIssue, StepRevokeClient;
    hide StepRevokeDelete, RotateLink, SaveFirst;
    assert ProcInv(s, r, s.procs[r]);
    PendingIsUnstored(s, r);
  }

  lemma {:induction false} EntersIssued(ss: seq<State>, acts: seq<Action>, n: nat, x: Code) returns (k: nat)
    requires Trace(ss, acts) && n <= |acts| && x in ss[n].codes.issued
    ensures k < n && x !in ss[k].codes.issued && x in ss[k + 1].codes.issued
    ensures ss[k + 1].codes.issued[x] == ss[n].codes.issued[x]
    decreases n
  {
    hide Inv, Enabled, Apply;
    if n > 0 {
      assert StepOf(ss, acts, n - 1);
      if x in ss[n - 1].codes.issued {
        TraceKeepsInv(ss, acts, n - 1);
        CodeStaysIssued(ss[n - 1], acts[n - 1], x);
        k := EntersIssued(ss, acts, n - 1, x);
      } else {
        k := n - 1;
      }
    }
  }

  /** r asks for a code, and the consent it needs stands in the consents table at that moment. */
  ghost predicate FindsConsent(s: State, r: RequestId, row: Issued) {
    && r in s.procs && s.procs[r].Arrived? && s.procs[r].req.AuthorizeCall?
    && s.procs[r].req.owner == row.row.user && ClientID(s.procs[r].req.auth.clientID) == row.row.client
    && Consent(row.row.user, row.row.client, row.row.scope) in s.consents
  }

  lemma SaveStoresItsCode(s: State, r: RequestId, draw: Draw)
    requires Running(s, r) && s.procs[r].AuthorizeSave? && s.procs[r].ac.code !in s.codes.issued
    requires s.procs[r].ac.code in StepProc(s, r, s.procs[r], draw).codes.issued
    ensures var row := StepProc(s, r, s.procs[r], draw).codes.issued[s.procs[r].ac.code].row;
            && row.user == s.procs[r].ac.user && row.client == s.procs[r].ac.client
            && row.scope == s.procs[r].ac.scope.value && row.challenge == s.procs[r].ac.challenge
  {
  }

  /**
    Consent comes first. A code issued by the time of state n was stored at
    some step k by a request that, at an earlier step j, had found the consent
    of this user to this client for exactly this scope in the consents table.
   */
  lemma ConsentPrecedesIssue(ss: seq<State>, acts: seq<Action>, n: nat, x: Code) returns (j: nat, k: nat)
    requires Trace(ss, acts) && n <= |acts| && x in ss[n].codes.issued
    ensures j < k < n && acts[j].Step? && acts[k].Step? && acts[j].r == acts[k].r
    ensures x !in ss[k].codes.issued && x in ss[k + 1].codes.issued && ss[k + 1].codes.issued[x] == ss[n].codes.issued[x]
    ensures FindsConsent(ss[j], acts[j].r, ss[n].codes.issued[x])
  {
    assert |ss| == |acts| + 1;
    hide StepProc, Inv, Trace, NormalizeScope, Validate, ParseAuth;
    k := EntersIssued(ss, acts, n, x);
    assert StepOf(ss, acts, k) by { TraceStep(ss, acts, k); }
    IssuedBySave(ss[k], acts[k], x);
    var r := acts[k].r;
    SaveStoresItsCode(ss[k], r, acts[k].draw);
    var m := LastStep(ss, acts, k, r);
    WhatPrecedes(ss[m], r, acts[m].draw);
    j := LastStep(ss, acts, m, r);
    WhatPrecedes(ss[j], r, acts[j].draw);
    IssueFollowsConsent(ss[j], r, acts[j].draw);
    ScopesAgree(ss[m].procs[r].auth);
  }

  /** The row of every code ever issued reads back: its scope parses, openid included, and it has a challenge. */
  lemma IssuedReadsBack(ss: seq<State>, acts: seq<Action>, n: nat, x: Code)
    requires Trace(ss, acts) && n <= |acts| && x in ss[n].codes.issued
    ensures ParseAuth(ss[n].codes.issued[x].row.scope).Ok? && ss[n].codes.issued[x].row.challenge != ""
  {
    assert |ss| == |acts| + 1;
    hide StepProc, Inv, Trace, NormalizeScope, Validate, ParseAuth;
    var k := EntersIssued(ss, acts, n, x);
    assert StepOf(ss, acts, k) by { TraceStep(ss, acts, k); }
    IssuedBySave(ss[k], acts[k], x);
    SaveStoresItsCode(ss[k], acts[k].r, acts[k].draw);
    var m := LastStep(ss, acts, k, acts[k].r);
    WhatPrecedes(ss[m], acts[k].r, acts[m].draw);
    ParsedReloads(ss[m].procs[acts[k].r].auth.scope);
  }

  lemma ParsedReloads(scope: string)
    ensures ParseAuth(scope).Ok? ==> ParseAuth(ParseAuth(scope).value.value) == ParseAuth(scope)
  {
    ParsedIsCanonical(scope);
    if ParseAuth(scope).Ok? { ReloadPreservesScope(ParseAuth(scope).value); }
  }

  lemma StoredCodesReadBack(s: State, x: Code)
    requires Reachable(s) && x in s.codes.rows
    ensures ParseAuth(s.codes.rows[x].scope).Ok? && s.codes.rows[x].challenge != ""
  {
    hide ParseAuth, Inv;
    var s0, acts :| Initial(s0) && Legal(s0, acts) && Run(s0, acts) == s;
    var ss := StatesOf(s0, acts);
    ReachableInv(s);
    RowsWereIssued(s, x);
    IssuedReadsBack(ss, acts, |acts|, x);
  }

  lemma RowsWereIssued(s: State, x: Code)
    requires Inv(s) && x in s.codes.rows
    ensures x in s.codes.issued && s.codes.rows[x] == s.codes.issued[x].row
  {
    hide RL.Inv, MakersInv, FamiliesInv, IssuedLawfully, ProcsInv;
  }

  lemma TraceStep(ss: seq<State>, acts: seq<Action>, k: nat)
    requires Trace(ss, acts) && k < |acts|
    ensures StepOf(ss, acts, k)
  {
  }

  lemma IssueFollowsConsent(s: State, r: RequestId, draw: Draw)
    requires Running(s, r) && s.procs[r].Arrived? && StepProc(s, r, s.procs[r], draw).procs[r].AuthorizeIssue?
    ensures var p' := StepProc(s, r, s.procs[r], draw).procs[r];
            && NormalizeScope(p'.auth.scope).Ok?
            && Consent(p'.owner, ClientID(p'.auth.clientID), NormalizeScope(p'.auth.scope).value) in s.consents
  {
    hide StepArrived, NormalizeScope;
    ArrivedLeadsTo(s, r);
  }

  lemma ScopesAgree(auth: AuthorizeRequest)
    ensures NormalizeScope(auth.scope).Ok? ==>
              ParseAuth(auth.scope).Ok? && NormalizeScope(auth.scope).value == ParseAuth(auth.scope).value.value
  {
    hide ParseAuth;
  }

  /**
    Lineage over runs: every refresh token stored by state n has the client,
    user and auth_time of the code its family was founded on and a scope within
    that code's, which lies within openid and what the client was allowed; and
    before that code was issued, its request had found the user's consent to
    this client for this scope.
   */
  lemma LineageOverRuns(ss: seq<State>, acts: seq<Action>, n: nat, h: TokenHash) returns (j: nat, k: nat)
    requires Trace(ss, acts) && n <= |acts| && h in ss[n].tokens.links
    ensures TT.Descended(ss[n], h)
    ensures var x := ss[n].tokens.origin[ss[n].tokens.links[h].row.family];
            && j < k < n && acts[j].Step? && acts[k].Step? && acts[j].r == acts[k].r
            && x !in ss[k].codes.issued && x in ss[k + 1].codes.issued
            && FindsConsent(ss[j], acts[j].r, ss[n].codes.issued[x])
  {
    assert |ss| == |acts| + 1;
    hide Inv, Trace, FindsConsent, StepOf;
    TraceKeepsInv(ss, acts, n);
    TT.LineageHolds(ss[n], h);
    j, k := ConsentPrecedesIssue(ss, acts, n, ss[n].tokens.origin[ss[n].tokens.links[h].row.family]);
  }
}
