/**
  What deleting a user does not stop: an exchange that has already found its
  owner may store a refresh token afterwards. Exactly such exchanges can, and
  the token is never redeemed.
 */
module OrphanTokens {
  import opened Wrappers
  import opened Scopes
  import opened Domain
  import opened TokenProtocol
  import opened TokenInvariants
  import RT = RefreshTokenStore
  import RL = RotationLedger
  import TT = TokenTheorems
  import W = TokenWitness

  /** Between s and s' a token of user u came to be stored. */
  ghost predicate StoresFor(s: State, s': State, u: UserID) {
    exists h :: h in s'.tokens.rows && h !in s.tokens.rows && s'.tokens.rows[h].user == u
  }

  ghost predicate HoldsTokenOf(s: State, u: UserID) {
    exists h :: h in s.tokens.rows && s.tokens.rows[h].user == u
  }

  // ---- one step ----

  lemma RotationStoresForOwner(s: State, r: RequestId, u: UserID)
    requires Running(s, r) && s.procs[r].RefreshRotate? && u !in s.users
    requires Inv(s)
    ensures !StoresFor(s, StepRefreshRotate(s, r, s.procs[r]), u)
  {
    hide RL.Inv, CodeLedgerInv, IssuedLawfully, MakersInv, FamiliesInv, RL.Snapshot;
    hide ReadFrom, Presented, Exchanging;
    assert ProcInv(s, r, s.procs[r]);
  }

  lemma SaveStoresForOwner(s: State, r: RequestId, u: UserID)
    requires Running(s, r) && s.procs[r].CodeSave?
    requires Inv(s)
    ensures StoresFor(s, StepCodeSave(s, r, s.procs[r]), u) <==> s.procs[r].ac.user == u
    ensures var p, s' := s.procs[r], StepCodeSave(s, r, s.procs[r]);
            && s'.tokens.makers == s.tokens.makers && p.rt.hash in s.tokens.makers && s.tokens.makers[p.rt.hash] == r
            && forall h :: h in s'.tokens.rows && h !in s.tokens.rows ==> h == p.rt.hash
  {
    hide RL.Inv, CodeLedgerInv, IssuedLawfully, MakersInv, FamiliesInv, ReadFrom, Presented;
    var p := s.procs[r];
    assert ProcInv(s, r, p);
    PendingIsUnstored(s, r);
    RL.RowsHaveLinks(s.tokens, s.clock);
    assert p.rt.hash in StepCodeSave(s, r, p).tokens.rows;
  }

  lemma OtherStepsStoreNothing(s: State, r: RequestId, draw: Draw)
    requires Running(s, r) && !s.procs[r].RefreshRotate? && !s.procs[r].CodeSave?
    ensures StepProc(s, r, s.procs[r], draw).tokens.rows.Keys <= s.tokens.rows.Keys
  {
    hide StepArrived, RT.Reconstruct, RefreshFound, NoInsert;
    if s.procs[r].Arrived? { ArrivalStoresNothing(s, r); }
  }

  lemma ArrivalStoresNothing(s: State, r: RequestId)
    requires Running(s, r) && s.procs[r].Arrived?
    ensures StepArrived(s, r, s.procs[r].req).tokens.rows.Keys <= s.tokens.rows.Keys
  {
    hide ResolveClient, NormalizeScope, NoInsert, RT.Reconstruct, RevokeFound;
    var req := s.procs[r].req;
    if req.RevokeCall? {
      assert StepArrived(s, r, req) == StepRevokeFind(s, r, s.procs[r], req.rev);
    }
  }

  /**
    With a user gone, a step stores a token of that user exactly if it is the
    save at the end of an exchange for that user.
   */
  lemma StoredForGoneUserExactly(s: State, a: Action, u: UserID)
    requires Enabled(s, a) && u !in s.users
    requires Inv(s)
    ensures StoresFor(s, Apply(s, a), u) <==> a.Step? && s.procs[a.r].CodeSave? && s.procs[a.r].ac.user == u
  {
    hide Inv, StepProc;
    if a.Step? {
      TT.StepIsProgram(s, a.r, a.draw);
      if s.procs[a.r].CodeSave? {
        SaveStoresForOwner(s, a.r, u);
      } else if s.procs[a.r].RefreshRotate? {
        RotationStoresForOwner(s, a.r, u);
      } else {
        OtherStepsStoreNothing(s, a.r, a.draw);
      }
    }
  }

  // ---- whole runs ----

  /** An exchange for u that is past its owner check and mints a refresh token. */
  ghost predicate OnItsWay(s: State, r: RequestId, u: UserID) {
    && r in s.procs
    && ((s.procs[r].CodeMint? && DrawsRefresh(s.procs[r])) || s.procs[r].CodeSave?)
    && s.procs[r].ac.user == u
  }

  lemma StepTowardsSave(s: State, r: RequestId, draw: Draw, u: UserID)
    requires Running(s, r) && u !in s.users && OnItsWay(StepProc(s, r, s.procs[r], draw), r, u)
    ensures OnItsWay(s, r, u)
  {
    hide StepArrived, RT.FindByTokenHash, Narrow, NoInsert, ParseRefresh, RotateLink, SaveFirst;
    if s.procs[r].Arrived? { ArrivedIsNotOnItsWay(s, r); }
  }

  lemma ArrivedIsNotOnItsWay(s: State, r: RequestId)
    requires Running(s, r) && s.procs[r].Arrived?
    ensures var p' := StepArrived(s, r, s.procs[r].req).procs[r]; !p'.CodeMint? && !p'.CodeSave?
  {
    hide ResolveClient, NormalizeScope, RT.FindByTokenHash, NoInsert;
  }

  /** No exchange gets past the owner check of a user who is gone. */
  lemma NoneSetsOut(s: State, a: Action, u: UserID, r: RequestId)
    requires Enabled(s, a) && u !in s.users && OnItsWay(Apply(s, a), r, u)
    ensures OnItsWay(s, r, u)
  {
    hide StepProc;
    if a.Step? {
      TT.StepMovesOnly(s, a.r, a.draw);
      if a.r == r { StepTowardsSave(s, r, a.draw, u); }
    }
  }

  /** Links and makers are for good. */
  lemma HistoryStays(s: State, a: Action, h: TokenHash)
    requires Enabled(s, a)
    requires Inv(s)
    ensures h in s.tokens.links ==> h in Apply(s, a).tokens.links && Apply(s, a).tokens.links[h] == s.tokens.links[h]
    ensures h in s.tokens.makers ==> h in Apply(s, a).tokens.makers && Apply(s, a).tokens.makers[h] == s.tokens.makers[h]
  {
    hide Inv, StepProc;
    if a.Step? {
      TT.MakersGain(s, a.r, a.draw);
      if h in s.tokens.links { StepKeepsLinks(s, a.r, a.draw, h); }
    }
  }

  lemma StepKeepsLinks(s: State, r: RequestId, draw: Draw, h: TokenHash)
    requires Running(s, r) && h in s.tokens.links
    requires Inv(s)
    ensures var s' := StepProc(s, r, s.procs[r], draw); h in s'.tokens.links && s'.tokens.links[h] == s.tokens.links[h]
  {
    hide RL.Inv, FamiliesInv, IssuedLawfully, CodeLedgerInv, MakersInv, ProcInv;
    hide StepArrived, StepRefreshFind, StepRefreshOwner, StepRefreshMint, StepRefreshRevoke, StepCodeFind;
    hide StepCodeVerify, StepCodeConsume, StepCodeOwner, StepCodeMint, StepAuthorizeIssue, StepRevokeClient;
    hide StepRevokeDelete, RT.Rotate, RT.Save;
    assert ProcInv(s, r, s.procs[r]);
    PendingIsUnstored(s, r);
  }

  lemma {:induction false} RunKeepsHistory(s: State, acts: seq<Action>, h: TokenHash)
    requires Legal(s, acts)
    requires Inv(s)
    ensures h in s.tokens.links ==> h in Run(s, acts).tokens.links && Run(s, acts).tokens.links[h] == s.tokens.links[h]
    ensures h in s.tokens.makers ==> h in Run(s, acts).tokens.makers && Run(s, acts).tokens.makers[h] == s.tokens.makers[h]
    decreases |acts|
  {
    hide Inv, Enabled, Apply;
    if acts != [] {
      ActionKeepsInv(s, acts[0]);
      HistoryStays(s, acts[0], h);
      RunKeepsHistory(Apply(s, acts[0]), acts[1..], h);
    }
  }

  lemma RowHasItsOwner(s: State, h: TokenHash)
    requires Inv(s) && h in s.tokens.rows
    ensures h in s.tokens.links && s.tokens.links[h].row.user == s.tokens.rows[h].user
  {
    hide FamiliesInv, IssuedLawfully, CodeLedgerInv, MakersInv, ProcsInv;
    assert RL.RowsAreLinks(s.tokens);
  }

  /** A token of a gone user stored later was minted by a request that was on its way when the user left. */
  lemma {:induction false} OrphansWereOnTheirWay(s: State, acts: seq<Action>, u: UserID, h: TokenHash)
    requires Legal(s, acts) && u !in s.users && PutUser(u) !in acts
    requires Inv(s)
    requires h in Run(s, acts).tokens.rows && h !in s.tokens.rows && Run(s, acts).tokens.rows[h].user == u
    ensures h in Run(s, acts).tokens.makers && OnItsWay(s, Run(s, acts).tokens.makers[h], u)
    decreases |acts|
  {
    hide Inv, Enabled, Apply, OnItsWay;
    if acts != [] {
      var a, s1 := acts[0], Apply(s, acts[0]);
      ActionKeepsInv(s, a);
      TT.ActionSparesDeleted(s, a, u);
      if h in s1.tokens.rows {
        RunKeepsInv(s1, acts[1..]);
        RowHasItsOwner(Run(s1, acts[1..]), h);
        RowHasItsOwner(s1, h);
        RunKeepsHistory(s1, acts[1..], h);
        assert StoresFor(s, s1, u);
        StoredForGoneUserExactly(s, a, u);
        SaverIsOnItsWay(s, a, u, h);
      } else {
        OrphansWereOnTheirWay(s1, acts[1..], u, h);
        NoneSetsOut(s, a, u, Run(s, acts).tokens.makers[h]);
      }
    }
  }

  lemma SaverIsOnItsWay(s: State, a: Action, u: UserID, h: TokenHash)
    requires Enabled(s, a) && a.Step? && s.procs[a.r].CodeSave? && s.procs[a.r].ac.user == u
    requires h in Apply(s, a).tokens.rows && h !in s.tokens.rows
    requires Inv(s)
    ensures h in Apply(s, a).tokens.makers && Apply(s, a).tokens.makers[h] == a.r && OnItsWay(s, a.r, u)
  {
    hide Inv, StepProc;
    TT.StepIsProgram(s, a.r, a.draw);
    SaveStoresForOwner(s, a.r, u);
  }

  // ---- and it does happen ----

  lemma SavesNow(s: State, r: RequestId, u: UserID) returns (a: Action)
    requires Running(s, r) && s.procs[r].CodeSave? && s.procs[r].ac.user == u
    requires Inv(s)
    ensures a.Step? && Enabled(s, a) && StoresFor(s, Apply(s, a), u)
  {
    hide Inv, StepProc;
    var draw := TT.FreshDraw(s);
    a := Step(r, draw);
    TT.StepIsProgram(s, r, draw);
    SaveStoresForOwner(s, r, u);
  }

  lemma MintsNow(s: State, r: RequestId, u: UserID) returns (a: Action)
    requires OnItsWay(s, r, u) && s.procs[r].CodeMint?
    ensures a.Step? && Enabled(s, a)
    ensures var s' := Apply(s, a);
            && s'.tokens.rows == s.tokens.rows && Running(s', r) && s'.procs[r].CodeSave? && s'.procs[r].ac.user == u
  {
    hide NoInsert, ParseRefresh;
    var draw := TT.FreshDraw(s);
    a := Step(r, draw);
  }

  /** Legal continuations in which u is not registered again and a token of u comes to be stored. */
  ghost predicate LeavesOrphan(s: State, acts: seq<Action>, u: UserID) {
    Legal(s, acts) && PutUser(u) !in acts && StoresFor(s, Run(s, acts), u)
  }

  lemma OnItsWayLeavesOrphan(s: State, r: RequestId, u: UserID) returns (acts: seq<Action>)
    requires OnItsWay(s, r, u)
    requires Inv(s)
    ensures LeavesOrphan(s, acts, u)
  {
    hide Inv, Enabled, Apply;
    assert Legal(s, []) && Run(s, []) == s;
    if s.procs[r].CodeSave? {
      var a := SavesNow(s, r, u);
      W.RunAppends(s, [], a);
      acts := [] + [a];
    } else {
      var a := MintsNow(s, r, u);
      ActionKeepsInv(s, a);
      var b := SavesNow(Apply(s, a), r, u);
      W.RunAppends(s, [], a);
      W.RunAppends(s, [] + [a], b);
      acts := [] + [a] + [b];
      assert PutUser(u) !in acts;
    }
  }

  /**
    After a user is gone a token of that user can still come to be stored, the
    user not being registered again, exactly if some exchange for that user
    stands between its owner check and its save at that moment.
   */
  lemma OrphansExactly(s: State, u: UserID)
    requires Reachable(s) && u !in s.users
    ensures (exists acts :: LeavesOrphan(s, acts, u)) <==> (exists r :: OnItsWay(s, r, u))
  {
    hide Inv, OnItsWay;
    ReachableInv(s);
    if acts :| LeavesOrphan(s, acts, u) {
      var h :| h in Run(s, acts).tokens.rows && h !in s.tokens.rows && Run(s, acts).tokens.rows[h].user == u;
      OrphansWereOnTheirWay(s, acts, u, h);
    }
    if r :| OnItsWay(s, r, u) {
      var acts := OnItsWayLeavesOrphan(s, r, u);
    }
  }

  /**
    So a delete does not leave a user without stored tokens for good: a legal
    run from an initial state that deletes the user, finds no token of the
    user right after that, and stores one with its last step.
   */
  lemma DeletedUserLeavesOrphan() returns (s0: State, acts: seq<Action>, n: nat, u: UserID)
    ensures Initial(s0) && Legal(s0, acts) && n + 2 == |acts| && acts[n] == DeleteUser(u) && acts[n + 1].Step?
    ensures Legal(s0, acts[..n + 1]) && u !in Run(s0, acts[..n + 1]).users
    ensures !HoldsTokenOf(Run(s0, acts[..n + 1]), u)
    ensures u !in Run(s0, acts).users
    ensures HoldsTokenOf(Run(s0, acts), u)
  {
    hide Inv, Enabled, Apply;
    u := W.USER;
    var s := W.Mints();
    var before;
    s0, before :| Initial(s0) && Legal(s0, before) && Run(s0, before) == s;
    n := |before|;
    DeleteEmpties(s, u);
    W.RunAppends(s0, before, DeleteUser(u));
    var s1 := Apply(s, DeleteUser(u));
    ReachableInv(s);
    ActionKeepsInv(s, DeleteUser(u));
    var a := SavesNow(s1, W.REDEEMS, u);
    TT.ActionSparesDeleted(s1, a, u);
    W.RunAppends(s0, before + [DeleteUser(u)], a);
    acts := before + [DeleteUser(u)] + [a];
    assert acts[..n + 1] == before + [DeleteUser(u)];
  }

  lemma DeleteEmpties(s: State, u: UserID)
    requires u in s.users
    ensures Enabled(s, DeleteUser(u)) && u !in Apply(s, DeleteUser(u)).users
    ensures Apply(s, DeleteUser(u)).procs == s.procs
    ensures !HoldsTokenOf(Apply(s, DeleteUser(u)), u)
  {
  }
}
