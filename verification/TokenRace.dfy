/**
  The race for one refresh token: several valid requests present the same
  live token and interleave in any order. The service is deliberately strict
  here, and the outcome is the same under every interleaving.
 */
module TokenRace {
  import opened Wrappers
  import opened Scopes
  import opened Domain
  import opened TokenProtocol
  import opened TokenInvariants
  import RT = RefreshTokenStore
  import RL = RotationLedger
  import TT = TokenTheorems

  /** The contested token as it is stored when the race begins, and its client's record. */
  datatype Race = Race(h: TokenHash, row: RT.TokenRow, client: Client)

  /** A refresh request that would succeed if it were alone. */
  ghost predicate ValidCall(race: Race, tok: TokenRequest) {
    && tok.grantType == REFRESH_TOKEN && tok.refreshToken != "" && HashToken(tok.refreshToken) == race.h
    && tok.clientID != "" && ClientID(tok.clientID) == race.row.client
    && REFRESH_TOKEN in race.client.grantTypes
    && (race.client.secret.Some? ==> race.client.VerifySecret(tok.clientSecret))
    && ParseRefresh(race.row.scope).Ok?
    && Narrow(ParseRefresh(race.row.scope).value, tok.scope).Ok?
  }

  ghost predicate Reads(race: Race, rt: RefreshToken) {
    rt.hash == race.h && rt.family == race.row.family && rt.user == race.row.user
  }

  /** Where a contender may stand. */
  ghost predicate Contends(race: Race, p: Proc) {
    match p
    case Arrived(req) => req.TokenCall? && ValidCall(race, req.tok)
    case RefreshFind(tok, cid) => ValidCall(race, tok) && cid == race.row.client
    case RefreshOwner(tok, cid, rt, _) => Reads(race, rt)
    case RefreshMint(tok, cid, rt, _) => Reads(race, rt)
    case RefreshRotate(tok, cid, rt, next) => Reads(race, rt) && next.family == race.row.family
    case RefreshRevoke(tok, cid, rt) => Reads(race, rt)
    case Finished(_, reply) => true
    case _ => false
  }

  /** The token is unexpired, and its client and owner are as they were. */
  ghost predicate World(s: State, race: Race) {
    && s.clock < race.row.expiresAt && !race.row.consumed && race.row.user in s.users
    && race.row.client in s.clients && s.clients[race.row.client] == race.client
  }

  ghost predicate Lost(p: Proc) {
    p.Finished? && (p.reply == Failed(RefreshReused) || p.reply == Failed(RefreshNotFound))
  }

  // ---- phases ----

  datatype Phase = Open | Won(winner: RequestId) | Closed(winner: RequestId)

  ghost predicate Stored(s: State, race: Race, consumed: bool) {
    race.h in s.tokens.rows && s.tokens.rows[race.h] == race.row.(consumed := consumed)
  }

  /** Where contender r may stand in a phase. */
  ghost predicate InPhase(race: Race, phase: Phase, r: RequestId, p: Proc) {
    && Contends(race, p)
    && (phase.Open? ==> !p.Finished? && !p.RefreshRevoke?)
    && (!phase.Open? && r == phase.winner ==> p.Finished? && p.reply.Granted?)
    && (phase.Won? && r != phase.winner ==> !p.Finished?)
    && (phase.Closed? && r != phase.winner ==> p.Finished? ==> Lost(p))
  }

  ghost predicate TableInPhase(s: State, race: Race, phase: Phase) {
    match phase
    case Open => Stored(s, race, false)
    case Won(_) => Stored(s, race, true)
    case Closed(_) => race.row.family in s.tokens.revoked && race.h !in s.tokens.rows
  }

  ghost predicate Racing(s: State, race: Race, K: set<RequestId>, phase: Phase) {
    && World(s, race) && TableInPhase(s, race, phase)
    && (phase.Open? || phase.winner in K)
    && forall r :: r in K ==> r in s.procs && InPhase(race, phase, r, s.procs[r])
  }

  // ---- steps of a contender ----

  ghost predicate SameTable(s: State, s': State) {
    s'.tokens.rows == s.tokens.rows && s'.tokens.revoked == s.tokens.revoked
  }

  lemma Prepares(s: State, r: RequestId, draw: Draw, race: Race)
    requires Running(s, r) && World(s, race) && Contends(race, s.procs[r])
    requires s.procs[r].Arrived? || s.procs[r].RefreshOwner? || s.procs[r].RefreshMint?
    ensures var s' := StepProc(s, r, s.procs[r], draw);
            && SameTable(s, s') && OnlyMoves(s, s', r) && SameWorld(s, s')
            && Contends(race, s'.procs[r]) && !s'.procs[r].Finished? && !s'.procs[r].RefreshRevoke?
  {
    hide Narrow, ParseRefresh;
  }

  lemma LooksUp(s: State, r: RequestId, draw: Draw, race: Race, phase: Phase)
    requires Running(s, r) && World(s, race) && Contends(race, s.procs[r])
    requires s.procs[r].RefreshFind? && TableInPhase(s, race, phase)
    ensures var s' := StepProc(s, r, s.procs[r], draw);
            && OnlyMoves(s, s', r) && SameWorld(s, s') && Contends(race, s'.procs[r])
            && TableInPhase(s', race, phase)
            && (phase.Open? ==> s'.procs[r].RefreshOwner?)
            && (phase.Won? ==> s'.procs[r].RefreshRevoke?)
            && (phase.Closed? ==> Lost(s'.procs[r]))
  {
    hide Narrow, ParseRefresh;
  }

  /** The atomic rotation decides: the first one wins, the next finds the token consumed, later ones find nothing. */
  lemma Rotates(s: State, r: RequestId, draw: Draw, race: Race, phase: Phase)
    requires Running(s, r) && World(s, race) && Contends(race, s.procs[r])
    requires s.procs[r].RefreshRotate? && TableInPhase(s, race, phase)
    requires s.procs[r].next.hash !in s.tokens.rows
    ensures var s' := StepProc(s, r, s.procs[r], draw);
            && OnlyMoves(s, s', r) && SameWorld(s, s') && Contends(race, s'.procs[r])
            && TableInPhase(s', race, if phase.Open? then Won(r) else phase)
            && (phase.Open? ==> s'.procs[r].Finished? && s'.procs[r].reply.Granted?)
            && (phase.Won? ==> s'.procs[r].RefreshRevoke?)
            && (phase.Closed? ==> Lost(s'.procs[r]))
  {
  }

  lemma Revokes(s: State, r: RequestId, draw: Draw, race: Race, phase: Phase)
    requires Running(s, r) && Contends(race, s.procs[r]) && s.procs[r].RefreshRevoke?
    requires TableInPhase(s, race, phase) && !phase.Open?
    ensures var s' := StepProc(s, r, s.procs[r], draw);
            && OnlyMoves(s, s', r) && SameWorld(s, s') && Contends(race, s'.procs[r])
            && TableInPhase(s', race, Closed(phase.winner)) && Lost(s'.procs[r])
  {
  }

  function NextPhase(phase: Phase, r: RequestId, p: Proc): Phase {
    if p.RefreshRotate? && phase.Open? then Won(r)
    else if p.RefreshRevoke? && phase.Won? then Closed(phase.winner)
    else phase
  }

  lemma PendingFacts(s: State, r: RequestId)
    requires Running(s, r)
    requires Inv(s)
    ensures s.procs[r].RefreshRotate? ==> s.procs[r].next.hash !in s.tokens.rows
  {
    hide RL.Inv, CodeLedgerInv, IssuedLawfully, ProcInv, MakersInv, FamiliesInv;
    assert ProcInv(s, r, s.procs[r]);
    PendingIsUnstored(s, r);
    RL.RowsHaveLinks(s.tokens, s.clock);
  }

  lemma ContenderKeepsRacing(s: State, r: RequestId, draw: Draw, race: Race, K: set<RequestId>, phase: Phase)
    requires Running(s, r) && r in K && Racing(s, race, K, phase)
    requires Inv(s)
    ensures Racing(StepProc(s, r, s.procs[r], draw), race, K, NextPhase(phase, r, s.procs[r]))
  {
    hide Inv, RL.Inv, StepProc, ValidCall, Reads;
    PendingFacts(s, r);
    var p := s.procs[r];
    match p {
      case RefreshFind(_, _) => LooksUp(s, r, draw, race, phase);
      case RefreshRotate(_, _, _, _) => Rotates(s, r, draw, race, phase);
      case RefreshRevoke(_, _, _) => Revokes(s, r, draw, race, phase);
      case _ => Prepares(s, r, draw, race);
    }
  }

  // ---- everybody else ----

  /** Other actions leave the contested row, its client and its owner alone, and the clock short of its expiry. */
  ghost predicate Spares(s: State, s': State, race: Race) {
    && World(s', race)
    && (race.h in s.tokens.rows <==> race.h in s'.tokens.rows)
    && (race.h in s.tokens.rows ==> s'.tokens.rows[race.h] == s.tokens.rows[race.h])
  }

  /** Contenders only run, and nobody else touches what they race for. */
  ghost predicate Undisturbed(s: State, acts: seq<Action>, race: Race, K: set<RequestId>)
    requires Legal(s, acts)
    decreases |acts|
  {
    acts != [] ==>
      && !(acts[0].Fail? && acts[0].r in K)
      && ((acts[0].Step? && acts[0].r in K) || Spares(s, Apply(s, acts[0]), race))
      && Undisturbed(Apply(s, acts[0]), acts[1..], race, K)
  }

  /** An action not of K leaves K's programs where they are, and revoked families revoked. */
  lemma OthersLeaveContenders(s: State, a: Action, K: set<RequestId>, f: FamilyID)
    requires Enabled(s, a) && K <= s.procs.Keys && !((a.Step? || a.Fail?) && a.r in K)
    requires Inv(s)
    ensures forall r :: r in K ==> r in Apply(s, a).procs && Apply(s, a).procs[r] == s.procs[r]
    ensures f in s.tokens.revoked ==> f in Apply(s, a).tokens.revoked
  {
    hide Inv, StepProc;
    TT.ActionSparesRevoked(s, a, f);
    if a.Step? { TT.StepMovesOnly(s, a.r, a.draw); }
  }

  lemma OthersKeepRacing(s: State, a: Action, race: Race, K: set<RequestId>, phase: Phase)
    requires Enabled(s, a) && !((a.Step? || a.Fail?) && a.r in K)
    requires Racing(s, race, K, phase) && Spares(s, Apply(s, a), race)
    requires Inv(s)
    ensures Racing(Apply(s, a), race, K, phase)
  {
    hide Inv, Apply, Contends, World;
    OthersLeaveContenders(s, a, K, race.row.family);
  }

  // ---- the whole race ----

  lemma {:induction false} RaceRuns(s: State, acts: seq<Action>, race: Race, K: set<RequestId>, phase: Phase)
    returns (phase': Phase)
    requires Legal(s, acts) && Undisturbed(s, acts, race, K) && Racing(s, race, K, phase)
    requires Inv(s)
    ensures Racing(Run(s, acts), race, K, phase') && Inv(Run(s, acts))
    decreases |acts|
  {
    hide Inv, Apply, Racing, Spares;
    phase' := phase;
    if acts != [] {
      var a := acts[0];
      ActionKeepsInv(s, a);
      if a.Step? && a.r in K {
        phase' := NextPhase(phase, a.r, s.procs[a.r]);
        StepIsApply(s, a);
        ContenderKeepsRacing(s, a.r, a.draw, race, K, phase);
      } else {
        OthersKeepRacing(s, a, race, K, phase);
      }
      phase' := RaceRuns(Apply(s, a), acts[1..], race, K, phase');
    }
  }

  lemma StepIsApply(s: State, a: Action)
    requires Enabled(s, a) && a.Step?
    ensures Apply(s, a) == StepProc(s, a.r, s.procs[a.r], a.draw)
  {
    hide StepProc;
  }

  /** Two or more valid requests for the same live token, none of which has begun. */
  ghost predicate StartingLine(s: State, race: Race, K: set<RequestId>) {
    && |K| >= 2 && World(s, race) && Stored(s, race, false)
    && forall r :: r in K ==> r in s.procs && s.procs[r].Arrived? && Contends(race, s.procs[r])
  }

  /** acts lead from s to s', nobody disturbs the race, and every contender has finished. */
  ghost predicate RaceRun(s: State, acts: seq<Action>, race: Race, K: set<RequestId>, s': State) {
    && Legal(s, acts) && Undisturbed(s, acts, race, K) && Run(s, acts) == s'
    && forall r :: r in K ==> Done(s', r)
  }

  /**
    Race outcome: once every contender has finished, exactly one of them was
    granted tokens, all others were refused, and the family has no row left,
    the winner's new token included.
   */
  lemma RaceOutcome(s: State, acts: seq<Action>, race: Race, K: set<RequestId>, s': State) returns (winner: RequestId)
    requires Reachable(s) && StartingLine(s, race, K)
    requires RaceRun(s, acts, race, K, s')
    ensures winner in K && Done(s', winner) && s'.procs[winner].reply.Granted?
    ensures forall r :: r in K && r != winner ==> Done(s', r) && Lost(s'.procs[r])
    ensures TT.NoRowOf(s', race.row.family)
  {
    hide Apply, Contends, World, RL.Inv, MakersInv, FamiliesInv, ProcsInv, IssuedLawfully, CodeLedgerInv;
    ReachableInv(s);
    var phase := RaceRuns(s, acts, race, K, Open);
    var a, b := TwoOf(K);
    assert InPhase(race, phase, a, s'.procs[a]) && InPhase(race, phase, b, s'.procs[b]);
    assert Done(s', a) && Done(s', b);
    winner := phase.winner;
    TT.RevokedMeansFounded(s'.tokens, race.row.family, s'.clock);
  }

  lemma TwoOf(K: set<RequestId>) returns (a: RequestId, b: RequestId)
    requires |K| >= 2
    ensures a in K && b in K && a != b
  {
    a :| a in K;
    assert |K - {a}| >= 1;
    b :| b in K - {a};
  }
}
