/**
  Deleting expired rows is housekeeping nobody can observe. Here the deletion
  of expired rows is cut loose from the actions that do it in the program
  (lookups and the two purges) and becomes a free choice after every action;
  whatever is chosen, and whenever the purges run, every request gets the same
  answer. The single exception is a code consumed on its exact expiry tick.
 */
module Eviction {
  import opened Wrappers
  import opened Scopes
  import opened Domain
  import opened Authorize
  import opened TokenProtocol
  import opened TokenInvariants
  import RT = RefreshTokenStore
  import AC = AuthCodeStore
  import RL = RotationLedger
  import TT = TokenTheorems

  // ---- the protocol with free eviction ----

  /** An action, and the expired rows that happen to be deleted right after it. */
  datatype Move = Move(action: Action, hashes: set<TokenHash>, codes: set<Code>)

  predicate IsPurge(a: Action) { a.PurgeTokens? || a.PurgeCodes? }

  /** A program counter whose step may delete an expired row it came across. */
  predicate LooksUp(p: Proc) {
    p.RefreshFind? || p.CodeFind? || (p.Arrived? && p.req.RevokeCall?)
  }

  predicate Evicts(s: State, a: Action)
    requires Enabled(s, a)
  {
    IsPurge(a) || (a.Step? && LooksUp(s.procs[a.r]))
  }

  /** The action without the deletion of expired rows it may do in passing. */
  function Keeping(s: State, a: Action): State
    requires Enabled(s, a)
  {
    var s' := Apply(s, a);
    if !Evicts(s, a) then s'
    else s'.(tokens := s'.tokens.(rows := s.tokens.rows), codes := s'.codes.(rows := s.codes.rows))
  }

  function DropExpired(s: State, hashes: set<TokenHash>, codes: set<Code>): State {
    s.(tokens := s.tokens.(rows := map h | h in s.tokens.rows
                                          && (h !in hashes || RT.Visible(s.tokens.rows[h], s.clock)) :: s.tokens.rows[h]),
       codes := s.codes.(rows := map x | x in s.codes.rows
                                        && (x !in codes || s.codes.rows[x].expiresAt > s.clock) :: s.codes.rows[x]))
  }

  function Perform(s: State, m: Move): State
    requires Enabled(s, m.action)
  {
    DropExpired(Keeping(s, m.action), m.hashes, m.codes)
  }

  ghost predicate Playable(s: State, moves: seq<Move>)
    decreases |moves|
  {
    moves != [] ==> Enabled(s, moves[0].action) && Playable(Perform(s, moves[0]), moves[1..])
  }

  ghost function Play(s: State, moves: seq<Move>): State
    requires Playable(s, moves)
    decreases |moves|
  {
    if moves == [] then s else Play(Perform(s, moves[0]), moves[1..])
  }

  /** The actions other than purges. */
  function StripPurges(acts: seq<Action>): seq<Action> {
    if acts == [] then [] else (if IsPurge(acts[0]) then [] else [acts[0]]) + StripPurges(acts[1..])
  }

  /** What is left of a schedule when purges and choices of eviction are struck out. */
  function Core(moves: seq<Move>): seq<Action> {
    if moves == [] then []
    else (if IsPurge(moves[0].action) then [] else [moves[0].action]) + Core(moves[1..])
  }

  // ---- observational equality ----

  /** Finished alike: the same reply, or two errors that are reported identically. */
  ghost predicate SameAnswer(p: Proc, q: Proc) {
    || p == q
    || (&& p.Finished? && q.Finished? && p.req == q.req && p.reply.Failed? && q.reply.Failed?
        && TokenErrorCode(p.reply.error) == TokenErrorCode(q.reply.error))
  }

  ghost predicate SameVisibleTokens(a: RT.Rows, b: RT.Rows, now: Time) {
    forall h :: (RT.Live(a, h, now) <==> RT.Live(b, h, now)) && (RT.Live(a, h, now) ==> a[h] == b[h])
  }

  ghost predicate SameVisibleCodes(a: AC.Rows, b: AC.Rows, now: Time) {
    forall x :: (AC.Active(a, x, now) <==> AC.Active(b, x, now)) && (AC.Active(a, x, now) ==> a[x] == b[x])
  }

  ghost predicate SameProcs(s: State, t: State) {
    && s.procs.Keys == t.procs.Keys
    && forall r :: r in s.procs ==> SameAnswer(s.procs[r], t.procs[r])
  }

  /** Everything but expired rows. */
  ghost predicate Alike(s: State, t: State) {
    && SameWorld(s, t) && SameProcs(s, t)
    && t.tokens == s.tokens.(rows := t.tokens.rows) && SameVisibleTokens(s.tokens.rows, t.tokens.rows, s.clock)
    && t.codes == s.codes.(rows := t.codes.rows) && SameVisibleCodes(s.codes.rows, t.codes.rows, s.clock)
  }

  // ---- the exact tick ----

  /** The action consumes a code on the very tick it expires. */
  ghost predicate ConsumesOnTick(s: State, a: Action)
    requires Enabled(s, a)
  {
    && a.Step? && s.procs[a.r].CodeConsume?
    && s.procs[a.r].ac.code in s.codes.issued
    && s.codes.issued[s.procs[a.r].ac.code].row.expiresAt == s.clock
  }

  ghost predicate NeverConsumesOnTick(s: State, moves: seq<Move>)
    requires Playable(s, moves)
    decreases |moves|
  {
    moves != [] ==>
      !ConsumesOnTick(s, moves[0].action) && NeverConsumesOnTick(Perform(s, moves[0]), moves[1..])
  }

  /** The same for a run of the program itself. */
  ghost predicate OffTick(s: State, acts: seq<Action>)
    requires Legal(s, acts)
    decreases |acts|
  {
    acts != [] ==> !ConsumesOnTick(s, acts[0]) && OffTick(Apply(s, acts[0]), acts[1..])
  }

  /**
    Purging first changes the success of a Consume exactly when the code is
    still stored and the clock stands at its expiry: the SQL predicate calls
    it expired then, the comparison in Go does not yet.
   */
  lemma PurgeMattersExactlyOnTick(rows: AC.Rows, x: Code, now: Time)
    ensures (AC.Consume(rows, x, now).1.Ok? != AC.Consume(AC.PurgeExpired(rows, now), x, now).1.Ok?)
            <==> x in rows && rows[x].expiresAt == now
  {
  }

  // ---- eviction keeps the invariant ----

  lemma ProcInvIgnoresRows(s: State, t: State, r: RequestId, p: Proc)
    requires ProcInv(s, r, p) && !p.RefreshMint? && !p.RefreshRotate?
    requires s.consented == t.consented && s.clock == t.clock
    requires t.tokens == s.tokens.(rows := t.tokens.rows) && t.codes == s.codes.(rows := t.codes.rows)
    ensures ProcInv(t, r, p)
  {
    hide OwnerPresent, RotateReady, Canonical, ValueSet;
  }

  /** What a lookup does to the state, apart from the row it may evict. */
  lemma LookupOutcome(s: State, r: RequestId, draw: Draw)
    requires Running(s, r) && LooksUp(s.procs[r])
    ensures var s' := StepProc(s, r, s.procs[r], draw);
            && NoInsert(s, s', r) && r in s'.procs && !s'.procs[r].RefreshMint? && !s'.procs[r].RefreshRotate?
            && s'.tokens == s.tokens.(rows := s'.tokens.rows) && s'.codes == s.codes.(rows := s'.codes.rows)
  {
    hide NoInsert, RT.FindByTokenHash, AC.FindByCode, StepRefreshFind, StepRevokeFind, StepCodeFind;
    match s.procs[r] {
      case RefreshFind(_, _) => TokenLookupOutcome(s, r);
      case CodeFind(_, _, _) => CodeLookupOutcome(s, r);
      case Arrived(_) => RevokeLookupOutcome(s, r);
    }
  }

  lemma TokenLookupOutcome(s: State, r: RequestId)
    requires Running(s, r) && s.procs[r].RefreshFind?
    ensures var s' := StepRefreshFind(s, r, s.procs[r]);
            && NoInsert(s, s', r) && r in s'.procs && !s'.procs[r].RefreshMint? && !s'.procs[r].RefreshRotate?
            && s'.tokens == s.tokens.(rows := s'.tokens.rows) && s'.codes == s.codes
  {
    hide NoInsert, RT.FindByTokenHash, Narrow;
  }

  lemma CodeLookupOutcome(s: State, r: RequestId)
    requires Running(s, r) && s.procs[r].CodeFind?
    ensures var s' := StepCodeFind(s, r, s.procs[r]);
            && NoInsert(s, s', r) && r in s'.procs && !s'.procs[r].RefreshMint? && !s'.procs[r].RefreshRotate?
            && s'.tokens == s.tokens && s'.codes == s.codes.(rows := s'.codes.rows)
  {
    hide NoInsert, AC.FindByCode;
  }

  lemma RevokeLookupOutcome(s: State, r: RequestId)
    requires Running(s, r) && s.procs[r].Arrived? && s.procs[r].req.RevokeCall?
    ensures var s' := StepRevokeFind(s, r, s.procs[r], s.procs[r].req.rev);
            && NoInsert(s, s', r) && r in s'.procs && !s'.procs[r].RefreshMint? && !s'.procs[r].RefreshRotate?
            && s'.tokens == s.tokens.(rows := s'.tokens.rows) && s'.codes == s.codes
  {
    hide StepRevokeFind, NoInsert;
  }

  lemma CodesGrowReflexive(c: CodeLedger)
    ensures CodesGrow(c, c)
  {
  }

  lemma KeepingLookupKeepsInv(s: State, a: Action)
    requires Enabled(s, a) && a.Step? && LooksUp(s.procs[a.r])
    requires Inv(s)
    ensures Inv(Keeping(s, a))
  {
    hide RL.Inv, CodeLedgerInv, IssuedLawfully, MakersInv, FamiliesInv, ProcInv, GrantMatches, NoInsert, StepProc;
    hide TokensGrow, CodesGrow, Inv;
    var r := a.r;
    var s1, s2 := Apply(s, a), Keeping(s, a);
    ActionKeepsInv(s, a);
    LookupOutcome(s, r, a.draw);
    NoInsertKeepsWorld(s, s1, r);
    assert ProcInv(s1, r, s1.procs[r]) && GrantMatches(s1.procs[r]) by { ProcsOf(s1, r); }
    ProcInvIgnoresRows(s1, s2, r, s1.procs[r]);
    assert s2.tokens == s.tokens && s2.codes == s.codes;
    TokensGrowReflexive(s.tokens);
    CodesGrowReflexive(s.codes);
    TT.LedgersOf(s);
    assert NoInsert(s, s2, r) by { NoInsertWithRows(s, s1, s2, r); }
    StepWithoutInsert(s, s2, r);
  }

  lemma ProcsOf(s: State, r: RequestId)
    requires Inv(s) && r in s.procs
    ensures ProcInv(s, r, s.procs[r]) && GrantMatches(s.procs[r])
  {
    hide RL.Inv, CodeLedgerInv, IssuedLawfully, MakersInv, FamiliesInv, ProcInv, GrantMatches;
  }

  lemma NoInsertWithRows(s: State, s1: State, s2: State, r: RequestId)
    requires NoInsert(s, s1, r)
    requires s2 == s1.(tokens := s1.tokens.(rows := s.tokens.rows), codes := s1.codes.(rows := s.codes.rows))
    ensures NoInsert(s, s2, r)
  {
  }

  lemma DropKeepsInv(s: State, hashes: set<TokenHash>, codes: set<Code>)
    requires Inv(s)
    ensures Inv(DropExpired(s, hashes, codes))
  {
    hide RL.Inv, CodeLedgerInv, IssuedLawfully, MakersInv, FamiliesInv, ProcsInv, Inv;
    var s' := DropExpired(s, hashes, codes);
    TT.LedgersOf(s);
    assert RL.Inv(s'.tokens, s.clock) by { DropKeepsLedger(s.tokens, s'.tokens, s.clock); }
    assert s'.consents <= s'.consented by { ConsentsOf(s); }
    EnvironmentKeepsInv(s, s');
  }

  lemma ConsentsOf(s: State)
    requires Inv(s)
    ensures s.consents <= s.consented
  {
    hide RL.Inv, CodeLedgerInv, IssuedLawfully, MakersInv, FamiliesInv, ProcsInv;
  }

  lemma DropKeepsLedger(l: TokenLedger, l': TokenLedger, now: Time)
    requires RL.Inv(l, now) && l' == l.(rows := l'.rows)
    requires forall h :: h in l'.rows ==> h in l.rows && l'.rows[h] == l.rows[h]
    requires forall h :: h in l.rows && h !in l'.rows ==> l.rows[h].expiresAt <= now
    ensures RL.Inv(l', now)
  {
    hide RL.Inv;
    RL.PruningKeepsInv(l, l'.rows, now);
  }

  lemma MoveKeepsInv(s: State, m: Move)
    requires Enabled(s, m.action)
    requires Inv(s)
    ensures Inv(Perform(s, m))
  {
    hide Inv, StepProc;
    if m.action.Step? && LooksUp(s.procs[m.action.r]) {
      KeepingLookupKeepsInv(s, m.action);
    } else if IsPurge(m.action) {
      assert Keeping(s, m.action) == s;
    } else {
      ActionKeepsInv(s, m.action);
    }
    DropKeepsInv(Keeping(s, m.action), m.hashes, m.codes);
  }

  // ---- the simulation ----

  lemma DropIsAlike(s: State, t: State, hashes: set<TokenHash>, codes: set<Code>)
    requires Alike(s, t)
    ensures Alike(DropExpired(s, hashes, codes), t)
  {
    hide SameProcs, SameVisibleTokens, SameVisibleCodes;
    var s' := DropExpired(s, hashes, codes);
    ProcsOnly(s, t, s', t);
    assert SameVisibleTokens(s'.tokens.rows, t.tokens.rows, s.clock) by { DropTokensAlike(s, t, hashes, codes); }
    assert SameVisibleCodes(s'.codes.rows, t.codes.rows, s.clock) by { DropCodesAlike(s, t, hashes, codes); }
  }

  lemma DropTokensAlike(s: State, t: State, hashes: set<TokenHash>, codes: set<Code>)
    requires SameVisibleTokens(s.tokens.rows, t.tokens.rows, s.clock)
    ensures SameVisibleTokens(DropExpired(s, hashes, codes).tokens.rows, t.tokens.rows, s.clock)
  {
  }

  lemma DropCodesAlike(s: State, t: State, hashes: set<TokenHash>, codes: set<Code>)
    requires SameVisibleCodes(s.codes.rows, t.codes.rows, s.clock)
    ensures SameVisibleCodes(DropExpired(s, hashes, codes).codes.rows, t.codes.rows, s.clock)
  {
  }

  lemma AlikeIsSymmetric(s: State, t: State)
    requires Alike(s, t)
    ensures Alike(t, s)
  {
    hide SameVisibleTokens, SameVisibleCodes;
    assert SameVisibleTokens(t.tokens.rows, s.tokens.rows, t.clock) by { TokensSymmetric(s.tokens.rows, t.tokens.rows, s.clock); }
    assert SameVisibleCodes(t.codes.rows, s.codes.rows, t.clock) by { CodesSymmetric(s.codes.rows, t.codes.rows, s.clock); }
  }

  lemma TokensSymmetric(a: RT.Rows, b: RT.Rows, now: Time)
    requires SameVisibleTokens(a, b, now)
    ensures SameVisibleTokens(b, a, now)
  {
  }

  lemma CodesSymmetric(a: AC.Rows, b: AC.Rows, now: Time)
    requires SameVisibleCodes(a, b, now)
    ensures SameVisibleCodes(b, a, now)
  {
  }

  lemma ProcsOnly(s: State, t: State, s': State, t': State)
    requires SameProcs(s, t) && s'.procs == s.procs && t'.procs == t.procs
    ensures SameProcs(s', t')
  {
  }

  lemma EnabledAlike(s: State, t: State, a: Action)
    requires Alike(s, t) && Enabled(s, a)
    ensures Enabled(t, a) && Evicts(t, a) == Evicts(s, a)
    ensures a.Step? || a.Fail? ==> t.procs[a.r] == s.procs[a.r]
  {
    if a.Step? || a.Fail? { assert SameAnswer(s.procs[a.r], t.procs[a.r]); }
  }

  /** A step that answers both states alike leaves the programs alike. */
  lemma MoveAlike(s: State, t: State, s': State, t': State, r: RequestId)
    requires SameProcs(s, t) && OnlyMoves(s, s', r) && OnlyMoves(t, t', r)
    requires SameAnswer(s'.procs[r], t'.procs[r])
    ensures SameProcs(s', t')
  {
    forall q | q in s'.procs ensures SameAnswer(s'.procs[q], t'.procs[q]) {
      assert q != r ==> SameAnswer(s.procs[q], t.procs[q]);
    }
  }

  ghost predicate SameLedgers(s: State, t: State) {
    && t.tokens == s.tokens.(rows := t.tokens.rows) && SameVisibleTokens(s.tokens.rows, t.tokens.rows, s.clock)
    && t.codes == s.codes.(rows := t.codes.rows) && SameVisibleCodes(s.codes.rows, t.codes.rows, s.clock)
  }

  /** The two ledgers stay alike and r moves to like places. */
  ghost predicate StepsAlike(s': State, t': State, r: RequestId) {
    && s'.clock == t'.clock && r in s'.procs && r in t'.procs
    && SameAnswer(s'.procs[r], t'.procs[r]) && SameLedgers(s', t')
  }

  lemma StepIsAlike(s: State, t: State, s': State, t': State, r: RequestId)
    requires OnlyMoves(s, s', r) && OnlyMoves(t, t', r) && SameWorld(s, s') && SameWorld(t, t')
    requires StepsAlike(s', t', r)
    requires Alike(s, t)
    ensures Alike(s', t')
  {
    hide OnlyMoves, SameAnswer, SameProcs, SameVisibleTokens, SameVisibleCodes;
    MoveAlike(s, t, s', t', r);
  }

  // lookups, which see visible rows only

  lemma LookupAlike(s: State, t: State, a: Action)
    requires Enabled(s, a) && Enabled(t, a) && a.Step? && s.procs[a.r] == t.procs[a.r] && LooksUp(s.procs[a.r])
    requires Alike(s, t)
    ensures Alike(Keeping(s, a), Keeping(t, a))
  {
    hide SameProcs, NoInsert, StepProc, OnlyMoves, SameWorld, SameVisibleTokens, SameVisibleCodes, StepsAlike;
    var s', t' := Keeping(s, a), Keeping(t, a);
    LookupsMove(s, a);
    LookupsMove(t, a);
    assert StepsAlike(s', t', a.r) by { LookupsAnswerAlike(s, t, a); }
    StepIsAlike(s, t, s', t', a.r);
  }

  lemma LookupsMove(s: State, a: Action)
    requires Enabled(s, a) && a.Step? && LooksUp(s.procs[a.r])
    ensures OnlyMoves(s, Keeping(s, a), a.r) && SameWorld(s, Keeping(s, a))
    ensures Keeping(s, a).tokens == s.tokens && Keeping(s, a).codes == s.codes
    ensures Keeping(s, a).procs == Apply(s, a).procs
  {
    hide StepProc;
    LookupOutcome(s, a.r, a.draw);
  }

  lemma LookupsAnswerAlike(s: State, t: State, a: Action)
    requires Enabled(s, a) && Enabled(t, a) && a.Step? && s.procs[a.r] == t.procs[a.r] && LooksUp(s.procs[a.r])
    requires Alike(s, t)
    ensures StepsAlike(Keeping(s, a), Keeping(t, a), a.r)
  {
    hide Keeping, StepProc, NoInsert, SameProcs, SameVisibleTokens, SameVisibleCodes, OnlyMoves, SameAnswer;
    var s', t' := Keeping(s, a), Keeping(t, a);
    LookupsMove(s, a);
    LookupsMove(t, a);
    assert a.r in s'.procs && a.r in t'.procs && s'.procs[a.r] == t'.procs[a.r] by { LookupsFindTheSame(s, t, a); }
    assert SameAnswer(s'.procs[a.r], t'.procs[a.r]) by { AnswersItself(s'.procs[a.r]); }
  }

  lemma AnswersItself(p: Proc)
    ensures SameAnswer(p, p)
  {
  }

  lemma LookupsFindTheSame(s: State, t: State, a: Action)
    requires Enabled(s, a) && Enabled(t, a) && a.Step? && s.procs[a.r] == t.procs[a.r] && LooksUp(s.procs[a.r])
    requires s.clock == t.clock && SameVisibleTokens(s.tokens.rows, t.tokens.rows, s.clock)
    requires SameVisibleCodes(s.codes.rows, t.codes.rows, s.clock)
    ensures a.r in Keeping(s, a).procs && a.r in Keeping(t, a).procs
    ensures Keeping(s, a).procs[a.r] == Keeping(t, a).procs[a.r]
  {
    hide NoInsert, RT.FindByTokenHash, AC.FindByCode, SameVisibleTokens, SameVisibleCodes, Narrow;
    hide StepRefreshFind, StepRevokeFind, StepCodeFind;
    var p := s.procs[a.r];
    match p {
      case RefreshFind(_, _) => TokenLookupsAgree(s, t, a.r);
      case CodeFind(_, _, _) => CodeLookupsAgree(s, t, a.r);
      case Arrived(_) => RevokeLookupsAgree(s, t, a.r);
    }
  }

  lemma FindsAgree(a: RT.Rows, b: RT.Rows, h: TokenHash, now: Time)
    requires SameVisibleTokens(a, b, now)
    ensures RT.FindByTokenHash(a, h, now).1 == RT.FindByTokenHash(b, h, now).1
  {
    hide RT.Reconstruct;
  }

  lemma CodeFindsAgree(a: AC.Rows, b: AC.Rows, x: Code, now: Time)
    requires SameVisibleCodes(a, b, now)
    ensures AC.FindByCode(a, x, now).1 == AC.FindByCode(b, x, now).1
  {
    hide AC.Reconstruct;
  }

  lemma RefreshFoundAgrees(s: State, t: State, r: RequestId, p: Proc, rt: RefreshToken)
    requires p.RefreshFind?
    ensures var s', t' := RefreshFound(s, r, p, rt), RefreshFound(t, r, p, rt);
            r in s'.procs && r in t'.procs && s'.procs[r] == t'.procs[r]
  {
    hide NoInsert, Narrow;
  }

  lemma TokenLookupsAgree(s: State, t: State, r: RequestId)
    requires Running(s, r) && Running(t, r) && s.procs[r] == t.procs[r] && s.procs[r].RefreshFind?
    requires s.clock == t.clock && SameVisibleTokens(s.tokens.rows, t.tokens.rows, s.clock)
    ensures var s', t' := StepRefreshFind(s, r, s.procs[r]), StepRefreshFind(t, r, t.procs[r]);
            r in s'.procs && r in t'.procs && s'.procs[r] == t'.procs[r]
  {
    hide NoInsert, RT.FindByTokenHash, SameVisibleTokens, RefreshFound;
    var p := s.procs[r];
    var h := HashToken(p.tok.refreshToken);
    FindsAgree(s.tokens.rows, t.tokens.rows, h, s.clock);
    var (rowsS, found) := RT.FindByTokenHash(s.tokens.rows, h, s.clock);
    var rowsT := RT.FindByTokenHash(t.tokens.rows, h, t.clock).0;
    if found.Ok? {
      RefreshFoundAgrees(s.(tokens := s.tokens.(rows := rowsS)), t.(tokens := t.tokens.(rows := rowsT)), r, p, found.value);
    }
  }

  lemma CodeLookupsAgree(s: State, t: State, r: RequestId)
    requires Running(s, r) && Running(t, r) && s.procs[r] == t.procs[r] && s.procs[r].CodeFind?
    requires s.clock == t.clock && SameVisibleCodes(s.codes.rows, t.codes.rows, s.clock)
    ensures var s', t' := StepCodeFind(s, r, s.procs[r]), StepCodeFind(t, r, t.procs[r]);
            r in s'.procs && r in t'.procs && s'.procs[r] == t'.procs[r]
  {
    hide NoInsert, AC.FindByCode, SameVisibleCodes;
    CodeFindsAgree(s.codes.rows, t.codes.rows, Code(s.procs[r].tok.code), s.clock);
  }

  lemma RevokeLookupsAgree(s: State, t: State, r: RequestId)
    requires Running(s, r) && Running(t, r) && s.procs[r] == t.procs[r]
    requires s.procs[r].Arrived? && s.procs[r].req.RevokeCall?
    requires s.clock == t.clock && SameVisibleTokens(s.tokens.rows, t.tokens.rows, s.clock)
    ensures var s' := StepRevokeFind(s, r, s.procs[r], s.procs[r].req.rev);
            var t' := StepRevokeFind(t, r, t.procs[r], t.procs[r].req.rev);
            r in s'.procs && r in t'.procs && s'.procs[r] == t'.procs[r]
  {
    hide NoInsert, RT.FindByTokenHash, SameVisibleTokens;
    FindsAgree(s.tokens.rows, t.tokens.rows, HashToken(s.procs[r].req.rev.token), s.clock);
  }

  // steps that only read the world around the tables

  /** Program counters whose step neither reads nor writes rows, except to delete a whole family. */
  predicate IsPlain(p: Proc) {
    !LooksUp(p) && !p.RefreshRotate? && !p.CodeSave? && !p.AuthorizeSave? && !p.CodeConsume? && !p.Finished?
  }

  lemma PlainAnswersAlike(s: State, t: State, r: RequestId, draw: Draw)
    requires Running(s, r) && Running(t, r) && s.procs[r] == t.procs[r] && IsPlain(s.procs[r]) && SameWorld(s, t)
    ensures var s', t' := StepProc(s, r, s.procs[r], draw), StepProc(t, r, t.procs[r], draw);
            r in s'.procs && r in t'.procs && s'.procs[r] == t'.procs[r]
  {
    hide Narrow, ResolveClient, NormalizeScope, Verify, MayRevoke, NoInsert, Validate, ParseAuth, ParseRefresh;
  }

  lemma ReaderLeavesLedgers(s: State, r: RequestId, draw: Draw)
    requires Running(s, r) && IsPlain(s.procs[r])
    requires var p := s.procs[r]; p.Arrived? || p.RefreshOwner? || p.CodeVerify? || p.CodeOwner? || p.RevokeClient?
    ensures var s' := StepProc(s, r, s.procs[r], draw); s'.tokens == s.tokens && s'.codes == s.codes
  {
    hide ResolveClient, NormalizeScope, Verify, MayRevoke, NoInsert;
  }

  lemma RefreshMintsAlike(s: State, t: State, r: RequestId, draw: Draw)
    requires Running(s, r) && Running(t, r) && s.procs[r] == t.procs[r] && s.procs[r].RefreshMint?
    requires SameWorld(s, t) && SameLedgers(s, t)
    ensures SameLedgers(StepRefreshMint(s, r, s.procs[r], draw), StepRefreshMint(t, r, t.procs[r], draw))
  {
    hide NoInsert, SameVisibleTokens, SameVisibleCodes;
  }

  lemma CodeMintLedgers(s: State, r: RequestId, draw: Draw)
    requires Running(s, r) && s.procs[r].CodeMint?
    ensures var s' := StepCodeMint(s, r, s.procs[r], draw);
            && s'.codes == s.codes && s'.clock == s.clock
            && s'.tokens == if DrawsRefresh(s.procs[r])
                            then s.tokens.(makers := s.tokens.makers[draw.hash := r],
                                           founders := s.tokens.founders[draw.family := r])
                            else s.tokens
  {
    hide NoInsert, ParseRefresh;
  }

  lemma CodeMintsAlike(s: State, t: State, r: RequestId, draw: Draw)
    requires Running(s, r) && Running(t, r) && s.procs[r] == t.procs[r] && s.procs[r].CodeMint?
    requires SameWorld(s, t) && SameLedgers(s, t)
    ensures SameLedgers(StepCodeMint(s, r, s.procs[r], draw), StepCodeMint(t, r, t.procs[r], draw))
  {
    hide StepCodeMint, DrawsRefresh, SameVisibleTokens, SameVisibleCodes;
    CodeMintLedgers(s, r, draw);
    CodeMintLedgers(t, r, draw);
  }

  lemma IssuesAlike(s: State, t: State, r: RequestId, draw: Draw)
    requires Running(s, r) && Running(t, r) && s.procs[r] == t.procs[r] && s.procs[r].AuthorizeIssue?
    requires SameWorld(s, t) && SameLedgers(s, t)
    ensures SameLedgers(StepAuthorizeIssue(s, r, s.procs[r], draw), StepAuthorizeIssue(t, r, t.procs[r], draw))
  {
    hide NoInsert, Validate, ParseAuth, SameVisibleTokens, SameVisibleCodes;
  }

  lemma PlainLedgersAlike(s: State, t: State, r: RequestId, draw: Draw)
    requires Running(s, r) && Running(t, r) && s.procs[r] == t.procs[r] && IsPlain(s.procs[r])
    requires SameWorld(s, t) && SameLedgers(s, t)
    ensures SameLedgers(StepProc(s, r, s.procs[r], draw), StepProc(t, r, t.procs[r], draw))
  {
    hide SameVisibleTokens, SameVisibleCodes, NoInsert, StepRefreshMint, StepCodeMint, StepAuthorizeIssue;
    var p := s.procs[r];
    if p.RefreshRevoke? || p.RevokeDelete? {
      RevocationsAlike(s.tokens.rows, t.tokens.rows, p.rt.family, s.clock);
    } else if p.RefreshMint? {
      RefreshMintsAlike(s, t, r, draw);
    } else if p.CodeMint? {
      CodeMintsAlike(s, t, r, draw);
    } else if p.AuthorizeIssue? {
      IssuesAlike(s, t, r, draw);
    } else {
      hide StepProc;
      ReaderLeavesLedgers(s, r, draw);
      ReaderLeavesLedgers(t, r, draw);
      assert StepProc(s, r, p, draw).clock == s.clock by { TT.StepMovesOnly(s, r, draw); }
    }
  }

  lemma RevocationsAlike(a: RT.Rows, b: RT.Rows, f: FamilyID, now: Time)
    requires SameVisibleTokens(a, b, now)
    ensures SameVisibleTokens(RT.RevokeFamily(a, f), RT.RevokeFamily(b, f), now)
  {
  }

  // steps that write rows

  lemma UnstoredIn(s: State, r: RequestId)
    requires Running(s, r)
    requires Inv(s)
    ensures var p := s.procs[r];
            && (p.RefreshRotate? ==> p.next.hash !in s.tokens.rows)
            && (p.CodeSave? ==> p.rt.hash !in s.tokens.rows)
            && (p.AuthorizeSave? ==> p.ac.code !in s.codes.rows)
            && (p.CodeConsume? && p.ac.code in s.codes.rows ==>
                  p.ac.code in s.codes.issued && s.codes.rows[p.ac.code] == s.codes.issued[p.ac.code].row)
  {
    hide RL.Inv, IssuedLawfully, ProcInv, MakersInv, FamiliesInv;
    assert ProcInv(s, r, s.procs[r]);
    PendingIsUnstored(s, r);
    RL.RowsHaveLinks(s.tokens, s.clock);
  }

  lemma RotationsAgree(a: RT.Rows, b: RT.Rows, h: TokenHash, next: RefreshToken, now: Time)
    requires SameVisibleTokens(a, b, now) && next.hash !in a && next.hash !in b
    ensures RT.Rotate(a, h, next, now).1 == RT.Rotate(b, h, next, now).1
    ensures SameVisibleTokens(RT.Rotate(a, h, next, now).0, RT.Rotate(b, h, next, now).0, now)
  {
  }

  lemma RotateAlike(s: State, t: State, r: RequestId)
    requires Running(s, r) && Running(t, r) && s.procs[r] == t.procs[r] && s.procs[r].RefreshRotate?
    requires s.procs[r].next.hash !in s.tokens.rows && s.procs[r].next.hash !in t.tokens.rows
    requires SameWorld(s, t) && SameLedgers(s, t)
    ensures StepsAlike(StepRefreshRotate(s, r, s.procs[r]), StepRefreshRotate(t, r, t.procs[r]), r)
  {
    hide SameVisibleTokens, SameVisibleCodes, RT.Rotate, OnlyMoves, TokenErrorCode;
    var p := s.procs[r];
    RotationsAgree(s.tokens.rows, t.tokens.rows, p.rt.hash, p.next, s.clock);
  }

  lemma CodeSaveAlike(s: State, t: State, r: RequestId)
    requires Running(s, r) && Running(t, r) && s.procs[r] == t.procs[r] && s.procs[r].CodeSave?
    requires s.procs[r].rt.hash !in s.tokens.rows && s.procs[r].rt.hash !in t.tokens.rows
    requires SameWorld(s, t) && SameLedgers(s, t)
    ensures StepsAlike(StepCodeSave(s, r, s.procs[r]), StepCodeSave(t, r, t.procs[r]), r)
  {
    hide SameVisibleCodes, OnlyMoves, TokenErrorCode;
  }

  lemma AuthorizeSaveAlike(s: State, t: State, r: RequestId)
    requires Running(s, r) && Running(t, r) && s.procs[r] == t.procs[r] && s.procs[r].AuthorizeSave?
    requires s.procs[r].ac.code !in s.codes.rows && s.procs[r].ac.code !in t.codes.rows
    requires SameWorld(s, t) && SameLedgers(s, t)
    ensures StepsAlike(StepAuthorizeSave(s, r, s.procs[r]), StepAuthorizeSave(t, r, t.procs[r]), r)
  {
    hide SameVisibleTokens, OnlyMoves, TokenErrorCode;
  }

  /** Off the exact tick, an expired code and an evicted one are refused alike. */
  lemma ConsumptionsAnswerAlike(a: AC.Rows, b: AC.Rows, x: Code, now: Time)
    requires SameVisibleCodes(a, b, now)
    requires (x in a ==> a[x].expiresAt != now) && (x in b ==> b[x].expiresAt != now)
    ensures var ra, rb := AC.Consume(a, x, now).1, AC.Consume(b, x, now).1;
            ra.Ok? == rb.Ok? && (ra.Err? ==> TokenErrorCode(ra.error) == TokenErrorCode(rb.error))
  {
    hide TokenErrorCode;
    assert AC.Active(a, x, now) <==> AC.Active(b, x, now);
    ExpiredIsReportedAsUnknown();
  }

  lemma ExpiredIsReportedAsUnknown()
    ensures TokenErrorCode(CodeExpired) == TokenErrorCode(CodeNotFound)
  {
  }

  lemma ConsumptionsLeaveAlike(a: AC.Rows, b: AC.Rows, x: Code, now: Time)
    requires SameVisibleCodes(a, b, now)
    ensures SameVisibleCodes(AC.Consume(a, x, now).0, AC.Consume(b, x, now).0, now)
  {
    forall y ensures AC.Active(a - {x}, y, now) <==> AC.Active(a, y, now) && y != x {}
  }

  lemma ConsumeAlike(s: State, t: State, r: RequestId)
    requires Running(s, r) && Running(t, r) && s.procs[r] == t.procs[r] && s.procs[r].CodeConsume?
    requires var x := s.procs[r].ac.code;
             && (x in s.codes.rows ==> s.codes.rows[x].expiresAt != s.clock)
             && (x in t.codes.rows ==> t.codes.rows[x].expiresAt != s.clock)
    requires SameWorld(s, t) && SameLedgers(s, t)
    ensures StepsAlike(StepCodeConsume(s, r, s.procs[r]), StepCodeConsume(t, r, t.procs[r]), r)
  {
    hide SameVisibleTokens, SameVisibleCodes, NoInsert, AC.Consume, TokenErrorCode;
    ConsumptionsAnswerAlike(s.codes.rows, t.codes.rows, s.procs[r].ac.code, s.clock);
    ConsumptionsLeaveAlike(s.codes.rows, t.codes.rows, s.procs[r].ac.code, s.clock);
  }

  lemma WritesAlike(s: State, t: State, r: RequestId, draw: Draw)
    requires Running(s, r) && Running(t, r) && s.procs[r] == t.procs[r]
    requires !LooksUp(s.procs[r]) && !IsPlain(s.procs[r])
    requires Enabled(s, Step(r, draw)) && !ConsumesOnTick(s, Step(r, draw))
    requires Inv(s) && Inv(t)
    requires SameWorld(s, t) && SameLedgers(s, t)
    ensures StepsAlike(StepProc(s, r, s.procs[r], draw), StepProc(t, r, t.procs[r], draw), r)
  {
    hide Inv, StepsAlike, SameVisibleTokens, SameVisibleCodes;
    hide StepCodeConsume, StepRefreshRotate, StepCodeSave, StepAuthorizeSave;
    UnstoredIn(s, r);
    UnstoredIn(t, r);
    match s.procs[r] {
      case RefreshRotate(_, _, _, _) => RotateAlike(s, t, r);
      case CodeSave(_, _, _, _) => CodeSaveAlike(s, t, r);
      case AuthorizeSave(_, _, _, _) => AuthorizeSaveAlike(s, t, r);
      case CodeConsume(_, _, _, _) => ConsumeAlike(s, t, r);
    }
  }

  lemma StepAlike(s: State, t: State, a: Action)
    requires Enabled(s, a) && Enabled(t, a) && a.Step? && s.procs[a.r] == t.procs[a.r] && !ConsumesOnTick(s, a)
    requires Inv(s) && Inv(t)
    requires Alike(s, t)
    ensures Alike(Keeping(s, a), Keeping(t, a))
  {
    hide Inv, StepsAlike, SameVisibleTokens, SameVisibleCodes, StepProc, SameProcs, ConsumesOnTick, OnlyMoves;
    var p := s.procs[a.r];
    if LooksUp(p) {
      LookupAlike(s, t, a);
    } else {
      var s', t' := StepProc(s, a.r, p, a.draw), StepProc(t, a.r, p, a.draw);
      assert StepsAlike(s', t', a.r) by {
        if IsPlain(p) { PlainStepAlike(s, t, a.r, a.draw); } else { WritesAlike(s, t, a.r, a.draw); }
      }
      TT.StepMovesOnly(s, a.r, a.draw);
      TT.StepMovesOnly(t, a.r, a.draw);
      StepIsAlike(s, t, s', t', a.r);
    }
  }

  lemma PlainStepAlike(s: State, t: State, r: RequestId, draw: Draw)
    requires Running(s, r) && Running(t, r) && s.procs[r] == t.procs[r] && IsPlain(s.procs[r])
    requires SameWorld(s, t) && SameLedgers(s, t)
    ensures StepsAlike(StepProc(s, r, s.procs[r], draw), StepProc(t, r, t.procs[r], draw), r)
  {
    hide StepProc, SameLedgers, SameAnswer;
    PlainAnswersAlike(s, t, r, draw);
    PlainLedgersAlike(s, t, r, draw);
    var s', t' := StepProc(s, r, s.procs[r], draw), StepProc(t, r, t.procs[r], draw);
    assert s'.clock == t'.clock by {
      TT.StepMovesOnly(s, r, draw);
      TT.StepMovesOnly(t, r, draw);
    }
    AnswersItself(s'.procs[r]);
  }

  // actions of the environment

  lemma EnvironmentAlike(s: State, t: State, a: Action)
    requires Enabled(s, a) && Enabled(t, a)
    requires a.Tick? || a.GrantConsent? || a.PutClient? || a.PutUser? || IsPurge(a)
    requires Alike(s, t)
    ensures Alike(Keeping(s, a), Keeping(t, a))
  {
    hide SameProcs, NormalizeScope;
    ProcsOnly(s, t, Keeping(s, a), Keeping(t, a));
  }

  lemma DropsAlike(a: RT.Rows, b: RT.Rows, u: UserID, cid: ClientID, now: Time)
    requires SameVisibleTokens(a, b, now)
    ensures SameVisibleTokens(RT.DropUser(a, u), RT.DropUser(b, u), now)
    ensures SameVisibleTokens(RT.DropClient(a, cid), RT.DropClient(b, cid), now)
  {
  }

  lemma CodeDropsAlike(a: AC.Rows, b: AC.Rows, u: UserID, cid: ClientID, now: Time)
    requires SameVisibleCodes(a, b, now)
    ensures SameVisibleCodes(AC.DropUser(a, u), AC.DropUser(b, u), now)
    ensures SameVisibleCodes(AC.DropClient(a, cid), AC.DropClient(b, cid), now)
  {
  }

  lemma DeletesAlike(s: State, t: State, u: UserID, cid: ClientID)
    requires Alike(s, t)
    ensures Alike(RemoveUser(s, u), RemoveUser(t, u)) && Alike(RemoveClient(s, cid), RemoveClient(t, cid))
  {
    hide SameProcs, SameVisibleTokens, SameVisibleCodes, RT.DropUser, RT.DropClient, AC.DropUser, AC.DropClient;
    DropsAlike(s.tokens.rows, t.tokens.rows, u, cid, s.clock);
    CodeDropsAlike(s.codes.rows, t.codes.rows, u, cid, s.clock);
    ProcsOnly(s, t, RemoveUser(s, u), RemoveUser(t, u));
    ProcsOnly(s, t, RemoveClient(s, cid), RemoveClient(t, cid));
  }

  lemma ArriveAlike(s: State, t: State, a: Action)
    requires Enabled(s, a) && Enabled(t, a) && a.Arrive?
    requires Alike(s, t)
    ensures Alike(Keeping(s, a), Keeping(t, a))
  {
    hide SameProcs, SameVisibleTokens, SameVisibleCodes, SameAnswer;
    var s', t' := Keeping(s, a), Keeping(t, a);
    AnswersItself(Arrived(a.req));
    MoveAlike(s, t, s', t', a.r);
  }

  lemma FailAlike(s: State, t: State, a: Action)
    requires Enabled(s, a) && Enabled(t, a) && a.Fail? && s.procs[a.r] == t.procs[a.r]
    requires Alike(s, t)
    ensures Alike(Keeping(s, a), Keeping(t, a))
  {
    hide SameProcs, SameVisibleTokens, SameVisibleCodes, SameAnswer, RequestOf;
    var s', t' := Keeping(s, a), Keeping(t, a);
    AnswersItself(s'.procs[a.r]);
    MoveAlike(s, t, s', t', a.r);
  }

  lemma KeepingDelete(s: State, a: Action)
    requires a.DeleteClient? || a.DeleteUser?
    ensures Keeping(s, a) == if a.DeleteUser? then RemoveUser(s, a.uid) else RemoveClient(s, a.cid)
  {
    hide RemoveUser, RemoveClient;
  }

  lemma KeepingAlike(s: State, t: State, a: Action)
    requires Enabled(s, a) && !ConsumesOnTick(s, a)
    requires Inv(s) && Inv(t)
    requires Alike(s, t)
    ensures Enabled(t, a) && Alike(Keeping(s, a), Keeping(t, a))
  {
    hide Inv, Keeping, ConsumesOnTick;
    EnabledAlike(s, t, a);
    hide Alike;
    if a.Step? {
      StepAlike(s, t, a);
    } else if a.Arrive? {
      ArriveAlike(s, t, a);
    } else if a.Fail? {
      FailAlike(s, t, a);
    } else if a.DeleteClient? {
      DeletesAlike(s, t, UserID(""), a.cid);
      KeepingDelete(s, a);
      KeepingDelete(t, a);
    } else if a.DeleteUser? {
      DeletesAlike(s, t, a.uid, ClientID(""));
      KeepingDelete(s, a);
      KeepingDelete(t, a);
    } else {
      EnvironmentAlike(s, t, a);
    }
  }

  /** The same action with any two choices of eviction. */
  lemma PerformAlike(s: State, t: State, m: Move, n: Move)
    requires m.action == n.action && Enabled(s, m.action) && !ConsumesOnTick(s, m.action)
    requires Inv(s) && Inv(t)
    requires Alike(s, t)
    ensures Enabled(t, n.action) && Alike(Perform(s, m), Perform(t, n))
  {
    hide Inv, Keeping, ConsumesOnTick, Alike, DropExpired;
    KeepingAlike(s, t, m.action);
    DropIsAlike(Keeping(s, m.action), Keeping(t, n.action), m.hashes, m.codes);
    AlikeIsSymmetric(Perform(s, m), Keeping(t, n.action));
    DropIsAlike(Keeping(t, n.action), Perform(s, m), n.hashes, n.codes);
    AlikeIsSymmetric(Perform(t, n), Perform(s, m));
  }

  /** A purge on one side only. */
  lemma PurgeAlike(s: State, t: State, m: Move)
    requires IsPurge(m.action) && Alike(s, t)
    ensures Alike(Perform(s, m), t)
  {
    hide Alike, DropExpired;
    assert Keeping(s, m.action) == s;
    DropIsAlike(s, t, m.hashes, m.codes);
  }

  /**
    Any two schedules of the same requests and administrative actions, with
    purges inserted anywhere and expired rows deleted at any time or never,
    end in states that differ in expired rows only; every request is answered
    alike. That holds as long as no code is consumed on its expiry tick.
   */
  lemma {:induction false} SchedulesAlike(s: State, t: State, moves: seq<Move>, others: seq<Move>)
    requires Playable(s, moves) && NeverConsumesOnTick(s, moves) && Core(moves) == Core(others)
    requires Inv(s) && Inv(t)
    requires Alike(s, t)
    ensures Playable(t, others) && Alike(Play(s, moves), Play(t, others))
    decreases |moves| + |others|
  {
    hide Inv, Alike, Perform, ConsumesOnTick;
    if moves != [] && IsPurge(moves[0].action) {
      assert Core(moves) == Core(moves[1..]);
      MoveKeepsInv(s, moves[0]);
      PurgeAlike(s, t, moves[0]);
      SchedulesAlike(Perform(s, moves[0]), t, moves[1..], others);
    } else if others != [] && IsPurge(others[0].action) {
      assert Core(others) == Core(others[1..]);
      MoveKeepsInv(t, others[0]);
      AlikeIsSymmetric(s, t);
      PurgeAlike(t, s, others[0]);
      AlikeIsSymmetric(Perform(t, others[0]), s);
      SchedulesAlike(s, Perform(t, others[0]), moves, others[1..]);
    } else if moves != [] {
      assert Core(moves) == [moves[0].action] + Core(moves[1..]);
      assert others != [] && Core(others) == [others[0].action] + Core(others[1..]);
      assert Core(moves[1..]) == Core(moves)[1..] == Core(others[1..]);
      MoveKeepsInv(s, moves[0]);
      PerformAlike(s, t, moves[0], others[0]);
      MoveKeepsInv(t, others[0]);
      SchedulesAlike(Perform(s, moves[0]), Perform(t, others[0]), moves[1..], others[1..]);
    }
  }

  // ---- the program itself is one such schedule ----

  /** What the program itself deletes along with an action. */
  function OwnMove(s: State, a: Action): Move
    requires Enabled(s, a)
  {
    if !Evicts(s, a) then Move(a, {}, {})
    else Move(a, s.tokens.rows.Keys - Apply(s, a).tokens.rows.Keys, s.codes.rows.Keys - Apply(s, a).codes.rows.Keys)
  }

  lemma LookupEvictsExpired(s: State, r: RequestId, draw: Draw)
    requires Running(s, r) && LooksUp(s.procs[r])
    ensures var s' := StepProc(s, r, s.procs[r], draw);
            && s'.clock == s.clock && s'.tokens == s.tokens.(rows := s'.tokens.rows)
            && s'.codes == s.codes.(rows := s'.codes.rows)
            && OnlyExpiredGone(s, s')
  {
    hide NoInsert, StepProc, OnlyExpiredGone;
    LookupOutcome(s, r, draw);
    assert StepProc(s, r, s.procs[r], draw).clock == s.clock by { TT.StepMovesOnly(s, r, draw); }
    LookupRows(s, r, draw);
  }

  ghost predicate OnlyExpiredGone(s: State, s': State) {
    && (forall h :: h in s'.tokens.rows ==> h in s.tokens.rows && s'.tokens.rows[h] == s.tokens.rows[h])
    && (forall h :: h in s.tokens.rows && h !in s'.tokens.rows ==> !RT.Visible(s.tokens.rows[h], s.clock))
    && (forall x :: x in s'.codes.rows ==> x in s.codes.rows && s'.codes.rows[x] == s.codes.rows[x])
    && (forall x :: x in s.codes.rows && x !in s'.codes.rows ==> s.codes.rows[x].expiresAt <= s.clock)
  }

  lemma LookupRows(s: State, r: RequestId, draw: Draw)
    requires Running(s, r) && LooksUp(s.procs[r])
    ensures OnlyExpiredGone(s, StepProc(s, r, s.procs[r], draw))
  {
    hide NoInsert, RT.Reconstruct, AC.Reconstruct, RefreshFound;
  }

  lemma DropNothing(s: State)
    ensures DropExpired(s, {}, {}) == s
  {
    assert DropExpired(s, {}, {}).tokens.rows == s.tokens.rows;
    assert DropExpired(s, {}, {}).codes.rows == s.codes.rows;
  }

  /** Dropping what is missing from s' out of s's rows gives the rows of s'. */
  lemma DropTheDifference(s: State, s': State)
    requires s'.clock == s.clock && OnlyExpiredGone(s, s')
    ensures var kept := s'.(tokens := s'.tokens.(rows := s.tokens.rows), codes := s'.codes.(rows := s.codes.rows));
            DropExpired(kept, s.tokens.rows.Keys - s'.tokens.rows.Keys, s.codes.rows.Keys - s'.codes.rows.Keys) == s'
  {
    var kept := s'.(tokens := s'.tokens.(rows := s.tokens.rows), codes := s'.codes.(rows := s.codes.rows));
    var back := DropExpired(kept, s.tokens.rows.Keys - s'.tokens.rows.Keys, s.codes.rows.Keys - s'.codes.rows.Keys);
    assert back.tokens.rows == s'.tokens.rows;
    assert back.codes.rows == s'.codes.rows;
  }

  lemma PurgeRows(s: State, a: Action)
    requires IsPurge(a)
    ensures Apply(s, a).clock == s.clock && OnlyExpiredGone(s, Apply(s, a))
  {
  }

  /** Each action of the program is its kept form followed by the deletion of some expired rows. */
  lemma ActionIsItsMove(s: State, a: Action)
    requires Enabled(s, a)
    ensures Perform(s, OwnMove(s, a)) == Apply(s, a)
  {
    hide Apply, DropExpired, OnlyExpiredGone;
    if !Evicts(s, a) {
      DropNothing(Apply(s, a));
    } else {
      if IsPurge(a) { PurgeRows(s, a); } else { LookupActionRows(s, a); }
      DropTheDifference(s, Apply(s, a));
    }
  }

  lemma LookupActionRows(s: State, a: Action)
    requires Enabled(s, a) && a.Step? && LooksUp(s.procs[a.r])
    ensures Apply(s, a).clock == s.clock && OnlyExpiredGone(s, Apply(s, a))
  {
    hide StepProc, OnlyExpiredGone;
    LookupEvictsExpired(s, a.r, a.draw);
  }

  ghost function OwnMoves(s: State, acts: seq<Action>): (moves: seq<Move>)
    requires Legal(s, acts)
    decreases |acts|
  {
    if acts == [] then [] else [OwnMove(s, acts[0])] + OwnMoves(Apply(s, acts[0]), acts[1..])
  }

  lemma {:induction false} RunIsItsMoves(s: State, acts: seq<Action>)
    requires Legal(s, acts)
    ensures var moves := OwnMoves(s, acts);
            && Playable(s, moves) && Play(s, moves) == Run(s, acts) && Core(moves) == StripPurges(acts)
            && (OffTick(s, acts) ==> NeverConsumesOnTick(s, moves))
    decreases |acts|
  {
    hide Perform, Apply, ConsumesOnTick, Evicts;
    if acts != [] {
      var moves := OwnMoves(s, acts);
      ActionIsItsMove(s, acts[0]);
      assert moves[0] == OwnMove(s, acts[0]) && moves[1..] == OwnMoves(Apply(s, acts[0]), acts[1..]);
      RunIsItsMoves(Apply(s, acts[0]), acts[1..]);
    }
  }

  /**
    Eviction is unobservable. Take any run of the program from a reachable
    state, and any schedule of the same requests and administrative actions
    that purges and evicts differently (or not at all). That schedule is
    possible too, and answers every request with the same tokens or with an
    error reported by the same status, code and description.
   */
  lemma EvictionIsUnobservable(s: State, acts: seq<Action>, others: seq<Move>)
    requires Reachable(s) && Legal(s, acts) && OffTick(s, acts) && StripPurges(acts) == Core(others)
    ensures Playable(s, others) && SameProcs(Run(s, acts), Play(s, others))
    ensures Alike(Run(s, acts), Play(s, others))
  {
    hide Inv, Perform, Apply, SameProcs, NeverConsumesOnTick, OffTick, OwnMoves, Core, StripPurges;
    ReachableInv(s);
    RunIsItsMoves(s, acts);
    AlikeToItself(s);
    SchedulesAlike(s, s, OwnMoves(s, acts), others);
  }

  lemma AlikeToItself(s: State)
    ensures Alike(s, s)
  {
  }
}
