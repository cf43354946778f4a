/**
  The one instant at which eviction can be observed: a code consumed on the
  tick it expires, seen from the request that consumes it.
 */
module ExpiryTick {
  import opened Wrappers
  import opened Scopes
  import opened Domain
  import opened TokenProtocol
  import opened TokenInvariants
  import AC = AuthCodeStore
  import E = Eviction
  import RL = RotationLedger
  import TT = TokenTheorems
  import W = TokenWitness

  /** r is about to consume a code that is stored and expires now. */
  ghost predicate OnTick(s: State, r: RequestId) {
    && Running(s, r) && s.procs[r].CodeConsume?
    && s.procs[r].ac.code in s.codes.rows && s.codes.rows[s.procs[r].ac.code].expiresAt == s.clock
  }

  /** Where a consumption of p leads. */
  function Outcome(p: Proc, res: Result<(), Error>): Proc
    requires p.CodeConsume?
  {
    if res.Ok? then CodeOwner(p.tok, p.cid, p.client, p.ac) else Finished(TokenCall(p.tok), Failed(res.error))
  }

  lemma Consumes(s: State, r: RequestId)
    requires Running(s, r) && s.procs[r].CodeConsume?
    ensures var p := s.procs[r];
            StepCodeConsume(s, r, p).procs[r] == Outcome(p, AC.Consume(s.codes.rows, p.ac.code, s.clock).1)
  {
    hide NoInsert, AC.Consume;
  }

  lemma StepLeadsTo(s: State, r: RequestId, draw: Draw)
    requires Running(s, r) && s.procs[r].CodeConsume?
    ensures var p, s' := s.procs[r], StepProc(s, r, s.procs[r], draw);
            r in s'.procs && s'.procs[r] == Outcome(p, AC.Consume(s.codes.rows, p.ac.code, s.clock).1)
  {
    hide StepCodeConsume, AC.Consume, Outcome;
    Consumes(s, r);
    TT.StepMovesOnly(s, r, draw);
  }

  /** What the two schedules are, and where they leave the request. */
  lemma TwoSchedules(s: State, r: RequestId, draw: Draw)
    requires Running(s, r) && IsFresh(s, draw) && s.procs[r].CodeConsume?
    ensures var plain, purging := [Step(r, draw)], [PurgeCodes, Step(r, draw)];
            var p, rows := s.procs[r], s.codes.rows;
            && Legal(s, plain) && Legal(s, purging) && E.StripPurges(plain) == E.StripPurges(purging)
            && r in Run(s, plain).procs && r in Run(s, purging).procs
            && Run(s, plain).procs[r] == Outcome(p, AC.Consume(rows, p.ac.code, s.clock).1)
            && Run(s, purging).procs[r] == Outcome(p, AC.Consume(AC.PurgeExpired(rows, s.clock), p.ac.code, s.clock).1)
  {
    hide StepProc, AC.PurgeExpired, AC.Consume, Outcome;
    var plain, purging := [Step(r, draw)], [PurgeCodes, Step(r, draw)];
    var purged := Apply(s, PurgeCodes);
    assert plain[1..] == [] && purging[1..] == plain;
    StepLeadsTo(s, r, draw);
    StepLeadsTo(purged, r, draw);
    assert Legal(purged, plain) && Run(s, purging) == Run(purged, plain) == Apply(purged, Step(r, draw));
  }

  lemma RefusalsLookAlike(a: AC.Rows, x: Code, now: Time)
    ensures var ra, rb := AC.Consume(a, x, now).1, AC.Consume(AC.PurgeExpired(a, now), x, now).1;
            ra.Err? && rb.Err? ==> TokenErrorCode(ra.error) == TokenErrorCode(rb.error)
  {
    hide TokenErrorCode;
    E.ExpiredIsReportedAsUnknown();
  }

  /**
    For any request about to consume its code, in any reachable state, purging
    first makes a difference to it exactly on the tick: then it goes on to mint
    tokens without the purge, and is refused after it. Both schedules are
    possible and differ in nothing but the purge.
   */
  lemma PurgingFirstIsSeenExactlyOnTick(s: State, r: RequestId, draw: Draw)
    requires Reachable(s) && Running(s, r) && IsFresh(s, draw) && s.procs[r].CodeConsume?
    ensures var plain, purging := [Step(r, draw)], [PurgeCodes, Step(r, draw)];
            && Legal(s, plain) && Legal(s, purging) && E.StripPurges(plain) == E.StripPurges(purging)
            && r in Run(s, plain).procs && r in Run(s, purging).procs
            && (!E.SameAnswer(Run(s, plain).procs[r], Run(s, purging).procs[r]) <==> OnTick(s, r))
            && (OnTick(s, r) ==>
                  && Run(s, plain).procs[r].CodeOwner?
                  && Run(s, purging).procs[r] == Finished(TokenCall(s.procs[r].tok), Failed(CodeNotFound)))
  {
    hide TokenErrorCode, AC.PurgeExpired, AC.Consume, Reachable, E.SameAnswer, Legal, Run, E.StripPurges, IsFresh;
    var p, rows := s.procs[r], s.codes.rows;
    var ra := AC.Consume(rows, p.ac.code, s.clock).1;
    var rb := AC.Consume(AC.PurgeExpired(rows, s.clock), p.ac.code, s.clock).1;
    TwoSchedules(s, r, draw);
    E.PurgeMattersExactlyOnTick(rows, p.ac.code, s.clock);
    RefusalsLookAlike(rows, p.ac.code, s.clock);
    ConsumeOnTick(rows, p.ac.code, s.clock);
    AnswersCompare(p, ra, rb);
  }

  lemma ConsumeOnTick(rows: AC.Rows, x: Code, now: Time)
    ensures x in rows && rows[x].expiresAt == now ==>
              AC.Consume(rows, x, now).1.Ok? && AC.Consume(AC.PurgeExpired(rows, now), x, now).1 == Err(CodeNotFound)
  {
  }

  lemma AnswersCompare(p: Proc, ra: Result<(), Error>, rb: Result<(), Error>)
    requires p.CodeConsume? && (ra.Err? && rb.Err? ==> TokenErrorCode(ra.error) == TokenErrorCode(rb.error))
    ensures E.SameAnswer(Outcome(p, ra), Outcome(p, rb)) <==> ra.Ok? == rb.Ok?
  {
    hide TokenErrorCode;
  }

  // ---- down to the answer ----

  lemma Owns(s: State, r: RequestId, draw: Draw)
    requires Running(s, r) && s.procs[r].CodeOwner? && s.procs[r].ac.user in s.users
    ensures var p := s.procs[r]; StepProc(s, r, p, draw).procs[r] == CodeMint(p.tok, p.cid, p.client, p.ac)
  {
    hide NoInsert;
  }

  /** An exchange that has found its owner mints, and stores what it minted, unhindered. */
  lemma {:induction false} MintingIsGranted(s: State, r: RequestId) returns (acts: seq<Action>)
    requires Reachable(s) && Running(s, r) && (s.procs[r].CodeMint? || s.procs[r].CodeSave?)
    ensures Legal(s, acts) && (forall i :: 0 <= i < |acts| ==> acts[i].Step? && acts[i].r == r)
    ensures Done(Run(s, acts), r) && Run(s, acts).procs[r].reply.Granted?
    decreases s.procs[r].CodeMint?
  {
    hide Reachable, Inv, StepProc;
    var draw := TT.FreshDraw(s);
    var a := Step(r, draw);
    var s' := Apply(s, a);
    W.StaysReachable(s, a);
    assert Legal(s, []) && Run(s, []) == s;
    MintOrSave(s, r, draw);
    if Done(s', r) {
      W.RunAppends(s, [], a);
      acts := [] + [a];
    } else {
      var rest := MintingIsGranted(s', r);
      acts := [a] + rest;
      assert acts[1..] == rest;
    }
  }

  lemma MintOrSave(s: State, r: RequestId, draw: Draw)
    requires Reachable(s) && Running(s, r) && (s.procs[r].CodeMint? || s.procs[r].CodeSave?)
    ensures var s' := StepProc(s, r, s.procs[r], draw);
            && r in s'.procs
            && ((s'.procs[r].Finished? && s'.procs[r].reply.Granted?) || (s.procs[r].CodeMint? && s'.procs[r].CodeSave?))
  {
    hide RL.Inv, IssuedLawfully, MakersInv, FamiliesInv, CodeLedgerInv, Reachable, ParseRefresh, Canonical, ReadFrom;
    hide NoInsert;
    ReachableInv(s);
    var p := s.procs[r];
    assert ProcInv(s, r, p);
    PendingIsUnstored(s, r);
    RL.RowsHaveLinks(s.tokens, s.clock);
    CanonicalRead(s.codes, p.ac);
    ReloadPreservesScope(p.ac.scope);
  }

  /**
    On the tick the two schedules end in different answers: without the purge
    the request can go on, by its own steps alone, to be granted tokens (its
    owner being there); with the purge before its first step it is refused.
   */
  lemma TickChangesTheAnswer(s: State, r: RequestId) returns (acts: seq<Action>)
    requires Reachable(s) && OnTick(s, r) && s.procs[r].ac.user in s.users
    ensures acts != [] && (forall i :: 0 <= i < |acts| ==> acts[i].Step? && acts[i].r == r)
    ensures Legal(s, acts) && Done(Run(s, acts), r) && Run(s, acts).procs[r].reply.Granted?
    ensures Legal(s, [PurgeCodes, acts[0]]) && Done(Run(s, [PurgeCodes, acts[0]]), r)
    ensures Run(s, [PurgeCodes, acts[0]]).procs[r].reply == Failed(CodeNotFound)
  {
    hide Reachable, Inv, StepProc;
    var draw := TT.FreshDraw(s);
    var a := Step(r, draw);
    PurgingFirstIsSeenExactlyOnTick(s, r, draw);
    assert [a][1..] == [];
    var s1 := Apply(s, a);
    W.StaysReachable(s, a);
    TT.StepMovesOnly(s, r, draw);
    assert s1.procs[r].ac == s.procs[r].ac by { ConsumeKeepsCode(s, r, draw); }
    var draw2 := TT.FreshDraw(s1);
    var b := Step(r, draw2);
    Owns(s1, r, draw2);
    var s2 := Apply(s1, b);
    TT.StepMovesOnly(s1, r, draw2);
    W.StaysReachable(s1, b);
    var rest := MintingIsGranted(s2, r);
    acts := [a] + ([b] + rest);
    assert acts[1..] == [b] + rest && acts[1..][1..] == rest;
    assert Legal(s1, acts[1..]) && Run(s1, acts[1..]) == Run(s2, rest);
  }

  lemma ConsumeKeepsCode(s: State, r: RequestId, draw: Draw)
    requires Running(s, r) && s.procs[r].CodeConsume? && StepProc(s, r, s.procs[r], draw).procs[r].CodeOwner?
    ensures StepProc(s, r, s.procs[r], draw).procs[r].ac == s.procs[r].ac
  {
    hide StepCodeConsume;
    Consumes(s, r);
  }

  /** Such a state occurs: an exchange that verified its code and is overtaken by the clock. */
  lemma TickOccurs() returns (s: State, r: RequestId)
    ensures Reachable(s) && OnTick(s, r) && s.procs[r].ac.user in s.users
  {
    hide Reachable;
    var s0, ac := W.Verifies();
    r := W.REDEEMS;
    s := Apply(s0, Tick(CODE_TTL));
    W.StaysReachable(s0, Tick(CODE_TTL));
  }
}
