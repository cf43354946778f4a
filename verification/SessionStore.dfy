/**
  The in-memory store of IdP sessions and pending /authorize requests. It
  evicts expired entries on reads and in a background purge; seen from outside
  it is a store that never evicts anything and checks expiry on every read.
 */
module SessionStore {
  import opened Wrappers
  import opened Domain
  import opened AuthorizeQuery

  type Id = string

  datatype Session = Session(user: UserID, authenticatedAt: Time, expiresAt: Time)
  datatype PendingAuthorize = PendingAuthorize(rawQuery: Query, expiresAt: Time)

  const SESSION_TTL: Time := 24 * HOUR
  const PENDING_TTL: Time := 10 * MINUTE

  /** The two maps of the store. */
  datatype Store = Store(sessions: map<Id, Session>, pending: map<Id, PendingAuthorize>)

  /** A call, with the clock reading and the random id it used. */
  datatype Op =
    | CreateSession(id: Id, user: UserID, now: Time, ttl: Time)
    | FindSession(id: Id, now: Time)
    | DeleteSession(id: Id)
    | SavePending(id: Id, rawQuery: Query, now: Time, ttl: Time)
    | FindPending(id: Id, now: Time)
    | ConsumePending(id: Id, now: Time)
    | PurgeExpired(now: Time)

  datatype Answer = TheSession(session: Session) | ThePending(pending: PendingAuthorize) | NotFound | Ack

  /** time.Now().After(expiresAt). */
  predicate Expired(expiresAt: Time, now: Time) { now > expiresAt }

  predicate SessionLive(m: map<Id, Session>, id: Id, now: Time) { id in m && !Expired(m[id].expiresAt, now) }

  predicate PendingLive(m: map<Id, PendingAuthorize>, id: Id, now: Time) { id in m && !Expired(m[id].expiresAt, now) }

  // ---- what both stores write ----

  function NewSession(op: Op): Session
    requires op.CreateSession?
  {
    Session(op.user, op.now, op.now + op.ttl)
  }

  function NewPending(op: Op): PendingAuthorize
    requires op.SavePending?
  {
    PendingAuthorize(op.rawQuery, op.now + op.ttl)
  }

  // ---- the evicting store ----

  function Purged(s: Store, now: Time): Store {
    Store(map id | id in s.sessions && !Expired(s.sessions[id].expiresAt, now) :: s.sessions[id],
          map id | id in s.pending && !Expired(s.pending[id].expiresAt, now) :: s.pending[id])
  }

  function Evicting(s: Store, op: Op): (Store, Answer) {
    match op
    case CreateSession(id, _, _, _) => (s.(sessions := s.sessions[id := NewSession(op)]), TheSession(NewSession(op)))
    case FindSession(id, now) =>
      if SessionLive(s.sessions, id, now) then (s, TheSession(s.sessions[id]))
      else (s.(sessions := s.sessions - {id}), NotFound)
    case DeleteSession(id) => (s.(sessions := s.sessions - {id}), Ack)
    case SavePending(id, _, _, _) => (s.(pending := s.pending[id := NewPending(op)]), ThePending(NewPending(op)))
    case FindPending(id, now) =>
      if PendingLive(s.pending, id, now) then (s, ThePending(s.pending[id]))
      else (s.(pending := s.pending - {id}), NotFound)
    case ConsumePending(id, now) =>
      (s.(pending := s.pending - {id}), if PendingLive(s.pending, id, now) then ThePending(s.pending[id]) else NotFound)
    case PurgeExpired(now) => (Purged(s, now), Ack)
  }

  // ---- the simple store ----

  /** Never deletes an expired entry; only deletes what is deleted or consumed. */
  function Simple(s: Store, op: Op): (Store, Answer) {
    match op
    case CreateSession(id, _, _, _) => (s.(sessions := s.sessions[id := NewSession(op)]), TheSession(NewSession(op)))
    case FindSession(id, now) => (s, if SessionLive(s.sessions, id, now) then TheSession(s.sessions[id]) else NotFound)
    case DeleteSession(id) => (s.(sessions := s.sessions - {id}), Ack)
    case SavePending(id, _, _, _) => (s.(pending := s.pending[id := NewPending(op)]), ThePending(NewPending(op)))
    case FindPending(id, now) => (s, if PendingLive(s.pending, id, now) then ThePending(s.pending[id]) else NotFound)
    case ConsumePending(id, now) =>
      if PendingLive(s.pending, id, now) then (s.(pending := s.pending - {id}), ThePending(s.pending[id])) else (s, NotFound)
    case PurgeExpired(_) => (s, Ack)
  }

  // ---- the class ----

  ghost function ExpiredSessions(m: map<Id, Session>, now: Time): set<Id> {
    set id | id in m && Expired(m[id].expiresAt, now)
  }

  ghost function ExpiredPending(m: map<Id, PendingAuthorize>, now: Time): set<Id> {
    set id | id in m && Expired(m[id].expiresAt, now)
  }

  class IdPSessionStore {
    var sessions: map<Id, Session>
    var pending: map<Id, PendingAuthorize>

    ghost function View(): Store
      reads this
    {
      Store(sessions, pending)
    }

    constructor ()
      ensures View() == Store(map[], map[])
    {
      sessions, pending := map[], map[];
    }

    method Create(id: Id, user: UserID, now: Time, ttl: Time) returns (sess: Session)
      modifies this
      ensures (View(), TheSession(sess)) == Evicting(old(View()), CreateSession(id, user, now, ttl))
    {
      sess := Session(user, now, now + ttl);
      sessions := sessions[id := sess];
    }

    method Find(id: Id, now: Time) returns (r: Option<Session>)
      modifies this
      ensures (View(), if r.Some? then TheSession(r.value) else NotFound) == Evicting(old(View()), FindSession(id, now))
    {
      if id !in sessions || now > sessions[id].expiresAt {
        sessions := sessions - {id};
        return None;
      }
      return Some(sessions[id]);
    }

    method Delete(id: Id)
      modifies this
      ensures View() == Evicting(old(View()), DeleteSession(id)).0
    {
      sessions := sessions - {id};
    }

    method SavePendingAuthorize(id: Id, rawQuery: Query, now: Time, ttl: Time) returns (p: PendingAuthorize)
      modifies this
      ensures (View(), ThePending(p)) == Evicting(old(View()), SavePending(id, rawQuery, now, ttl))
    {
      p := PendingAuthorize(rawQuery, now + ttl);
      pending := pending[id := p];
    }

    method FindPendingAuthorize(id: Id, now: Time) returns (r: Option<PendingAuthorize>)
      modifies this
      ensures (View(), if r.Some? then ThePending(r.value) else NotFound) == Evicting(old(View()), FindPending(id, now))
    {
      if id !in pending || now > pending[id].expiresAt {
        pending := pending - {id};
        return None;
      }
      return Some(pending[id]);
    }

    method ConsumePendingAuthorize(id: Id, now: Time) returns (r: Option<PendingAuthorize>)
      modifies this
      ensures (View(), if r.Some? then ThePending(r.value) else NotFound) == Evicting(old(View()), ConsumePending(id, now))
      ensures id !in pending
    {
      if id !in pending || now > pending[id].expiresAt {
        pending := pending - {id};
        return None;
      }
      r := Some(pending[id]);
      pending := pending - {id};
    }

    /** The first scan of the purge, which deletes from the map it ranges over. */
    method PurgeSessions(now: Time) returns (purged: nat)
      modifies this`sessions
      ensures sessions == old(sessions) - ExpiredSessions(old(sessions), now)
      ensures purged == |ExpiredSessions(old(sessions), now)|
    {
      ghost var gone := ExpiredSessions(sessions, now);
      purged := 0;
      var todo := sessions.Keys;
      assert gone - todo == {} && sessions - {} == sessions;
      while todo != {}
        invariant todo <= old(sessions).Keys
        invariant sessions == old(sessions) - (gone - todo) && purged == |gone - todo|
      {
        var id :| id in todo;
        OneLess(old(sessions), gone, todo, id);
        if now > sessions[id].expiresAt {
          sessions := sessions - {id};
          purged := purged + 1;
        }
        todo := todo - {id};
      }
      assert gone - {} == gone;
    }

    /** The second scan. */
    method PurgePending(now: Time) returns (purged: nat)
      modifies this`pending
      ensures pending == old(pending) - ExpiredPending(old(pending), now)
      ensures purged == |ExpiredPending(old(pending), now)|
    {
      ghost var gone := ExpiredPending(pending, now);
      purged := 0;
      var todo := pending.Keys;
      assert gone - todo == {} && pending - {} == pending;
      while todo != {}
        invariant todo <= old(pending).Keys
        invariant pending == old(pending) - (gone - todo) && purged == |gone - todo|
      {
        var id :| id in todo;
        OneLess(old(pending), gone, todo, id);
        if now > pending[id].expiresAt {
          pending := pending - {id};
          purged := purged + 1;
        }
        todo := todo - {id};
      }
      assert gone - {} == gone;
    }

    /** The count is exactly the number of entries that are gone, and they are the expired ones. */
    method Purge(now: Time) returns (purged: nat)
      modifies this
      ensures View() == Evicting(old(View()), PurgeExpired(now)).0
      ensures purged == |old(sessions)| - |sessions| + |old(pending)| - |pending|
    {
      hide Evicting, ExpiredSessions, ExpiredPending;
      PurgeRemoves(View(), now);
      SizeWithout(sessions, ExpiredSessions(sessions, now));
      SizeWithout(pending, ExpiredPending(pending, now));
      var m := PurgeSessions(now);
      var n := PurgePending(now);
      purged := m + n;
    }
  }

  /** One more key looked at; if it is to go, one more is gone. */
  lemma OneLess<V>(m: map<Id, V>, gone: set<Id>, todo: set<Id>, id: Id)
    requires id in todo && id in m
    ensures id in m - (gone - todo) && (m - (gone - todo))[id] == m[id]
    ensures id !in gone ==> gone - (todo - {id}) == gone - todo
    ensures id in gone ==> && m - (gone - (todo - {id})) == m - (gone - todo) - {id}
                           && |gone - (todo - {id})| == |gone - todo| + 1
  {
    if id in gone {
      assert gone - (todo - {id}) == (gone - todo) + {id};
    } else {
      assert gone - (todo - {id}) == gone - todo;
    }
  }

  lemma PurgeRemoves(s: Store, now: Time)
    ensures ExpiredSessions(s.sessions, now) <= s.sessions.Keys && ExpiredPending(s.pending, now) <= s.pending.Keys
    ensures Evicting(s, PurgeExpired(now)).0
            == Store(s.sessions - ExpiredSessions(s.sessions, now), s.pending - ExpiredPending(s.pending, now))
  {
    assert Purged(s, now).sessions == s.sessions - ExpiredSessions(s.sessions, now);
    assert Purged(s, now).pending == s.pending - ExpiredPending(s.pending, now);
  }

  lemma SizeWithout<V>(m: map<Id, V>, gone: set<Id>)
    requires gone <= m.Keys
    ensures |m - gone| == |m| - |gone|
  {
    assert (m - gone).Keys == m.Keys - gone;
    assert |m| == |m.Keys| && |m - gone| == |(m - gone).Keys|;
  }

  // ---- refinement ----

  /** The clock reading of a call that checks expiry or evicts by it. */
  function ReadingOf(op: Op): Option<Time> {
    match op
    case FindSession(_, now) => Some(now)
    case FindPending(_, now) => Some(now)
    case ConsumePending(_, now) => Some(now)
    case PurgeExpired(now) => Some(now)
    case _ => None
  }

  /**
    Reads take the clock inside the critical section, so no read is earlier
    than anything before it; the purge reads the clock before it gets the lock
    and may be late.
   */
  ghost predicate ReadsInOrder(ops: seq<Op>, t: Time)
    decreases |ops|
  {
    ops != [] ==>
      InOrder(ops[0], t) && ReadsInOrder(ops[1..], Later(t, ops[0]))
  }

  /** The latest reading so far. */
  function Later(t: Time, op: Op): Time {
    var r := ReadingOf(op);
    if r.Some? && t < r.value then r.value else t
  }

  function EvictingAnswers(s: Store, ops: seq<Op>): seq<Answer>
    decreases |ops|
  {
    if ops == [] then [] else var (s', a) := Evicting(s, ops[0]); [a] + EvictingAnswers(s', ops[1..])
  }

  function SimpleAnswers(s: Store, ops: seq<Op>): seq<Answer>
    decreases |ops|
  {
    if ops == [] then [] else var (s', a) := Simple(s, ops[0]); [a] + SimpleAnswers(s', ops[1..])
  }

  /** The evicting store lacks no session but those that had expired by time t. */
  ghost predicate SessionsLag(m: map<Id, Session>, simple: map<Id, Session>, t: Time) {
    && (forall id :: id in m ==> id in simple && m[id] == simple[id])
    && (forall id :: id in simple && id !in m ==> Expired(simple[id].expiresAt, t))
  }

  ghost predicate PendingLag(m: map<Id, PendingAuthorize>, simple: map<Id, PendingAuthorize>, t: Time) {
    && (forall id :: id in m ==> id in simple && m[id] == simple[id])
    && (forall id :: id in simple && id !in m ==> Expired(simple[id].expiresAt, t))
  }

  ghost predicate Lags(s: Store, simple: Store, t: Time) {
    SessionsLag(s.sessions, simple.sessions, t) && PendingLag(s.pending, simple.pending, t)
  }

  ghost predicate InOrder(op: Op, t: Time) {
    ReadingOf(op).Some? && !op.PurgeExpired? ==> t <= ReadingOf(op).value
  }

  lemma SessionsRefine(s: Store, simple: Store, t: Time, op: Op)
    requires SessionsLag(s.sessions, simple.sessions, t) && InOrder(op, t)
    ensures SessionsLag(Evicting(s, op).0.sessions, Simple(simple, op).0.sessions, Later(t, op))
  {
  }

  lemma PendingRefine(s: Store, simple: Store, t: Time, op: Op)
    requires PendingLag(s.pending, simple.pending, t) && InOrder(op, t)
    ensures PendingLag(Evicting(s, op).0.pending, Simple(simple, op).0.pending, Later(t, op))
  {
  }

  lemma StepRefines(s: Store, simple: Store, t: Time, op: Op)
    requires Lags(s, simple, t) && InOrder(op, t)
    ensures Evicting(s, op).1 == Simple(simple, op).1
    ensures Lags(Evicting(s, op).0, Simple(simple, op).0, Later(t, op))
  {
    SessionsRefine(s, simple, t, op);
    PendingRefine(s, simple, t, op);
  }

  /** Every sequence of calls gets the same answers from both stores. */
  lemma {:induction false} EvictionRefines(s: Store, simple: Store, t: Time, ops: seq<Op>)
    requires Lags(s, simple, t) && ReadsInOrder(ops, t)
    ensures EvictingAnswers(s, ops) == SimpleAnswers(simple, ops)
    decreases |ops|
  {
    if ops != [] {
      StepRefines(s, simple, t, ops[0]);
      EvictionRefines(Evicting(s, ops[0]).0, Simple(simple, ops[0]).0, Later(t, ops[0]), ops[1..]);
    }
  }

  // ---- what an answer means, by the history alone ----

  /** The store after a history, starting empty. */
  function Replay(ops: seq<Op>): Store
    decreases |ops|
  {
    if ops == [] then Store(map[], map[]) else Evicting(Replay(ops[..|ops| - 1]), ops[|ops| - 1]).0
  }

  function SimpleReplay(ops: seq<Op>): Store
    decreases |ops|
  {
    if ops == [] then Store(map[], map[]) else Simple(SimpleReplay(ops[..|ops| - 1]), ops[|ops| - 1]).0
  }

  /** The session last created under id and not deleted since. */
  function Signed(history: seq<Op>, id: Id): Option<Session> {
    if history == [] then None
    else
      var op, before := history[|history| - 1], history[..|history| - 1];
      if op.CreateSession? && op.id == id then Some(NewSession(op))
      else if op.DeleteSession? && op.id == id then None
      else Signed(before, id)
  }

  lemma {:induction false} SimpleKeepsSigned(ops: seq<Op>, id: Id)
    ensures var m := SimpleReplay(ops).sessions;
            Signed(ops, id) == if id in m then Some(m[id]) else None
    decreases |ops|
  {
    if ops != [] { SimpleKeepsSigned(ops[..|ops| - 1], id); }
  }

  function LatestReading(t: Time, ops: seq<Op>): Time {
    if ops == [] then t else Later(LatestReading(t, ops[..|ops| - 1]), ops[|ops| - 1])
  }

  lemma {:induction false} ReplayLags(ops: seq<Op>, t: Time)
    requires ReadsInOrder(ops, t)
    ensures Lags(Replay(ops), SimpleReplay(ops), LatestReading(t, ops))
    decreases |ops|
  {
    if ops != [] {
      OrderOfPrefix(ops, t);
      ReplayLags(ops[..|ops| - 1], t);
      StepRefines(Replay(ops[..|ops| - 1]), SimpleReplay(ops[..|ops| - 1]),
                  LatestReading(t, ops[..|ops| - 1]), ops[|ops| - 1]);
    }
  }

  lemma {:induction false} OrderOfPrefix(ops: seq<Op>, t: Time)
    requires ops != [] && ReadsInOrder(ops, t)
    ensures ReadsInOrder(ops[..|ops| - 1], t)
    ensures var last := ops[|ops| - 1];
            InOrder(last, LatestReading(t, ops[..|ops| - 1]))
    decreases |ops|
  {
    if |ops| > 1 {
      var rest := ops[1..];
      OrderOfPrefix(rest, Later(t, ops[0]));
      assert ops[..|ops| - 1][1..] == rest[..|rest| - 1];
      LatestFromFront(t, ops[..|ops| - 1]);
    } else {
      assert ops[..0] == [];
    }
  }

  lemma {:induction false} LatestFromFront(t: Time, ops: seq<Op>)
    requires ops != []
    ensures LatestReading(t, ops) == LatestReading(Later(t, ops[0]), ops[1..])
    decreases |ops|
  {
    if |ops| > 1 {
      var init := ops[..|ops| - 1];
      LatestFromFront(t, init);
      assert init[1..] == ops[1..][..|ops[1..]| - 1];
    } else {
      assert ops[..0] == [] && ops[1..] == [];
    }
  }

  /**
    After any history a session id is recognised exactly when a session was
    created under it, has not been deleted since and has not expired; and then
    it is that session, with its original user and sign-in time.
   */
  lemma FindSessionMeansSigned(ops: seq<Op>, id: Id, now: Time, t: Time)
    requires ReadsInOrder(ops, t) && LatestReading(t, ops) <= now
    ensures var answer := Evicting(Replay(ops), FindSession(id, now)).1;
            && (answer.TheSession? <==> Signed(ops, id).Some? && !Expired(Signed(ops, id).value.expiresAt, now))
            && (answer.TheSession? ==> answer.session == Signed(ops, id).value)
  {
    ReplayLags(ops, t);
    SimpleKeepsSigned(ops, id);
  }

  // ---- the same for pending requests ----

  /** The request last saved under id and not consumed since. */
  function Parked(history: seq<Op>, id: Id): Option<PendingAuthorize> {
    if history == [] then None
    else
      var op, before := history[|history| - 1], history[..|history| - 1];
      if op.SavePending? && op.id == id then Some(NewPending(op))
      else if op.ConsumePending? && op.id == id then None
      else Parked(before, id)
  }

  /** The store holds the parked request, or has evicted it after its expiry. */
  lemma {:induction false} ParkedOrExpired(ops: seq<Op>, id: Id, t: Time)
    requires ReadsInOrder(ops, t)
    ensures var m, parked := Replay(ops).pending, Parked(ops, id);
            if id in m then parked == Some(m[id]) else parked.Some? ==> Expired(parked.value.expiresAt, LatestReading(t, ops))
    decreases |ops|
  {
    if ops != [] {
      OrderOfPrefix(ops, t);
      ParkedOrExpired(ops[..|ops| - 1], id, t);
    }
  }

  /**
    After any history a pending request is found, and handed out for good,
    exactly when it was saved under this id, has not been consumed since and
    has not expired; and then it is the one that was saved.
   */
  lemma FindPendingMeansParked(ops: seq<Op>, id: Id, now: Time, t: Time)
    requires ReadsInOrder(ops, t) && LatestReading(t, ops) <= now
    ensures var found, parked := Evicting(Replay(ops), FindPending(id, now)).1, Parked(ops, id);
            && found == Evicting(Replay(ops), ConsumePending(id, now)).1
            && (found.ThePending? <==> parked.Some? && !Expired(parked.value.expiresAt, now))
            && (found.ThePending? ==> found.pending == parked.value)
  {
    ParkedOrExpired(ops, id, t);
  }

  // ---- pending requests are consumed at most once ----

  /** Positions at which a pending request was handed out for good. */
  function Consumptions(s: Store, ops: seq<Op>, id: Id): nat
    decreases |ops|
  {
    if ops == [] then 0
    else
      var (s', a) := Evicting(s, ops[0]);
      (if ops[0].ConsumePending? && ops[0].id == id && a.ThePending? then 1 else 0) + Consumptions(s', ops[1..], id)
  }

  predicate Saves(op: Op, id: Id) { op.SavePending? && op.id == id }

  function SaveCount(ops: seq<Op>, id: Id): nat {
    if ops == [] then 0 else (if Saves(ops[0], id) then 1 else 0) + SaveCount(ops[1..], id)
  }

  /**
    A pending request is consumed at most once per time it was saved; ids are
    random, so at most once, and nothing reads it afterwards.
   */
  lemma {:induction false} ConsumedAtMostOnce(s: Store, ops: seq<Op>, id: Id)
    ensures Consumptions(s, ops, id) <= SaveCount(ops, id) + (if id in s.pending then 1 else 0)
    decreases |ops|
  {
    if ops != [] {
      ConsumedAtMostOnce(Evicting(s, ops[0]).0, ops[1..], id);
    }
  }
}
