/**
  The migrator's role and database provisioning under concurrent runs: a
  CREATE that may lose a race, and an ALTER ROLE retried a bounded number of
  times when another run's ALTER commits during the attempt.
 */
module RoleEnsurer {
  import opened Wrappers

  // ---- server errors ----

  datatype DbError = PgError(code: string, message: string, constraint: string, table: string) | OtherError

  const PG_DUPLICATE_OBJECT := "42710"
  const PG_INTERNAL_ERROR := "XX000"
  const PG_DUPLICATE_DATABASE := "42P04"
  const PG_UNIQUE_VIOLATION := "23505"
  const PG_DATABASE_NAME_INDEX := "pg_database_datname_index"
  const PG_DATABASE_CATALOG := "pg_database"
  const TUPLE_UPDATED := "tuple concurrently updated"

  /** strings.Contains. */
  predicate Contains(s: string, part: string) {
    part <= s || (s != "" && Contains(s[1..], part))
  }

  predicate IsDuplicateRole(e: DbError) { e.PgError? && e.code == PG_DUPLICATE_OBJECT }

  predicate IsConcurrentCatalogUpdate(e: DbError) {
    e.PgError? && e.code == PG_INTERNAL_ERROR && Contains(e.message, TUPLE_UPDATED)
  }

  predicate IsDuplicateDatabase(e: DbError) {
    && e.PgError?
    && (|| e.code == PG_DUPLICATE_DATABASE
        || (e.code == PG_UNIQUE_VIOLATION
            && (e.constraint == PG_DATABASE_NAME_INDEX || e.table == PG_DATABASE_CATALOG)))
  }

  const MAX_PASSWORD_SYNC_ATTEMPTS := 5

  // ---- the programs as they run ----

  datatype Failure = CheckFailed | CreateFailed | PasswordFailed | Cancelled | Exhausted

  /** What the server answers to one run, call by call; cancelled says whether the context ends in the pause after an attempt. */
  datatype Answers = Answers(
    present: Result<bool, DbError>,
    create: Option<DbError>,
    recheck: Result<bool, DbError>,
    alters: seq<Option<DbError>>,
    cancelled: seq<bool>
  )

  /** The role was there, was created, or a failed CREATE met duplicate_object or a role after all. */
  predicate RoleProvided(ans: Answers) {
    || ans.present == Ok(true)
    || (ans.present == Ok(false)
        && (|| ans.create.None?
            || (ans.create.value.PgError? && ans.create.value.code == "42710")
            || ans.recheck == Ok(true)))
  }

  /** The same for a database: duplicate_database, or a unique violation in the catalog of databases. */
  predicate DatabaseProvided(ans: Answers) {
    || ans.present == Ok(true)
    || (ans.present == Ok(false)
        && (|| ans.create.None?
            || (ans.create.value.PgError? && ans.create.value.code == "42P04")
            || (ans.create.value.PgError? && ans.create.value.code == "23505"
                && (ans.create.value.constraint == "pg_database_datname_index" || ans.create.value.table == "pg_database"))
            || ans.recheck == Ok(true)))
  }

  /** An internal error whose message has these words somewhere. */
  ghost predicate Overtaken(e: DbError) {
    e.PgError? && e.code == "XX000" && exists i: nat :: HasAt(e.message, "tuple concurrently updated", i)
  }

  predicate HasAt(s: string, part: string, i: nat) { i + |part| <= |s| && s[i..i + |part|] == part }

  lemma SliceBehind(s: string, i: nat, n: nat)
    requires 1 + i + n <= |s|
    ensures s[1..][i..i + n] == s[i + 1..i + 1 + n]
  {
  }

  lemma {:induction false} ContainsExactly(s: string, part: string)
    ensures Contains(s, part) <==> exists i: nat :: HasAt(s, part, i)
  {
    if part <= s {
      assert HasAt(s, part, 0);
    } else if s != "" {
      ContainsExactly(s[1..], part);
      if i: nat :| HasAt(s[1..], part, i) {
        SliceBehind(s, i, |part|);
        assert HasAt(s, part, i + 1);
      }
      if i: nat :| HasAt(s, part, i) {
        assert i > 0;
        SliceBehind(s, i - 1, |part|);
        assert HasAt(s[1..], part, i - 1);
      }
    }
  }

  lemma OvertakenExactly(e: DbError)
    ensures IsConcurrentCatalogUpdate(e) <==> Overtaken(e)
  {
    hide Contains;
    if e.PgError? { ContainsExactly(e.message, TUPLE_UPDATED); }
  }

  /** Attempt k is lost to a concurrent update and followed by another. */
  ghost predicate Retried(ans: Answers, k: nat)
    requires k < |ans.alters| && k < |ans.cancelled|
  {
    ans.alters[k].Some? && Overtaken(ans.alters[k].value) && !ans.cancelled[k]
  }

  /** The attempts before the k-th are retried, and the k-th is the last. */
  ghost predicate EndsAt(ans: Answers, k: nat)
    requires |ans.alters| == |ans.cancelled| == 5
  {
    k < 5 && !Retried(ans, k) && forall j :: 0 <= j < k ==> Retried(ans, j)
  }

  lemma EndsOnce(ans: Answers, k: nat)
    requires |ans.alters| == |ans.cancelled| == 5 && EndsAt(ans, k)
    ensures forall j: nat :: EndsAt(ans, j) ==> j == k
  {
  }

  /** The result these answers lead to: decided by the first attempt that is not retried, if there is one. */
  ghost predicate EndsWith(ans: Answers, r: Result<(), Failure>)
    requires |ans.alters| == |ans.cancelled| == 5
  {
    match r
    case Err(CheckFailed) => ans.present.Err?
    case Err(CreateFailed) => ans.present == Ok(false) && !RoleProvided(ans)
    case Ok(_) => RoleProvided(ans) && exists k: nat :: EndsAt(ans, k) && ans.alters[k].None?
    case Err(PasswordFailed) =>
      RoleProvided(ans) && exists k: nat :: EndsAt(ans, k) && ans.alters[k].Some? && !Overtaken(ans.alters[k].value)
    case Err(Cancelled) =>
      RoleProvided(ans) && exists k: nat :: EndsAt(ans, k) && ans.alters[k].Some? && Overtaken(ans.alters[k].value)
    case Err(Exhausted) => RoleProvided(ans) && forall j :: 0 <= j < 5 ==> Retried(ans, j)
  }

  /** ensureRole. */
  method EnsureRole(ans: Answers) returns (r: Result<(), Failure>)
    requires |ans.alters| == |ans.cancelled| == 5
    ensures EndsWith(ans, r) && forall q :: EndsWith(ans, q) ==> q.Ok? == r.Ok? && (q.Err? ==> q == r)
  {
    hide IsConcurrentCatalogUpdate, Overtaken;
    if ans.present.Err? { return Err(CheckFailed); }
    if !ans.present.value {
      if ans.create.Some? && !IsDuplicateRole(ans.create.value) {
        if ans.recheck != Ok(true) { return Err(CreateFailed); }
      }
    }
    for attempt := 0 to MAX_PASSWORD_SYNC_ATTEMPTS
      invariant forall j :: 0 <= j < attempt ==> Retried(ans, j)
    {
      if ans.alters[attempt].None? {
        EndsOnce(ans, attempt);
        return Ok(());
      }
      OvertakenExactly(ans.alters[attempt].value);
      if !IsConcurrentCatalogUpdate(ans.alters[attempt].value) {
        EndsOnce(ans, attempt);
        return Err(PasswordFailed);
      }
      if ans.cancelled[attempt] {
        EndsOnce(ans, attempt);
        return Err(Cancelled);
      }
    }
    return Err(Exhausted);
  }

  /** ensureDatabase. */
  method EnsureDatabase(ans: Answers) returns (r: Result<(), Failure>)
    ensures r == if ans.present.Err? then Err(CheckFailed) else if DatabaseProvided(ans) then Ok(()) else Err(CreateFailed)
  {
    if ans.present.Err? { return Err(CheckFailed); }
    if ans.present.value { return Ok(()); }
    if ans.create.Some? {
      if IsDuplicateDatabase(ans.create.value) { return Ok(()); }
      if ans.recheck == Ok(true) { return Ok(()); }
      return Err(CreateFailed);
    }
    return Ok(());
  }

  // ---- concurrent runs ----

  datatype Migrator = Migrator(n: int)

  /**
    Where a run of ensureRole stands. After each lost attempt, the last
    included, it pauses; since is the number of ALTERs committed when the
    attempt began.
   */
  datatype Proc =
    | Checking
    | Creating
    | Rechecking
    | Pausing(attempt: nat)
    | Altering(attempt: nat, since: nat)
    | Done
    | Failed(why: Failure)

  datatype State = State(roleExists: bool, commits: nat, procs: map<Migrator, Proc>)

  /** BeginAlter ends a pause: with the next attempt, or with giving up when there is none left. */
  datatype Action =
    | Check(m: Migrator, broken: bool)
    | Create(m: Migrator, error: Option<DbError>)
    | Recheck(m: Migrator, broken: bool)
    | BeginAlter(m: Migrator)
    | EndAlter(m: Migrator, error: Option<DbError>)
    | Cancel(m: Migrator)

  /**
    What the server may answer: CREATE succeeds only while there is no such
    role, duplicate_object only when there is one, and "tuple concurrently
    updated" only if another ALTER committed during the attempt.
   */
  predicate Enabled(s: State, a: Action) {
    && a.m in s.procs
    && match a
       case Check(m, _) => s.procs[m].Checking?
       case Create(m, error) =>
         && s.procs[m].Creating?
         && (error.None? ==> !s.roleExists)
         && (error.Some? && IsDuplicateRole(error.value) ==> s.roleExists)
       case Recheck(m, _) => s.procs[m].Rechecking?
       case BeginAlter(m) => s.procs[m].Pausing?
       case EndAlter(m, error) =>
         && s.procs[m].Altering?
         && (error.Some? && IsConcurrentCatalogUpdate(error.value) ==> s.procs[m].since < s.commits)
       case Cancel(m) => s.procs[m].Pausing? && s.procs[m].attempt > 0
  }

  function To(s: State, m: Migrator, p: Proc): State { s.(procs := s.procs[m := p]) }

  function Apply(s: State, a: Action): State
    requires Enabled(s, a)
  {
    match a
    case Check(m, broken) =>
      To(s, m, if broken then Failed(CheckFailed) else if s.roleExists then Pausing(0) else Creating)
    case Create(m, error) =>
      if error.None? then To(s.(roleExists := true), m, Pausing(0))
      else To(s, m, if IsDuplicateRole(error.value) then Pausing(0) else Rechecking)
    case Recheck(m, broken) => To(s, m, if broken || !s.roleExists then Failed(CreateFailed) else Pausing(0))
    case BeginAlter(m) =>
      var attempt := s.procs[m].attempt;
      To(s, m, if attempt < MAX_PASSWORD_SYNC_ATTEMPTS then Altering(attempt, s.commits) else Failed(Exhausted))
    case EndAlter(m, error) =>
      if error.None? then To(s.(commits := s.commits + 1), m, Done)
      else if !IsConcurrentCatalogUpdate(error.value) then To(s, m, Failed(PasswordFailed))
      else To(s, m, Pausing(s.procs[m].attempt + 1))
    case Cancel(m) => To(s, m, Failed(Cancelled))
  }

  ghost predicate Initial(s: State) {
    s.commits == 0 && forall m :: m in s.procs ==> s.procs[m] == Checking
  }

  ghost predicate Legal(s: State, acts: seq<Action>)
    decreases |acts|
  {
    acts != [] ==> Enabled(s, acts[0]) && Legal(Apply(s, acts[0]), acts[1..])
  }

  ghost function Run(s: State, acts: seq<Action>): State
    requires Legal(s, acts)
    decreases |acts|
  {
    if acts == [] then s else Run(Apply(s, acts[0]), acts[1..])
  }

  // ---- a run among others is ensureRole ----

  /** What the server has answered one run so far. */
  datatype Heard = Heard(
    present: Option<Result<bool, DbError>>,
    create: Option<Option<DbError>>,
    recheck: Option<Result<bool, DbError>>,
    alters: seq<Option<DbError>>,
    cancelled: seq<bool>
  )

  const NOTHING := Heard(None, None, None, [], [])

  function Hears(h: Heard, s: State, a: Action): Heard
    requires Enabled(s, a)
  {
    match a
    case Check(_, broken) => h.(present := Some(if broken then Err(OtherError) else Ok(s.roleExists)))
    case Create(_, error) => h.(create := Some(error))
    case Recheck(_, broken) => h.(recheck := Some(if broken then Err(OtherError) else Ok(s.roleExists)))
    case BeginAlter(m) => if s.procs[m].attempt > 0 then h.(cancelled := h.cancelled + [false]) else h
    case EndAlter(_, error) => h.(alters := h.alters + [error])
    case Cancel(_) => h.(cancelled := h.cancelled + [true])
  }

  ghost function HeardIn(h: Heard, s: State, acts: seq<Action>, m: Migrator): Heard
    requires Legal(s, acts)
    decreases |acts|
  {
    if acts == [] then h
    else HeardIn(if acts[0].m == m then Hears(h, s, acts[0]) else h, Apply(s, acts[0]), acts[1..], m)
  }

  /** ans gives every answer in h. */
  ghost predicate Gives(ans: Answers, h: Heard) {
    && (h.present.Some? ==> ans.present == h.present.value)
    && (h.create.Some? ==> ans.create == h.create.value)
    && (h.recheck.Some? ==> ans.recheck == h.recheck.value)
    && h.alters <= ans.alters && h.cancelled <= ans.cancelled
  }

  ghost predicate Provided(h: Heard) {
    || h.present == Some(Ok(true))
    || (h.present == Some(Ok(false)) && h.create.Some?
        && (|| h.create.value.None?
            || (h.create.value.value.PgError? && h.create.value.value.code == "42710")
            || h.recheck == Some(Ok(true))))
  }

  /** The first n attempts were all overtaken, and the pauses behind them sat out. */
  ghost predicate Lost(h: Heard, n: nat, pauses: nat) {
    && n <= |h.alters| && pauses <= |h.cancelled|
    && (forall i :: 0 <= i < n ==> h.alters[i].Some? && Overtaken(h.alters[i].value))
    && (forall i :: 0 <= i < pauses ==> !h.cancelled[i])
  }

  /** How far a run is, by what it has heard. */
  ghost predicate Follows(p: Proc, h: Heard) {
    match p
    case Checking => h == NOTHING
    case Creating => h == NOTHING.(present := Some(Ok(false)))
    case Rechecking =>
      && h == NOTHING.(present := Some(Ok(false)), create := h.create) && h.create.Some? && h.create.value.Some?
      && !(h.create.value.value.PgError? && h.create.value.value.code == "42710")
    case Pausing(n) =>
      n <= 5 && Provided(h) && |h.alters| == n && |h.cancelled| == (if n == 0 then 0 else n - 1) && Lost(h, n, |h.cancelled|)
    case Altering(n, _) => n < 5 && Provided(h) && |h.alters| == |h.cancelled| == n && Lost(h, n, n)
    case Done =>
      && Provided(h) && |h.alters| == |h.cancelled| + 1 && Lost(h, |h.cancelled|, |h.cancelled|)
      && h.alters[|h.cancelled|].None?
    case Failed(CheckFailed) => h.present.Some? && h.present.value.Err?
    case Failed(CreateFailed) =>
      && h.present == Some(Ok(false)) && h.create.Some? && h.create.value.Some? && h.recheck.Some? && !Provided(h)
    case Failed(PasswordFailed) =>
      && Provided(h) && |h.alters| == |h.cancelled| + 1 && Lost(h, |h.cancelled|, |h.cancelled|)
      && h.alters[|h.cancelled|].Some? && !Overtaken(h.alters[|h.cancelled|].value)
    case Failed(Cancelled) =>
      && Provided(h) && 0 < |h.alters| == |h.cancelled| <= 5
      && Lost(h, |h.alters|, |h.alters| - 1) && h.cancelled[|h.alters| - 1]
    case Failed(Exhausted) => Provided(h) && |h.alters| == |h.cancelled| == 5 && Lost(h, 5, 5)
  }

  lemma StepFollows(s: State, a: Action, h: Heard)
    requires Enabled(s, a) && Follows(s.procs[a.m], h)
    ensures Follows(Apply(s, a).procs[a.m], Hears(h, s, a))
  {
    hide IsConcurrentCatalogUpdate, Overtaken;
    if a.EndAlter? && a.error.Some? { OvertakenExactly(a.error.value); }
  }

  lemma {:induction false} RunFollows(s: State, acts: seq<Action>, m: Migrator, h: Heard)
    requires Legal(s, acts) && m in s.procs && Follows(s.procs[m], h)
    ensures m in Run(s, acts).procs && Follows(Run(s, acts).procs[m], HeardIn(h, s, acts, m))
    decreases |acts|
  {
    if acts != [] {
      var a := acts[0];
      assert a.m != m ==> m in Apply(s, a).procs && Apply(s, a).procs[m] == s.procs[m];
      if a.m == m { StepFollows(s, a, h); }
      hide Follows, Enabled, Apply, Hears;
      RunFollows(Apply(s, a), acts[1..], m, if a.m == m then Hears(h, s, a) else h);
    }
  }

  lemma FollowedEnds(p: Proc, h: Heard, ans: Answers)
    requires Follows(p, h) && Gives(ans, h) && |ans.alters| == |ans.cancelled| == 5
    ensures p.Done? ==> EndsWith(ans, Ok(()))
    ensures p.Failed? ==> EndsWith(ans, Err(p.why))
  {
    hide Overtaken;
    var k := |h.cancelled|;
    if p.Done? || p == Failed(PasswordFailed) { assert EndsAt(ans, k); }
    if p == Failed(Cancelled) { assert EndsAt(ans, k - 1); }
  }

  /**
    Among any others, a run that ends does so with the result ensureRole has
    on the answers it got.
   */
  lemma RunsEndAsEnsureRole(s: State, acts: seq<Action>, m: Migrator, ans: Answers)
    requires Initial(s) && Legal(s, acts) && m in s.procs
    requires |ans.alters| == |ans.cancelled| == 5 && Gives(ans, HeardIn(NOTHING, s, acts, m))
    ensures m in Run(s, acts).procs
    ensures var p := Run(s, acts).procs[m];
            (p.Done? ==> EndsWith(ans, Ok(()))) && (p.Failed? ==> EndsWith(ans, Err(p.why)))
  {
    hide EndsWith, Gives;
    RunFollows(s, acts, m, NOTHING);
    FollowedEnds(Run(s, acts).procs[m], HeardIn(NOTHING, s, acts, m), ans);
  }

  // ---- the retry bound ----

  ghost function DoneSet(s: State): set<Migrator> { set m | m in s.procs && s.procs[m].Done? }

  /** Every lost attempt is matched by a commit of some other run that has since ended. */
  ghost predicate Matched(s: State) {
    && s.commits == |DoneSet(s)|
    && forall m :: m in s.procs ==>
         && (s.procs[m].Pausing? ==> s.procs[m].attempt <= s.commits)
         && (s.procs[m].Altering? ==> s.procs[m].attempt <= s.procs[m].since <= s.commits)
  }

  lemma DoneAfter(s: State, a: Action)
    requires Enabled(s, a)
    ensures var s' := Apply(s, a);
            && s'.procs.Keys == s.procs.Keys
            && DoneSet(s') == DoneSet(s) + (if s'.procs[a.m].Done? then {a.m} else {})
            && a.m !in DoneSet(s)
  {
    hide IsConcurrentCatalogUpdate, IsDuplicateRole;
  }

  lemma StepKeepsMatched(s: State, a: Action)
    requires Enabled(s, a) && Matched(s)
    ensures Matched(Apply(s, a))
  {
    hide IsConcurrentCatalogUpdate, IsDuplicateRole, DoneSet;
    DoneAfter(s, a);
  }

  /** One step exhausts a run only if five others have committed. */
  lemma ExhaustionNeedsFiveOthers(s: State, a: Action)
    requires Enabled(s, a) && Matched(s) && Apply(s, a).procs[a.m] == Failed(Exhausted)
    ensures |s.procs| > MAX_PASSWORD_SYNC_ATTEMPTS
  {
    hide IsConcurrentCatalogUpdate, IsDuplicateRole;
    DoneAfter(s, a);
    var others := s.procs.Keys - {a.m};
    assert DoneSet(s) <= others;
    SubsetSize(DoneSet(s), others);
    assert |others| == |s.procs.Keys| - 1;
  }

  lemma {:induction false} SubsetSize(a: set<Migrator>, b: set<Migrator>)
    requires a <= b
    ensures |a| <= |b|
  {
    if a != {} {
      var x :| x in a;
      SubsetSize(a - {x}, b - {x});
    }
  }

  ghost predicate NoneExhausted(s: State) {
    forall m :: m in s.procs ==> s.procs[m] != Failed(Exhausted)
  }

  lemma {:induction false} RunNeverExhausts(s: State, acts: seq<Action>)
    requires Legal(s, acts) && Matched(s) && NoneExhausted(s) && |s.procs| <= MAX_PASSWORD_SYNC_ATTEMPTS
    ensures NoneExhausted(Run(s, acts)) && Matched(Run(s, acts)) && Run(s, acts).procs.Keys == s.procs.Keys
    decreases |acts|
  {
    hide Matched;
    if acts != [] {
      var a := acts[0];
      var s' := Apply(s, a);
      StepKeepsMatched(s, a);
      DoneAfter(s, a);
      if s'.procs[a.m] == Failed(Exhausted) { ExhaustionNeedsFiveOthers(s, a); }
      assert NoneExhausted(s') by {
        forall m | m in s'.procs ensures s'.procs[m] != Failed(Exhausted) {
          if m != a.m { assert s'.procs[m] == s.procs[m]; }
        }
      }
      assert |s'.procs.Keys| == |s'.procs| && |s.procs.Keys| == |s.procs|;
      RunNeverExhausts(s', acts[1..]);
    }
  }

  /**
    The retry bound: with at most five concurrent runs, under every
    interleaving, none uses up its five attempts.
   */
  lemma FiveRunsNeverExhaust(s: State, acts: seq<Action>)
    requires Initial(s) && |s.procs| <= MAX_PASSWORD_SYNC_ATTEMPTS && Legal(s, acts)
    ensures NoneExhausted(Run(s, acts))
  {
    assert DoneSet(s) == {};
    RunNeverExhausts(s, acts);
  }

  lemma Prepend(s: State, a: Action, rest: seq<Action>)
    requires Enabled(s, a) && Legal(Apply(s, a), rest)
    ensures Legal(s, [a] + rest) && Run(s, [a] + rest) == Run(Apply(s, a), rest)
  {
    assert ([a] + rest)[1..] == rest;
  }

  /** One run loses an attempt to each of the others in turn. */
  lemma {:induction false} LosesTo(s: State, me: Migrator, others: seq<Migrator>, k: nat) returns (acts: seq<Action>)
    requires me in s.procs && s.procs[me] == Pausing(k) && k + |others| == MAX_PASSWORD_SYNC_ATTEMPTS
    requires k < MAX_PASSWORD_SYNC_ATTEMPTS && me !in others
    requires forall i :: 0 <= i < |others| ==> others[i] in s.procs && s.procs[others[i]] == Pausing(0)
    requires forall i, j :: 0 <= i < j < |others| ==> others[i] != others[j]
    ensures Legal(s, acts) && me in Run(s, acts).procs && Run(s, acts).procs[me] == Failed(Exhausted)
    decreases |others|
  {
    var race := PgError(PG_INTERNAL_ERROR, TUPLE_UPDATED, "", "");
    assert IsConcurrentCatalogUpdate(race);
    hide IsConcurrentCatalogUpdate, Legal, Run;
    var other := others[0];
    var s1 := Apply(s, BeginAlter(me));
    var s2 := Apply(s1, BeginAlter(other));
    var s3 := Apply(s2, EndAlter(other, None));
    var s4 := Apply(s3, EndAlter(me, Some(race)));
    var rest: seq<Action>;
    if |others| > 1 {
      rest := LosesTo(s4, me, others[1..], k + 1);
    } else {
      RunsNowhere(Apply(s4, BeginAlter(me)));
      Prepend(s4, BeginAlter(me), []);
      rest := [BeginAlter(me)] + [];
    }
    Prepend(s3, EndAlter(me, Some(race)), rest);
    var last := [EndAlter(me, Some(race))] + rest;
    Prepend(s2, EndAlter(other, None), last);
    Prepend(s1, BeginAlter(other), [EndAlter(other, None)] + last);
    acts := [BeginAlter(me)] + ([BeginAlter(other)] + ([EndAlter(other, None)] + last));
    Prepend(s, BeginAlter(me), [BeginAlter(other)] + ([EndAlter(other, None)] + last));
  }

  lemma RunsNowhere(s: State)
    ensures Legal(s, []) && Run(s, []) == s
  {
  }

  /** All of ms find the role and go on to their first attempt, and from there anything legal may follow. */
  lemma {:induction false} AllCheck(s: State, ms: seq<Migrator>, rest: seq<Action>) returns (acts: seq<Action>)
    requires s.roleExists && forall i :: 0 <= i < |ms| ==> ms[i] in s.procs && s.procs[ms[i]] == Checking
    requires forall i, j :: 0 <= i < j < |ms| ==> ms[i] != ms[j]
    requires Legal(Checked(s, ms), rest)
    ensures Legal(s, acts) && Run(s, acts) == Run(Checked(s, ms), rest)
    decreases |ms|
  {
    hide Legal, Run;
    if ms == [] {
      acts := rest;
      assert Checked(s, ms) == s;
    } else {
      var s1 := Apply(s, Check(ms[0], false));
      assert Checked(s1, ms[1..]) == Checked(s, ms) by { CheckedStep(s, s1, ms); }
      acts := AllCheck(s1, ms[1..], rest);
      Prepend(s, Check(ms[0], false), acts);
      acts := [Check(ms[0], false)] + acts;
    }
  }

  /** s after all of ms have found the role. */
  ghost function Checked(s: State, ms: seq<Migrator>): State {
    s.(procs := map m | m in s.procs :: if m in ms then Pausing(0) else s.procs[m])
  }

  lemma CheckedStep(s: State, s1: State, ms: seq<Migrator>)
    requires ms != [] && ms[0] in s.procs && s1 == s.(procs := s.procs[ms[0] := Pausing(0)])
    requires forall i, j :: 0 <= i < j < |ms| ==> ms[i] != ms[j]
    ensures Checked(s1, ms[1..]) == Checked(s, ms)
  {
    forall m | m in s.procs ensures m in ms <==> m == ms[0] || m in ms[1..] {}
    assert Checked(s1, ms[1..]).procs == Checked(s, ms).procs;
  }

  lemma {:induction false} DistinctSize(ms: seq<Migrator>)
    requires forall i, j :: 0 <= i < j < |ms| ==> ms[i] != ms[j]
    ensures |set m | m in ms| == |ms|
  {
    if ms != [] {
      DistinctSize(ms[1..]);
      assert (set m | m in ms) == (set m | m in ms[1..]) + {ms[0]};
    }
  }

  /** The bound is tight: of six runs started together, one may lose all its attempts to the five others. */
  lemma SixRunsCanExhaust() returns (s: State, acts: seq<Action>)
    ensures Initial(s) && |s.procs| == MAX_PASSWORD_SYNC_ATTEMPTS + 1
    ensures Legal(s, acts) && !NoneExhausted(Run(s, acts))
  {
    hide Legal, Run;
    var ms := seq(MAX_PASSWORD_SYNC_ATTEMPTS + 1, i => Migrator(i));
    s := State(true, 0, map m | m in ms :: Checking);
    DistinctSize(ms);
    assert s.procs.Keys == (set m | m in ms) && |s.procs| == |s.procs.Keys|;
    var s1 := Checked(s, ms);
    forall i | 0 <= i < |ms| ensures ms[i] in s1.procs && s1.procs[ms[i]] == Pausing(0) { assert ms[i] in ms; }
    acts := LosesTo(s1, ms[0], ms[1..], 0);
    acts := AllCheck(s, ms, acts);
  }

  // ---- the CREATE race ----

  /** The role never goes away, and once it is there no run fails to create it unless the re-check itself breaks. */
  lemma CreateRaceIsBenign(s: State, a: Action)
    requires Enabled(s, a) && s.roleExists
    ensures Apply(s, a).roleExists
    ensures Apply(s, a).procs[a.m] == Failed(CreateFailed) ==> a.Recheck? && a.broken
  {
    hide IsConcurrentCatalogUpdate, IsDuplicateRole;
  }

  /** Nothing goes wrong but the two races: no other error, no broken query, no cancellation. */
  ghost predicate Quiet(s: State, a: Action) {
    match a
    case Check(_, broken) => !broken
    case Recheck(_, broken) => !broken
    case Create(_, error) => error.Some? ==> s.roleExists
    case EndAlter(_, error) => error.Some? ==> IsConcurrentCatalogUpdate(error.value)
    case BeginAlter(_) => true
    case Cancel(_) => false
  }

  ghost predicate QuietRun(s: State, acts: seq<Action>)
    requires Legal(s, acts)
    decreases |acts|
  {
    acts != [] ==> Quiet(s, acts[0]) && QuietRun(Apply(s, acts[0]), acts[1..])
  }

  /** Steps a run still has before it; every step of a run uses one up. */
  function StepsLeft(p: Proc): nat {
    match p
    case Checking => 2 * MAX_PASSWORD_SYNC_ATTEMPTS + 4
    case Creating => 2 * MAX_PASSWORD_SYNC_ATTEMPTS + 3
    case Rechecking => 2 * MAX_PASSWORD_SYNC_ATTEMPTS + 2
    case Pausing(k) => if k < MAX_PASSWORD_SYNC_ATTEMPTS then 2 * (MAX_PASSWORD_SYNC_ATTEMPTS - k) + 1 else 1
    case Altering(k, _) => if k < MAX_PASSWORD_SYNC_ATTEMPTS then 2 * (MAX_PASSWORD_SYNC_ATTEMPTS - k) else 1
    case Done => 0
    case Failed(_) => 0
  }

  /** Every run ends: each of its steps uses up one of at most fourteen. */
  lemma StepsRunOut(s: State, a: Action)
    requires Enabled(s, a) && (s.procs[a.m].Pausing? ==> s.procs[a.m].attempt <= MAX_PASSWORD_SYNC_ATTEMPTS)
    requires s.procs[a.m].Altering? ==> s.procs[a.m].attempt < MAX_PASSWORD_SYNC_ATTEMPTS
    ensures StepsLeft(Apply(s, a).procs[a.m]) < StepsLeft(s.procs[a.m]) <= 14
  {
    hide IsConcurrentCatalogUpdate, IsDuplicateRole;
  }

  /** And it is never stuck: until it has ended, some step of it is possible, and a quiet one. */
  lemma CanStep(s: State, m: Migrator) returns (a: Action)
    requires m in s.procs && !s.procs[m].Done? && !s.procs[m].Failed?
    ensures Enabled(s, a) && a.m == m && Quiet(s, a)
  {
    var duplicate := PgError(PG_DUPLICATE_OBJECT, "", "", "");
    assert IsDuplicateRole(duplicate);
    hide IsConcurrentCatalogUpdate, IsDuplicateRole;
    a := match s.procs[m]
      case Checking => Check(m, false)
      case Creating => Create(m, if s.roleExists then Some(duplicate) else None)
      case Rechecking => Recheck(m, false)
      case Pausing(_) => BeginAlter(m)
      case _ => EndAlter(m, None);
  }

  ghost predicate OnTrack(s: State) {
    forall m :: m in s.procs ==>
      && (s.procs[m].Failed? ==> s.procs[m].why == Exhausted)
      && (s.procs[m].Rechecking? ==> s.roleExists)
      && (s.procs[m].Done? || s.procs[m].Pausing? || s.procs[m].Altering? ==> s.roleExists)
  }

  lemma {:induction false} QuietRunStaysOnTrack(s: State, acts: seq<Action>)
    requires Legal(s, acts) && QuietRun(s, acts) && OnTrack(s)
    ensures OnTrack(Run(s, acts))
    decreases |acts|
  {
    hide IsConcurrentCatalogUpdate, IsDuplicateRole;
    if acts != [] { QuietRunStaysOnTrack(Apply(s, acts[0]), acts[1..]); }
  }

  /**
    Up to five concurrent runs that meet nothing but each other: no run ever
    fails, so all that have ended have succeeded and the role is there.
   */
  lemma FiveQuietRunsSucceed(s: State, acts: seq<Action>)
    requires Initial(s) && |s.procs| <= MAX_PASSWORD_SYNC_ATTEMPTS && Legal(s, acts) && QuietRun(s, acts)
    ensures forall m :: m in Run(s, acts).procs ==>
              !Run(s, acts).procs[m].Failed? && (Run(s, acts).procs[m].Done? ==> Run(s, acts).roleExists)
  {
    FiveRunsNeverExhaust(s, acts);
    QuietRunStaysOnTrack(s, acts);
  }

  // ---- all of them succeed ----

  /** No run stands at an attempt it does not have. */
  ghost predicate WithinAttempts(s: State) {
    forall m :: m in s.procs ==>
      && (s.procs[m].Pausing? ==> s.procs[m].attempt <= MAX_PASSWORD_SYNC_ATTEMPTS)
      && (s.procs[m].Altering? ==> s.procs[m].attempt < MAX_PASSWORD_SYNC_ATTEMPTS)
  }

  lemma StepKeepsAttempts(s: State, a: Action)
    requires Enabled(s, a) && WithinAttempts(s)
    ensures WithinAttempts(Apply(s, a))
  {
    hide IsConcurrentCatalogUpdate, IsDuplicateRole;
  }

  /** Steps all runs of ms together still have before them. */
  function TotalLeft(s: State, ms: seq<Migrator>): nat
    requires forall i :: 0 <= i < |ms| ==> ms[i] in s.procs
  {
    if ms == [] then 0 else StepsLeft(s.procs[ms[0]]) + TotalLeft(s, ms[1..])
  }

  ghost predicate Lists(ms: seq<Migrator>, s: State) {
    && (forall i :: 0 <= i < |ms| ==> ms[i] in s.procs)
    && (forall i, j :: 0 <= i < j < |ms| ==> ms[i] != ms[j])
    && (forall m :: m in s.procs ==> m in ms)
  }

  /** A step of one run takes from the total what it takes from that run. */
  lemma {:induction false} TotalDrops(s: State, s': State, m: Migrator, ms: seq<Migrator>)
    requires m in s.procs && s'.procs.Keys == s.procs.Keys
    requires forall q :: q in s.procs && q != m ==> s'.procs[q] == s.procs[q]
    requires forall i :: 0 <= i < |ms| ==> ms[i] in s.procs
    requires forall i, j :: 0 <= i < j < |ms| ==> ms[i] != ms[j]
    ensures TotalLeft(s', ms) == TotalLeft(s, ms) + if m in ms then StepsLeft(s'.procs[m]) - StepsLeft(s.procs[m]) else 0
    decreases |ms|
  {
    hide StepsLeft;
    if ms != [] {
      TotalDrops(s, s', m, ms[1..]);
      assert m in ms <==> m == ms[0] || m in ms[1..];
    }
  }

  lemma StepUsesOne(s: State, a: Action, ms: seq<Migrator>)
    requires Enabled(s, a) && WithinAttempts(s) && Lists(ms, s)
    ensures Lists(ms, Apply(s, a)) && TotalLeft(Apply(s, a), ms) < TotalLeft(s, ms)
  {
    hide IsConcurrentCatalogUpdate, IsDuplicateRole, StepsLeft, TotalLeft;
    StepsRunOut(s, a);
    TotalDrops(s, Apply(s, a), a.m, ms);
  }

  lemma {:induction false} RunUsesItsLength(s: State, acts: seq<Action>, ms: seq<Migrator>)
    requires Legal(s, acts) && WithinAttempts(s) && Lists(ms, s)
    ensures Lists(ms, Run(s, acts)) && |acts| + TotalLeft(Run(s, acts), ms) <= TotalLeft(s, ms)
    ensures WithinAttempts(Run(s, acts))
    decreases |acts|
  {
    hide Enabled, Apply, TotalLeft, WithinAttempts, Lists;
    if acts != [] {
      StepUsesOne(s, acts[0], ms);
      StepKeepsAttempts(s, acts[0]);
      RunUsesItsLength(Apply(s, acts[0]), acts[1..], ms);
    }
  }

  lemma {:induction false} StartsWithFourteen(s: State, ms: seq<Migrator>)
    requires Initial(s) && forall i :: 0 <= i < |ms| ==> ms[i] in s.procs
    ensures TotalLeft(s, ms) == 14 * |ms|
  {
    if ms != [] { StartsWithFourteen(s, ms[1..]); }
  }

  lemma {:induction false} ListOf(keys: set<Migrator>) returns (ms: seq<Migrator>)
    ensures |ms| == |keys| && (forall m :: m in ms <==> m in keys)
    ensures forall i, j :: 0 <= i < j < |ms| ==> ms[i] != ms[j]
  {
    if keys == {} {
      ms := [];
    } else {
      var m :| m in keys;
      ms := ListOf(keys - {m});
      ms := [m] + ms;
    }
  }

  /** Quiet steps can be taken until every run has ended. */
  lemma {:induction false} Finish(s: State, ms: seq<Migrator>) returns (acts: seq<Action>)
    requires WithinAttempts(s) && Lists(ms, s)
    ensures Legal(s, acts) && QuietRun(s, acts)
    ensures forall m :: m in Run(s, acts).procs ==> Run(s, acts).procs[m].Done? || Run(s, acts).procs[m].Failed?
    decreases TotalLeft(s, ms)
  {
    hide Enabled, Apply, TotalLeft, Lists, Quiet;
    if m :| m in s.procs && !s.procs[m].Done? && !s.procs[m].Failed? {
      var a := CanStep(s, m);
      StepUsesOne(s, a, ms);
      StepKeepsAttempts(s, a);
      var rest := Finish(Apply(s, a), ms);
      Prepend(s, a, rest);
      assert ([a] + rest)[1..] == rest;
      acts := [a] + rest;
    } else {
      acts := [];
    }
  }

  lemma {:induction false} QuietConcat(s: State, a: seq<Action>, b: seq<Action>)
    requires Legal(s, a) && QuietRun(s, a) && Legal(Run(s, a), b) && QuietRun(Run(s, a), b)
    ensures Legal(s, a + b) && QuietRun(s, a + b) && Run(s, a + b) == Run(Run(s, a), b)
    decreases |a|
  {
    hide Enabled, Apply, Quiet;
    if a == [] {
      assert a + b == b;
    } else {
      assert (a + b)[0] == a[0] && (a + b)[1..] == a[1..] + b;
      QuietConcat(Apply(s, a[0]), a[1..], b);
    }
  }

  /** The same migrators all along. */
  lemma {:induction false} RunKeepsMigrators(s: State, acts: seq<Action>)
    requires Legal(s, acts)
    ensures Run(s, acts).procs.Keys == s.procs.Keys
    decreases |acts|
  {
    if acts != [] {
      DoneAfter(s, acts[0]);
      RunKeepsMigrators(Apply(s, acts[0]), acts[1..]);
    }
  }

  /** No run of any number of migrators is longer than fourteen steps for each. */
  lemma RunsAreShort(s: State, acts: seq<Action>)
    requires Initial(s) && Legal(s, acts)
    ensures |acts| <= 14 * |s.procs|
  {
    var ms := ListOf(s.procs.Keys);
    assert |s.procs.Keys| == |s.procs|;
    StartsWithFourteen(s, ms);
    RunUsesItsLength(s, acts, ms);
  }

  /**
    All of them succeed. However up to five runs that meet nothing but each
    other have interleaved so far, they can go on to a state in which every
    one is done and the role is there, and they get nowhere else: in any such
    run that cannot go on all are done.
   */
  lemma FiveRunsAllSucceed(s: State, acts: seq<Action>) returns (more: seq<Action>)
    requires Initial(s) && |s.procs| <= MAX_PASSWORD_SYNC_ATTEMPTS && Legal(s, acts) && QuietRun(s, acts)
    ensures Legal(s, acts + more) && QuietRun(s, acts + more) && |acts + more| <= 14 * |s.procs|
    ensures Run(s, acts + more).procs.Keys == s.procs.Keys
    ensures forall m :: m in s.procs ==> Run(s, acts + more).procs[m].Done? && Run(s, acts + more).roleExists
    ensures (forall a :: !Enabled(Run(s, acts), a)) ==>
              forall m :: m in s.procs ==> m in Run(s, acts).procs && Run(s, acts).procs[m].Done?
  {
    hide Enabled, Apply, Quiet;
    var ms := ListOf(s.procs.Keys);
    RunUsesItsLength(s, acts, ms);
    more := Finish(Run(s, acts), ms);
    QuietConcat(s, acts, more);
    RunsAreShort(s, acts + more);
    FiveQuietRunsSucceed(s, acts + more);
    FiveQuietRunsSucceed(s, acts);
    RunKeepsMigrators(s, acts + more);
    RunKeepsMigrators(s, acts);
    if forall a :: !Enabled(Run(s, acts), a) {
      forall m | m in s.procs ensures Run(s, acts).procs[m].Done? {
        if !Run(s, acts).procs[m].Done? { var a := CanStep(Run(s, acts), m); }
      }
    }
  }
}
