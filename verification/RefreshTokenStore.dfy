/**
  The refresh_tokens table, the SQL statements on it, and the repository
  built from them. The functions state each repository operation as a whole,
  the way domain/refreshtoken/repository.go promises it; the class runs the
  statements one by one and is proved to do exactly that.
 */
module RefreshTokenStore {
  import opened Wrappers
  import opened Scopes
  import opened Domain

  datatype TokenRow = TokenRow(
    family: FamilyID,
    client: ClientID,
    user: UserID,
    scope: string,
    authTime: Option<Time>,
    expiresAt: Time,
    consumed: bool
  )

  type Rows = map<TokenHash, TokenRow>

  /** WHERE expires_at > now(). */
  predicate Visible(row: TokenRow, now: Time) { row.expiresAt > now }

  predicate Live(rows: Rows, h: TokenHash, now: Time) { h in rows && Visible(rows[h], now) }

  function RowOf(rt: RefreshToken): TokenRow {
    TokenRow(rt.family, rt.client, rt.user, rt.scope.value, rt.authTime, rt.expiresAt, false)
  }

  /** reconstructRefreshToken: a row whose scope does not parse is an internal error. */
  function Reconstruct(h: TokenHash, row: TokenRow): Result<RefreshToken, Error> {
    match ParseRefresh(row.scope)
    case Err(_) => Err(Internal)
    case Ok(sc) => Ok(RefreshToken(h, row.family, row.client, row.user, sc, row.authTime, row.expiresAt, row.consumed))
  }

  // ---- the repository contract ----

  function FindByTokenHash(rows: Rows, h: TokenHash, now: Time): (Rows, Result<RefreshToken, Error>) {
    if Live(rows, h, now) then (rows, Reconstruct(h, rows[h]))
    else (rows - {h}, Err(RefreshNotFound))
  }

  /** A failed insert (a primary key collision) rolls the consumption back. */
  function Rotate(rows: Rows, h: TokenHash, next: RefreshToken, now: Time): (Rows, Result<(), Error>) {
    if !Live(rows, h, now) then (rows, Err(RefreshNotFound))
    else if rows[h].consumed then (rows, Err(RefreshReused))
    else if next.hash in rows then (rows, Err(Internal))
    else (rows[h := rows[h].(consumed := true)][next.hash := RowOf(next)], Ok(()))
  }

  function Save(rows: Rows, rt: RefreshToken): (Rows, Result<(), Error>) {
    if rt.hash in rows then (rows, Err(Internal)) else (rows[rt.hash := RowOf(rt)], Ok(()))
  }

  function RevokeFamily(rows: Rows, f: FamilyID): Rows {
    map h | h in rows && rows[h].family != f :: rows[h]
  }

  function PurgeExpired(rows: Rows, now: Time): Rows {
    map h | h in rows && Visible(rows[h], now) :: rows[h]
  }

  function DropUser(rows: Rows, u: UserID): Rows {
    map h | h in rows && rows[h].user != u :: rows[h]
  }

  function DropClient(rows: Rows, c: ClientID): Rows {
    map h | h in rows && rows[h].client != c :: rows[h]
  }

  // ---- the repository, statement by statement ----

  class RefreshTokenRepository {
    var rows: Rows

    constructor ()
      ensures rows == map[]
    {
      rows := map[];
    }

    // sqlc statements

    method GetRefreshToken(h: TokenHash, now: Time) returns (row: Option<TokenRow>)
      ensures row == if Live(rows, h, now) then Some(rows[h]) else None
    {
      row := if h in rows && rows[h].expiresAt > now then Some(rows[h]) else None;
    }

    method DeleteExpiredRefreshToken(h: TokenHash, now: Time)
      modifies this
      ensures rows == if h in old(rows) && old(rows)[h].expiresAt <= now then old(rows) - {h} else old(rows)
    {
      if h in rows && rows[h].expiresAt <= now { rows := rows - {h}; }
    }

    method ConsumeRefreshToken(h: TokenHash, now: Time) returns (matched: bool)
      modifies this
      ensures matched <==> Live(old(rows), h, now) && !old(rows)[h].consumed
      ensures rows == if matched then old(rows)[h := old(rows)[h].(consumed := true)] else old(rows)
    {
      matched := h in rows && !rows[h].consumed && rows[h].expiresAt > now;
      if matched { rows := rows[h := rows[h].(consumed := true)]; }
    }

    method InsertRefreshToken(rt: RefreshToken) returns (inserted: bool)
      modifies this
      ensures inserted <==> rt.hash !in old(rows)
      ensures rows == if inserted then old(rows)[rt.hash := RowOf(rt)] else old(rows)
    {
      inserted := rt.hash !in rows;
      if inserted { rows := rows[rt.hash := RowOf(rt)]; }
    }

    // refreshtoken.Repository

    method SaveToken(rt: RefreshToken) returns (r: Result<(), Error>)
      modifies this
      ensures (rows, r) == Save(old(rows), rt)
    {
      var inserted := InsertRefreshToken(rt);
      r := if inserted then Ok(()) else Err(Internal);
    }

    method Find(h: TokenHash, now: Time) returns (r: Result<RefreshToken, Error>)
      modifies this
      ensures (rows, r) == FindByTokenHash(old(rows), h, now)
    {
      var row := GetRefreshToken(h, now);
      match row {
        case None =>
          DeleteExpiredRefreshToken(h, now);
          assert rows == old(rows) - {h};
          r := Err(RefreshNotFound);
        case Some(found) =>
          r := Reconstruct(h, found);
      }
    }

    /** One transaction: before is the state a rollback restores. */
    method RotateToken(h: TokenHash, next: RefreshToken, now: Time) returns (r: Result<(), Error>)
      modifies this
      ensures (rows, r) == Rotate(old(rows), h, next, now)
      ensures r.Err? ==> rows == old(rows)
      ensures r == Err(RefreshReused) <==> Live(old(rows), h, now) && old(rows)[h].consumed
    {
      var before := rows;
      var matched := ConsumeRefreshToken(h, now);
      if !matched {
        var row := GetRefreshToken(h, now);
        rows := before;
        return if row.None? then Err(RefreshNotFound) else Err(RefreshReused);
      }
      var inserted := InsertRefreshToken(next);
      if !inserted {
        rows := before;
        return Err(Internal);
      }
      r := Ok(());
    }

    method Revoke(f: FamilyID)
      modifies this
      ensures rows == RevokeFamily(old(rows), f)
    {
      rows := map h | h in rows && rows[h].family != f :: rows[h];
    }

    /** Reports the number of rows the statement deleted. */
    method Purge(now: Time) returns (deleted: nat)
      modifies this
      ensures rows == PurgeExpired(old(rows), now)
      ensures deleted == |set h | h in old(rows) && old(rows)[h].expiresAt <= now|
    {
      var expired := set h | h in rows && rows[h].expiresAt <= now;
      deleted := |expired|;
      rows := rows - expired;
    }
  }
}
