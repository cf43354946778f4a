/**
  The authorization_codes table and its repository: codes are inserted once
  and deleted by the call that redeems them.
 */
module AuthCodeStore {
  import opened Wrappers
  import opened Scopes
  import opened Domain

  datatype CodeRow = CodeRow(
    client: ClientID,
    user: UserID,
    redirectURI: string,
    scope: string,
    nonce: Option<string>,
    challenge: string,
    authTime: Option<Time>,
    expiresAt: Time
  )

  type Rows = map<Code, CodeRow>

  /** encodeNonce and decodeNonce: no nonce is stored as NULL. */
  function EncodeNonce(n: string): Option<string> { if n == "" then None else Some(n) }

  function DecodeNonce(n: Option<string>): string {
    match n
    case None => ""
    case Some(s) => s
  }

  predicate Active(rows: Rows, x: Code, now: Time) { x in rows && rows[x].expiresAt > now }

  function RowOf(ac: AuthorizationCode): CodeRow {
    CodeRow(ac.client, ac.user, ac.redirectURI, ac.scope.value, EncodeNonce(ac.nonce),
            ac.challenge, ac.authTime, ac.expiresAt)
  }

  /** reconstructAuthCode, which re-validates the scope and the challenge. */
  function Reconstruct(x: Code, row: CodeRow): Result<AuthorizationCode, Error> {
    match ParseAuth(row.scope)
    case Err(_) => Err(Internal)
    case Ok(sc) =>
      if row.challenge == "" then Err(Internal)
      else Ok(AuthorizationCode(x, row.client, row.user, row.redirectURI, sc, DecodeNonce(row.nonce),
                                row.challenge, row.authTime, row.expiresAt))
  }

  // ---- the repository contract ----

  function Save(rows: Rows, ac: AuthorizationCode): (Rows, Result<(), Error>) {
    if ac.code in rows then (rows, Err(Internal)) else (rows[ac.code := RowOf(ac)], Ok(()))
  }

  function FindByCode(rows: Rows, x: Code, now: Time): (Rows, Result<AuthorizationCode, Error>) {
    if Active(rows, x, now) then (rows, Reconstruct(x, rows[x]))
    else (rows - {x}, Err(CodeNotFound))
  }

  /** The row goes whatever its age; the strict comparison then decides the answer. */
  function Consume(rows: Rows, x: Code, now: Time): (Rows, Result<(), Error>) {
    if x !in rows then (rows, Err(CodeNotFound))
    else (rows - {x}, if now > rows[x].expiresAt then Err(CodeExpired) else Ok(()))
  }

  function PurgeExpired(rows: Rows, now: Time): Rows {
    map x | x in rows && rows[x].expiresAt > now :: rows[x]
  }

  function DropUser(rows: Rows, u: UserID): Rows {
    map x | x in rows && rows[x].user != u :: rows[x]
  }

  function DropClient(rows: Rows, c: ClientID): Rows {
    map x | x in rows && rows[x].client != c :: rows[x]
  }

  /** A stored code reads back as itself: the NULL encodings and the scope string lose nothing. */
  lemma StoredCodeReloads(ac: AuthorizationCode)
    requires Canonical(ac.scope) && OPENID in ac.scope.values && ac.challenge != ""
    ensures Reconstruct(ac.code, RowOf(ac)) == Ok(ac)
  {
    ReloadPreservesScope(ac.scope);
  }

  // ---- the repository, statement by statement ----

  class AuthCodeRepository {
    var rows: Rows

    constructor ()
      ensures rows == map[]
    {
      rows := map[];
    }

    method GetActiveAuthCode(x: Code, now: Time) returns (row: Option<CodeRow>)
      ensures row == if Active(rows, x, now) then Some(rows[x]) else None
    {
      row := if x in rows && rows[x].expiresAt > now then Some(rows[x]) else None;
    }

    method DeleteExpiredAuthCode(x: Code, now: Time)
      modifies this
      ensures rows == if x in old(rows) && old(rows)[x].expiresAt <= now then old(rows) - {x} else old(rows)
    {
      if x in rows && rows[x].expiresAt <= now { rows := rows - {x}; }
    }

    method ConsumeAuthCode(x: Code) returns (expiresAt: Option<Time>)
      modifies this
      ensures expiresAt == if x in old(rows) then Some(old(rows)[x].expiresAt) else None
      ensures rows == old(rows) - {x}
    {
      expiresAt := if x in rows then Some(rows[x].expiresAt) else None;
      rows := rows - {x};
    }

    method SaveCode(ac: AuthorizationCode) returns (r: Result<(), Error>)
      modifies this
      ensures (rows, r) == Save(old(rows), ac)
    {
      if ac.code in rows { return Err(Internal); }
      rows := rows[ac.code := RowOf(ac)];
      r := Ok(());
    }

    method Find(x: Code, now: Time) returns (r: Result<AuthorizationCode, Error>)
      modifies this
      ensures (rows, r) == FindByCode(old(rows), x, now)
    {
      var row := GetActiveAuthCode(x, now);
      match row {
        case None =>
          DeleteExpiredAuthCode(x, now);
          assert rows == old(rows) - {x};
          r := Err(CodeNotFound);
        case Some(found) =>
          r := Reconstruct(x, found);
      }
    }

    /** The comparison runs on the clock reading taken after the DELETE. */
    method ConsumeCode(x: Code, now: Time) returns (r: Result<(), Error>)
      modifies this
      ensures (rows, r) == Consume(old(rows), x, now)
      ensures x !in rows
    {
      var expiresAt := ConsumeAuthCode(x);
      match expiresAt {
        case None =>
          assert rows == old(rows);
          r := Err(CodeNotFound);
        case Some(t) =>
          r := if now > t then Err(CodeExpired) else Ok(());
      }
    }

    method Purge(now: Time) returns (deleted: nat)
      modifies this
      ensures rows == PurgeExpired(old(rows), now)
      ensures deleted == |set x | x in old(rows) && old(rows)[x].expiresAt <= now|
    {
      var expired := set x | x in rows && rows[x].expiresAt <= now;
      deleted := |expired|;
      rows := rows - expired;
    }
  }
}
