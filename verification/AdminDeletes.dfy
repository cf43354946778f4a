/**
  Deleting a user or a client: one transaction of ordered deletes over four
  tables, undone as a whole when the row itself turns out not to exist or a
  statement fails. The token protocol uses their combined effect.
 */
module AdminDeletes {
  import opened Wrappers
  import opened Domain
  import opened Authorize
  import opened TokenProtocol
  import RT = RefreshTokenStore
  import AC = AuthCodeStore

  datatype DeleteError = NotFound | StatementFailed

  /** The tables a cascade works on. */
  class Database {
    var clients: Clients
    var users: set<UserID>
    var consents: set<Consent>
    var codes: AC.Rows
    var tokens: RT.Rows

    constructor ()
      ensures clients == map[] && users == {} && consents == {} && codes == map[] && tokens == map[]
    {
      clients, users, consents, codes, tokens := map[], {}, {}, map[], map[];
    }

    /** The tables are those of state s. */
    ghost predicate Holds(s: State)
      reads this
    {
      && clients == s.clients && users == s.users && consents == s.consents
      && codes == s.codes.rows && tokens == s.tokens.rows
    }

    method Rollback(consents: set<Consent>, codes: AC.Rows, tokens: RT.Rows)
      modifies this
      ensures this.consents == consents && this.codes == codes && this.tokens == tokens
      ensures clients == old(clients) && users == old(users)
    {
      this.consents, this.codes, this.tokens := consents, codes, tokens;
    }

    /**
      UserWriter.DeleteUser. works is the number of statements, the commit
      included, that succeed before one breaks; five are needed.
     */
    method DeleteUser(u: UserID, works: nat, ghost s: State) returns (r: Result<(), DeleteError>)
      requires Holds(s)
      modifies this
      ensures r.Ok? <==> u in s.users && works >= 5
      ensures r.Ok? ==> Holds(RemoveUser(s, u))
      ensures r.Err? ==> Holds(s)
    {
      var consents0, codes0, tokens0 := consents, codes, tokens;
      if works < 1 { return Err(StatementFailed); }
      consents := set c | c in consents && c.user != u;
      if works < 2 { Rollback(consents0, codes0, tokens0); return Err(StatementFailed); }
      tokens := map h | h in tokens && tokens[h].user != u :: tokens[h];
      if works < 3 { Rollback(consents0, codes0, tokens0); return Err(StatementFailed); }
      codes := map x | x in codes && codes[x].user != u :: codes[x];
      if works < 4 { Rollback(consents0, codes0, tokens0); return Err(StatementFailed); }
      if u !in users { Rollback(consents0, codes0, tokens0); return Err(NotFound); }
      if works < 5 { Rollback(consents0, codes0, tokens0); return Err(StatementFailed); }
      users := users - {u};
      return Ok(());
    }

    /** ClientWriter.DeleteClient. */
    method DeleteClient(cid: ClientID, works: nat, ghost s: State) returns (r: Result<(), DeleteError>)
      requires Holds(s)
      modifies this
      ensures r.Ok? <==> cid in s.clients && works >= 5
      ensures r.Ok? ==> Holds(RemoveClient(s, cid))
      ensures r.Err? ==> Holds(s)
    {
      var consents0, codes0, tokens0 := consents, codes, tokens;
      if works < 1 { return Err(StatementFailed); }
      consents := set c | c in consents && c.client != cid;
      if works < 2 { Rollback(consents0, codes0, tokens0); return Err(StatementFailed); }
      tokens := map h | h in tokens && tokens[h].client != cid :: tokens[h];
      if works < 3 { Rollback(consents0, codes0, tokens0); return Err(StatementFailed); }
      codes := map x | x in codes && codes[x].client != cid :: codes[x];
      if works < 4 { Rollback(consents0, codes0, tokens0); return Err(StatementFailed); }
      if cid !in clients { Rollback(consents0, codes0, tokens0); return Err(NotFound); }
      if works < 5 { Rollback(consents0, codes0, tokens0); return Err(StatementFailed); }
      clients := clients - {cid};
      return Ok(());
    }
  }
}
