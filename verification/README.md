# Verified model of the token lifecycle and its surroundings

A Dafny 4.11 model of the identity side of the system: the authorization
server (`app/auth`), the API's token verifier (`app/api/infra/jwt`), the
single-page application's refresh (`app/web`), and the migrator's provisioning
(`app/migrator`), with proofs of what they promise over whole runs.
`dafny verify dfyconfig.toml` checks all of it.

## What is modelled

**The token protocol** (`TokenProtocol`, `TokenInvariants`, `RotationLedger`,
`TokenTheorems`, `TokenRuns`, `TokenRace`, `ExchangeOutcome`, `RefreshOutcome`,
`AuthorizeOutcome`, `RowFates`, `OrphanTokens`, `Eviction`, `ExpiryTick`,
`TokenWitness`). A `/token`, `/authorize` or
`/revoke` request is a program whose steps are its repository calls. A state
holds one clock, the clients, users, consents, the code and the token table,
and a program counter with its locals for every request. An action lets one
request take one step, or is an administrative change, a purge, a tick of the
clock, or the failure of a request. Any number of requests interleave. Beside
the tables the state keeps a history that no program reads: every link ever
stored with its place in its family's chain, who drew which random value, who
redeemed which code, what was ever consented to, which families were revoked.
One inductive invariant over all of this carries the theorems. They say what
cannot happen (reuse, double redemption, a revoked family coming back) and what
must: when each request is granted, for what, and which rows every action ends.

The two tables themselves (`RefreshTokenStore`, `AuthCodeStore`,
`AdminDeletes`) are classes whose methods run the SQL statements one by one
and are proved equal to the atomic contract the protocol uses.

**The single-page application** (`SpaRefresh`, `TabSessions`). The tab is a state machine
over the points where its asynchronous functions wait, composed with the
protocol; the class `RefreshClient` holds the code between two waits.

**The browser flow** (`AuthorizeQuery`, `Authorize`, `BrowserFlow`,
`BrowserTheorems`, `BrowserIdentity`, `SessionStore`). The handlers of `/authorize`, `/login` and
`/consent` with their cookies, over the in-memory session store.

**Keys** (`Jwt`, `KeyRing`, `ApiVerifier`). Rotation and reload of the key
file, the ring, introspection, and the API's verifier with its key cache.

**Provisioning** (`RoleEnsurer`, `SqlQuoting`). The race of concurrent
migrators, and the quoting of passwords and names against a model of
PostgreSQL's lexer (section 4.1 of the PostgreSQL documentation).

**Codecs** (`Scopes`, `Base64Url`, `Pkce`). Scope strings, base64url as both
languages write it (section 5 of RFC 4648), PKCE (RFC 7636).

## Results worth knowing

- A refresh race always ends with one winner and an empty family: the winner's
  new token dies with it. The service is strict on purpose, and the tab is
  proved never to run into it.
- Eviction is unobservable except at one instant: SQL calls a code expired at
  `expires_at = now()`, the comparison in Go not yet.
  `ExpiryTick.PurgingFirstIsSeenExactlyOnTick` proves that this instant is the
  only one, and `TickChangesTheAnswer` and `TickOccurs` that it can be met.
- An authorization request with a parameter outside the whitelist, for example
  `ui_locales`, which section 3.1.2.1 of OpenID Connect Core 1.0 allows, does
  not survive a sign-in or a consent. `FlowEndsWithCode` says exactly which do.
- The comment on `parseMaxAge` calls malformed values absent. The code scans a
  leading integer and ignores what follows it, so `12abc` counts as 12
  (`AuthorizeQuery.TrailingTextIsIgnored`). `MaxAgeReadsExactly` says what is
  read from any value, and `MalformedIsAbsentExactly` for which values the
  comment holds.
- A quoted literal is read back exactly unless the text behind it continues the
  constant; a newline followed by a quote does, though it does not start with a
  quote. At the end of a statement, its only use, it is always exact.
- Deleting a user does not stop an exchange that is already past its owner
  check: it may still store a token. `OrphanTokens.DeletedUserLeavesOrphan` is
  a run that does, `OrphansExactly` says exactly when it can happen, and
  `DeletedUserNeverRefreshes` that such a token is never redeemed.
- The error text of `parseRSAPublicKey` says an exponent that overflows an int is
  refused. It is cut to its low 64 bits: `Jwt.ParseKeyExactly` says what
  is read, `OversizedExponentIsCutOff` gives an input.
- The comment in `tokenErrorCode` calls the answer for a missing owner
  indistinguishable from that for a bad grant. Status and error code are the
  same, the description is not: `ExchangeOutcome.MissingOwnerIsTold`.
- Five is exactly the number of concurrent migrators the retry bound carries.

## Model

| member | source | states |
|---|---|---|
| TokenTheorems.ChainLaw | app/auth/domain/refreshtoken/refresh_token.go:77-124 | in every reachable state the visible rows of a family are none or a contiguous suffix of its rotation chain, the last of them the only unconsumed one, and expiry never decreases along the chain |
| TokenTheorems.RevocationIsPermanent | app/auth/infra/postgres/refreshtoken_repository.go:185-191 | after a RevokeFamily(f) step and any further steps of any requests there is no row of f, and nobody gets a token of f who had not got it already, requests that had read a row of f before included |
| TokenTheorems.ActionSparesRevoked | app/auth/service/revoke.go:25-70 | a family becomes revoked at exactly the RevokeFamily steps of reuse detection and of /revoke, stays so, and from then on no action lets a request succeed from it |
| TokenTheorems.ReuseIsDetected | app/auth/service/authorization_service.go:405-410 | a stored, live, consumed token presented at the lookup or at the rotation always sends the request to revoke that token's family |
| TokenTheorems.CodeSingleUse | app/auth/service/authorization_service.go:241-269 | of all requests that ever present one authorization code, at most one gets tokens |
| TokenTheorems.RefreshTokenSingleUse | app/auth/service/authorization_service.go:464-475 | of all requests that ever present one refresh token, at most one gets a successor for it |
| TokenTheorems.FamiliesHaveDistinctCodes | app/auth/service/authorization_service.go:311-331 | two refresh-token families never come from the same authorization code |
| TokenTheorems.CodeSuccessMeansVerified | app/auth/domain/authcode/authorization_code.go:142-170 | tokens for a code imply that it was issued, redeemed by this very request no later than its expiry and removed, and that client, redirect URI and PKCE verifier match what it was issued with |
| ExchangeOutcome.ExchangeGrantedExactly | app/auth/service/authorization_service.go:222-331 | an exchange that nothing disturbs is granted if and only if, on its arrival, client, grant and secret pass, the code is stored and unexpired, its row's client and redirect URI are those presented, the verifier is well formed with the row's digest, and the owner exists; it then hands out what the row says, with a refresh token stored for thirty days if and only if the client has the refresh grant and the scope contains offline_access; otherwise status and error code name the client's fault or only invalid_grant |
| ExchangeOutcome.LoneExchange | app/auth/service/authorization_service.go:222-331 | an exchange alone on the server is answered within seven steps, by that rule |
| ExchangeOutcome.FailureSays | app/auth/route/response.go:171-225 | a request that meets a failing call leaves both tables alone and is answered with a server error |
| ExchangeOutcome.MissingOwnerIsTold | app/auth/route/response.go:183-194 | the description of the error for a missing owner is that of no other error |
| TokenRuns.EndsAlone | app/auth/service/authorization_service.go:205-478 | every request alone on the server is answered within seven steps of its own |
| TokenTheorems.Lineage | app/auth/service/authorization_service.go:311-321 | every refresh token ever stored has the client, user and auth_time of the code that founded its family; its scope lies within its predecessor's and the code's, that within openid and the client's scopes at issue, and that scope has been consented to by now |
| TokenRuns.LineageOverRuns | app/auth/service/authorization_service.go:311-321 | over any run written out state by state: the same for every token of every state, and its code was stored at a step of a request that at an earlier step had found the user's consent to this client for exactly this scope |
| TokenRuns.ConsentPrecedesIssue | app/auth/route/authorize_handler.go:207-230 | every code ever issued was stored by a request that had found that consent in the consents table at an earlier step, the code not being issued before |
| TokenRuns.StatesOf | app/auth/service/authorization_service.go:222-478 | every legal run is such a sequence of states |
| TokenRuns.RevocationHasCause | app/auth/service/revoke.go:25-70 | a family is revoked only because some request saw a live consumed token of it presented, or presented a live one to /revoke and after that the credentials of the client it is bound to, as the client stood at that moment |
| TokenRuns.CredentialsRevoke | app/auth/service/revoke.go:40-68 | and those credentials do revoke: such a request has revoked the family with its third step, whatever else happens in between |
| TokenTheorems.RefreshSuccessIsSound | app/auth/service/authorization_service.go:405-475 | at the instant a refresh succeeds its token is live and unconsumed, bound to the requesting client, its owner still exists, and what is handed out is the next link of its chain and no wider |
| RefreshOutcome.RefreshGrantedExactly | app/auth/service/authorization_service.go:358-478 | a refresh that nothing disturbs is granted if and only if, on its arrival, client, grant and secret pass, the token is stored, unexpired, not rotated and bound to this client, its scope has every word asked for, and its owner exists; reply and new row then have exactly the words asked for, or all of the token's if none were, and the presented row is spent; otherwise status and error code name the client's fault, invalid_scope or only invalid_grant |
| RefreshOutcome.LoneRefresh | app/auth/service/authorization_service.go:358-478 | a refresh alone on the server is answered within seven steps, by that rule |
| RefreshOutcome.RefreshScopeIsAsked | app/auth/service/authorization_service.go:420-475 | under every interleaving a granted refresh has exactly the words it asked for, or all of the presented token's if it named none, in its reply and in the row it stored |
| AuthorizeOutcome.CodeIssuedExactly | app/auth/service/authorization_service.go:88-132 | an authorization request that nothing disturbs is answered with a code if and only if, on its arrival, the owner's consent to this client for these words is recorded and the client may ask for it; the code's row then says what was asked for, by whom and since when signed in, and lasts ten minutes |
| AuthorizeOutcome.LoneAuthorization | app/auth/service/authorization_service.go:88-132 | an authorization request alone on the server is answered by that rule |
| RowFates.TokenFate | app/auth/infra/postgres/sqlcgen/refresh_tokens.sql.go:14-19 | over every action: a stored token row goes if and only if its family is revoked, its user or client is deleted, or it has expired and is looked up or purged; any other row stays as it is but for the consumed flag of the one row rotated away |
| RowFates.TokenBirth | app/auth/infra/postgres/sqlcgen/refresh_tokens.sql.go:121-135 | a token row appears if and only if an exchange saves its first token or a rotation its successor, and then with that token's fields |
| RowFates.CodeFate | app/auth/infra/postgres/sqlcgen/authcodes.sql.go:14-18 | the same for codes: a row goes if and only if it is redeemed, its user or client is deleted, or it has expired and is looked up or purged; the others stay as they are, and one appears only by being issued |
| RowFates.WorldFate | app/auth/infra/postgres/user_writer.go:49-81 | a consent is there after an action if and only if it was granted by it, or was there and neither its user nor its client was deleted; users and clients come and go by name |
| TokenTheorems.TokenCallProceedsExactly | app/auth/service/authorization_service.go:205-379 | a /token call gets past its checks exactly with a supported grant, a known client allowed that grant, the right secret if the client has one, and something to redeem |
| TokenTheorems.DeletedUserNeverRefreshes | app/auth/infra/postgres/user_writer.go:49-81 | once a user is gone and not registered again, no refresh token of that user is ever redeemed, whatever requests were under way |
| OrphanTokens.StoredForGoneUserExactly | app/auth/service/authorization_service.go:311-331 | with a user gone, an action stores a token of that user if and only if it is the save of an exchange for that user |
| OrphanTokens.OrphansExactly | app/auth/infra/postgres/user_writer.go:49-81 | in any reachable state without the user: some continuation that does not register the user again stores a token of the user if and only if some exchange for the user stands between its owner check and its save |
| OrphanTokens.OrphansWereOnTheirWay | app/auth/service/authorization_service.go:311-331 | every token of a gone user stored later was minted by a request that stood there when the user was gone |
| OrphanTokens.DeletedUserLeavesOrphan | app/auth/infra/postgres/user_writer.go:49-81 | a run from an initial state whose last but one action deletes the user and every token of the user, and whose last stores one |
| TokenTheorems.RevokeAlwaysAnswersSuccess | app/auth/service/revoke.go:25-38 | no step of a revocation request answers anything but success |
| TokenInvariants.ReachableInv | app/auth/service/authorization_service.go:222-478 | the whole invariant (both ledgers, lineage, what each program counter has established) holds in every reachable state under every interleaving |
| TokenInvariants.ActionKeepsInv | app/auth/service/authorization_service.go:222-478 | every action, of a request, an administrator, the clock or a purge, keeps the invariant |
| TokenInvariants.RefreshRotateStep | app/auth/service/authorization_service.go:464-475 | the rotation step keeps the invariant, on success and on each of its failures |
| TokenInvariants.RotationMayAnswer | app/auth/service/authorization_service.go:464-477 | a successful rotation answers with the link right behind the one presented, drawn by this very request |
| TokenInvariants.CodeConsumeStep | app/auth/service/authorization_service.go:267-269 | consuming a code keeps the invariant: it is gone, and this request is its only redeemer |
| TokenInvariants.CodeSaveStep | app/auth/service/authorization_service.go:325-328 | storing the first token of a family keeps the invariant: its founder has redeemed its code |
| TokenInvariants.AuthorizeSaveStep | app/auth/service/authorization_service.go:125-127 | storing a code keeps the invariant: consented to, and within what the client may ask |
| TokenInvariants.DeleteUserKeepsInv | app/auth/infra/postgres/user_writer.go:49-81 | a user's delete cascade keeps the invariant, requests in flight included |
| TokenInvariants.DeleteClientKeepsInv | app/auth/infra/postgres/client_writer.go:72-104 | so does a client's |
| TokenInvariants.PurgesKeepInv | app/auth/infra/postgres/refreshtoken_repository.go:173-179 | so do both purges |
| RotationLedger.VisibleRowsAreChainSuffix | app/auth/infra/postgres/sqlcgen/refresh_tokens.sql.go:77-81 | the chain law for a ledger: finds the place from which the links of a chain are visible |
| RotationLedger.RotationKeepsInv | app/auth/infra/postgres/refreshtoken_repository.go:131-167 | Rotate keeps the chain invariant whatever it answers |
| RotationLedger.RotationExtendsChain | app/auth/infra/postgres/refreshtoken_repository.go:131-167 | a Rotate that succeeds found the last link of its chain and adds the one behind it |
| RotationLedger.RevocationKeepsInv | app/auth/infra/postgres/refreshtoken_repository.go:185-191 | RevokeFamily empties a family, leaves every other family's rows and all chains as they are, and keeps the chain invariant with the family revoked |
| RotationLedger.FindKeepsInv | app/auth/infra/postgres/refreshtoken_repository.go:78-110 | a lookup keeps the chain invariant though it may evict |
| RotationLedger.FirstSaveKeepsInv | app/auth/infra/postgres/refreshtoken_repository.go:63-70 | the first token of a fresh family is always stored and starts a chain of its own |
| RotationLedger.CascadesKeepInv | app/auth/infra/postgres/sqlcgen/refresh_tokens.sql.go:59-75 | deleting by user or by client removes whole families, so chains stay suffixes |
| TokenRace.RaceOutcome | app/auth/service/authorization_service.go:388-477 | if two or more valid requests present one live token, all finish within its lifetime and nobody else touches it, then under every interleaving exactly one is granted, all others are refused, and the family ends with no row, the winner's new token included |
| TokenRace.Rotates | app/auth/infra/postgres/refreshtoken_repository.go:131-162 | the atomic rotation decides the race: the first wins, the next finds the token consumed and goes on to revoke, later ones find nothing |
| TokenRace.ContenderKeepsRacing | app/auth/service/authorization_service.go:400-475 | each step of a contender moves the race along its three phases and nowhere else |
| Eviction.EvictionIsUnobservable | app/auth/route/response.go:171-212 | for any run of the program and any schedule that purges and evicts differently or never, the schedule is possible and every request gets the same reply or an error with the same status, code and description, as long as no code is consumed on its expiry tick |
| Eviction.SchedulesAlike | app/auth/infra/postgres/authcode_repository.go:79-152 | the simulation: two schedules of the same requests end in states that differ in expired rows only |
| Eviction.PurgeMattersExactlyOnTick | app/auth/infra/postgres/authcode_repository.go:140-152 | the exception is exact: purging first changes the success of Consume if and only if the code is stored and the clock stands at its expiry |
| ExpiryTick.PurgingFirstIsSeenExactlyOnTick | app/auth/infra/postgres/authcode_repository.go:140-152 | in the protocol: for any request about to consume its code in any reachable state, the schedule that purges first and the one that does not answer it differently if and only if the code is stored and expires at this tick; then it is refused after the purge and goes on without it |
| ExpiryTick.TickChangesTheAnswer | app/auth/infra/postgres/authcode_repository.go:140-152 | and so to the end: without the purge that request can be granted its tokens by its own steps, with it the reply is an error |
| ExpiryTick.TickOccurs | app/auth/infra/postgres/authcode_repository.go:140-152 | such a state is reachable |
| Eviction.RotationsAgree | app/auth/infra/postgres/sqlcgen/refresh_tokens.sql.go:14-19 | Rotate sees visible rows only: tables that show the same rows give the same answer and still show the same rows |
| Eviction.ConsumptionsAnswerAlike | app/auth/route/response.go:200-206 | off the tick, an expired code and an evicted one are refused with the same report |
| Eviction.ActionIsItsMove | app/auth/infra/postgres/authcode_repository.go:79-98 | each action of the program is its effect without eviction followed by the deletion of some expired rows |
| Eviction.MoveKeepsInv | app/auth/infra/postgres/authcode_repository.go:114-120 | the protocol's invariant survives any choice of evictions |
| SpaRefresh.TabIsNeverCaughtReusing | app/web/src/features/auth/domain/refresh.ts:20-63 | tab and server together: with any number of callers, across failed refreshes, sign-ins and a logout's revocation during a refresh, the server never takes either reuse branch for a request of the tab, nor for any request with a token the tab was given |
| SpaRefresh.OnlyRotationSpends | app/auth/service/authorization_service.go:464-475 | only a rotation spends a token: the one its request presented, and then that request is granted |
| SpaRefresh.UnspentIsNotReuse | app/auth/service/authorization_service.go:400-475 | a request that presents an unspent token is not told of a reuse at its next step |
| SpaRefresh.ResponseKeeps | app/web/src/features/auth/domain/refresh.ts:31-43 | receiving the response of the refresh keeps the tab's invariant: what it holds then is unspent |
| TabSessions.ResponseStores | app/web/src/features/auth/domain/refresh.ts:31-45 | after a granted refresh the tab stores the refresh token of that reply with the given expiry, after a failed one what it stored before, and the flight is over |
| TabSessions.StoredIsLastBrought | app/web/src/features/auth/domain/refresh.ts:31-45 | over every run of tab and server the stored session is exactly the last one a token response brought, unless storage was cleared after it |
| TabSessions.SessionsLast | app/web/src/features/auth/domain/refresh.ts:31-45 | so a stored session is lost only by clearing the storage |
| TabSessions.FlightPresentsStored | app/web/src/features/auth/domain/refresh.ts:49-63 | over every run a refresh request presents the token that was stored when its flight began, and asks for no narrower scope |
| SpaRefresh.CodeResponseKeeps | app/web/src/features/auth/hooks/AuthProvider.tsx:125-159 | so does a sign-in that completes while a refresh is in flight |
| SpaRefresh.EventKeeps | app/web/src/features/auth/domain/refresh.ts:49-63 | every event of tab or server keeps the composition's invariant: one flight at a time, nothing held that is spent |
| SpaRefresh.RefreshClient.RefreshStoredSession | app/web/src/features/auth/domain/refresh.ts:49-58 | starts a refresh only if none is in flight and a token is stored; a second caller changes nothing |
| SpaRefresh.RefreshClient.EnsureValidAccessToken | app/web/src/features/auth/domain/refresh.ts:69-81 | uses the stored token exactly while it has not expired and, if it can be refreshed, has more than a minute left; waits for a refresh exactly if it can be refreshed and has not; otherwise gives up |
| RefreshTokenStore.RefreshTokenRepository.RotateToken | app/auth/infra/postgres/refreshtoken_repository.go:131-167 | statement by statement equal to the atomic contract: leaves the table alone on every error, and reports reuse exactly for a live consumed row |
| RefreshTokenStore.RefreshTokenRepository.Find | app/auth/infra/postgres/refreshtoken_repository.go:78-110 | equal to the contract's lookup, evicting the row exactly if it is expired |
| RefreshTokenStore.RefreshTokenRepository.SaveToken | app/auth/infra/postgres/refreshtoken_repository.go:63-70 | a plain insert: refuses a hash that is stored |
| RefreshTokenStore.RefreshTokenRepository.Purge | app/auth/infra/postgres/sqlcgen/refresh_tokens.sql.go:166-168 | deletes exactly the expired rows and counts them |
| AuthCodeStore.StoredCodeReloads | app/auth/infra/postgres/authcode_repository.go:164-243 | a stored code reads back as itself, NULL encodings and scope string included |
| AuthCodeStore.AuthCodeRepository.ConsumeCode | app/auth/infra/postgres/authcode_repository.go:140-152 | deletes the row whatever its age and then compares strictly |
| AuthCodeStore.AuthCodeRepository.Find | app/auth/infra/postgres/authcode_repository.go:79-98 | finds exactly active rows and evicts an expired one |
| AuthCodeStore.AuthCodeRepository.Purge | app/auth/infra/postgres/sqlcgen/authcodes.sql.go:172-174 | deletes exactly the expired rows and counts them |
| AdminDeletes.Database.DeleteUser | app/auth/infra/postgres/user_writer.go:49-81 | the ordered deletes either all take effect or, for an unknown user or a statement that breaks, none does |
| AdminDeletes.Database.DeleteClient | app/auth/infra/postgres/client_writer.go:72-104 | the same for a client |
| Scopes.ReloadPreservesScope | app/auth/domain/refreshtoken/scope.go:24-56 | parsing the string of any parsed or narrowed scope gives that scope back, under both parsers when openid is among its values |
| Scopes.ParsedIsCanonical | app/auth/domain/refreshtoken/scope.go:24-36 | every parsed scope re-splits into the fields it was parsed from and denotes its value set |
| Scopes.NarrowedIsCanonical | app/auth/domain/refreshtoken/scope.go:64-78 | narrowing succeeds exactly for a subset of the granted values, has exactly the words and values asked for or all of the grant's when none are, and stays canonical |
| Scopes.FieldsOfJoin | app/auth/domain/refreshtoken/scope.go:53-56 | joining words and splitting again gives the same words |
| Scopes.NormalizeIsCanonicalForm | app/auth/service/consent_service.go:51-57 | normalizing is idempotent, and two raw scopes normalize alike exactly if they split into the same words |
| Scopes.ParseScope | app/auth/domain/authcode/scope.go:30-49 | the parsing loop computes field list and value set, in both variants |
| Scopes.NarrowScope | app/auth/domain/refreshtoken/scope.go:64-78 | the narrowing loop, which stops at the first value outside the grant, decides the subset |
| Scopes.SplitFields | app/auth/domain/refreshtoken/scope.go:24-26 | one scan closes a word at every separator |
| Authorize.AcceptedExactly | app/auth/service/authorization_service.go:136-197 | a request is accepted if and only if client, redirect URI, response type, scopes and challenge all pass |
| Authorize.RefusalsNameTheCause | app/auth/service/authorization_service.go:136-197 | a refused request is reported with the error code of the first thing that is wrong with it |
| Authorize.AcceptedScopeIsAllowed | app/auth/service/authorization_service.go:175-187 | an accepted request asks for openid and otherwise only for the client's scopes |
| Authorize.ErrorsRedirectOnlyToRegisteredURIs | app/auth/route/response.go:83-165 | a failure is reported by redirect exactly if client and redirect URI were confirmed, and then to that registered URI with the state |
| SessionStore.EvictionRefines | app/auth/infra/memory/idp_session_store.go:34-136 | for every sequence of calls the evicting store gives the answers of a store that never evicts and checks expiry on each read |
| SessionStore.FindSessionMeansSigned | app/auth/infra/memory/idp_session_store.go:55-67 | after any history a session id is recognised exactly if a session was created under it, not deleted since and not expired, and then it is that session |
| SessionStore.FindPendingMeansParked | app/auth/infra/memory/idp_session_store.go:98-126 | after any history a pending request is found, and consumed, exactly if it was saved under the id, not consumed since and not expired, and then it is the one saved |
| SessionStore.ConsumedAtMostOnce | app/auth/infra/memory/idp_session_store.go:112-126 | a pending request is consumed at most once per time it was saved |
| SessionStore.IdPSessionStore.Purge | app/auth/infra/memory/idp_session_store.go:141-166 | removes exactly the expired entries of both maps and returns how many were removed |
| SessionStore.IdPSessionStore.PurgeSessions | app/auth/infra/memory/idp_session_store.go:152-157 | the first loop: deletes and counts exactly the expired sessions while ranging over them |
| SessionStore.IdPSessionStore.PurgePending | app/auth/infra/memory/idp_session_store.go:158-163 | the second loop, over pending requests |
| SessionStore.IdPSessionStore.ConsumePendingAuthorize | app/auth/infra/memory/idp_session_store.go:112-126 | returns a live pending request once and always removes it |
| BrowserTheorems.FlowEndsWithCode | app/auth/route/authorize_handler.go:96-250 | a valid request other than prompt=none, with a user who signs in and accepts in time, takes at most three visits and ends with a code bound to the original client, redirect URI, scope, nonce and challenge, state echoed, for the user of the browser's session with the time of its sign-in and that user's consent recorded, if and only if its parameters survive in the pending store or no page is needed: a live session, no prompt=login, max_age met, the owner still there and consent recorded |
| BrowserIdentity.CodeNamesWhoSignedIn | app/auth/route/authorize_handler.go:183-230 | over every run of a browser and the rest of the site, each code the browser is given names the user whose password was posted in the last sign-in before that visit, no logout in between and at most a day earlier; its auth_time is exactly the time of that sign-in, and that user's consent to this client for this scope was recorded at the visit |
| BrowserIdentity.CookieFollows | app/auth/route/login_handler.go:39-76 | whenever the browser has a session cookie, it stands for the last sign-in with the right password, and its session is that user's, or gone |
| BrowserIdentity.VisitAnswersExactly | app/auth/route/authorize_handler.go:96-250 | which page or redirect a valid visit is answered with, what it parks and which session it deletes, case by case on session, prompt, age, owner and consent |
| BrowserIdentity.InvalidVisit | app/auth/route/authorize_handler.go:96-116 | an invalid visit changes nothing and is reported by redirect only to a registered URI |
| BrowserIdentity.SignInExactly | app/auth/route/login_handler.go:39-76 | exactly the right password signs in, under a new session of a day, and goes on with a parked request of known parameters; a wrong one changes nothing |
| BrowserIdentity.ConsentExactly | app/auth/route/consent_handler.go:71-168 | exactly an acceptance of a valid parked request by a signed-in user records a consent, that user's for the client and words of the request; acceptance and denial use the request up, any other answer leaves it, and nothing else changes |
| BrowserIdentity.ConsentAnswersExactly | app/auth/route/consent_handler.go:71-168 | and the page or redirect it is answered with, in every case |
| BrowserTheorems.CodeAtOnceExactly | app/auth/route/authorize_handler.go:96-250 | a valid request is answered with a code at once exactly under these guards on session, prompt, age, owner and consent |
| AuthorizeQuery.MaxAgeReadsExactly | app/auth/route/authorize_handler.go:43-52 | max_age is read as n if and only if the value is blanks without a newline, at most one sign, a maximal non-empty run of digits of value n within an int64 (zero under a minus sign), and any rest |
| AuthorizeQuery.MalformedIsAbsentExactly | app/auth/route/authorize_handler.go:43-52 | a value that is not a plain decimal counts as absent exactly if it is not such a number decorated with blanks, a sign or trailing text; a plain decimal is read as its value |
| AuthorizeQuery.TrailingTextIsIgnored | app/auth/route/authorize_handler.go:43-52 | 12abc is read as 12 |
| BrowserTheorems.AuthTimeIsFresh | app/auth/route/authorize_handler.go:125-161 | after a valid visit at t0, whatever browser and site do next, every code the browser gets has auth_time at least t0 under prompt=login, and at least t0 - m seconds under max_age=m, for every int64 m |
| BrowserTheorems.WrapOnlyTightens | app/auth/route/authorize_handler.go:149 | Duration(m)*Second in 64 bits is congruent to m seconds, never exceeds them, and is exact when it fits |
| BrowserTheorems.PromptNoneNeverInteracts | app/auth/route/authorize_handler.go:117-120 | prompt=none answers at once: a code exactly if session, age, owner and consent all hold, and never a page or a pending request |
| BrowserTheorems.UnknownParameterStrandsSignIn | app/auth/route/session_cookie.go:96-107 | a concrete parameter outside the whitelist, ui_locales, strands the user on the signed-in page |
| BrowserTheorems.ResumableExactly | app/auth/route/session_cookie.go:96-107 | a stored query can be resumed exactly if the original had only whitelisted parameters, prompt and max_age |
| BrowserTheorems.SanitizedAsksTheSame | app/auth/route/authorize_handler.go:58-63 | dropping prompt and max_age changes nothing about the request and is done after once |
| BrowserTheorems.FirstVisit | app/auth/route/authorize_handler.go:96-220 | the first visit leads to a code, or to the login or consent page with the request parked |
| BrowserTheorems.VisitSignedIn | app/auth/route/authorize_handler.go:186-250 | a signed-in visit without prompt ends in a bound code exactly if consent was recorded, and asks for consent otherwise |
| BrowserTheorems.LoginResumes | app/auth/route/login_handler.go:39-76 | a sign-in resumes the parked request with a fresh session, unless it cannot be resumed |
| BrowserTheorems.AcceptResumes | app/auth/route/consent_handler.go:82-168 | accepting records the consent and resumes the request, unless it cannot be resumed |
| BrowserTheorems.DenialLeavesNothing | app/auth/route/consent_handler.go:89-96 | denying records no consent and issues no code, uses the pending request up, and reports access_denied only to a registered redirect URI |
| BrowserTheorems.EventKeepsSince | app/auth/route/authorize_handler.go:125-161 | no event of browser or site lets the browser's session become older than the bound |
| BrowserFlow.Handlers.Authorize | app/auth/route/authorize_handler.go:96-250 | the handler, branch by branch on noSession, prompt and max_age, computes next site, cookies and page as specified |
| KeyRing.OnePrivateKey | app/auth/cmd/keygen/main.go:84-121 | after any rotations and reloads the file holds exactly one private key, the active one, and loads into a ring that signs with it |
| KeyRing.OldTokensVerify | app/auth/infra/jwt/key_ring.go:91-106 | a token signed under any earlier active key verifies until it expires and not a second longer |
| KeyRing.IntrospectionOfOldTokens | app/auth/service/introspection_service.go:33-52 | introspection reports an access token of any earlier active key with its subject, scope and expiry exactly while now <= iat + 3600, and an ID token only if its client_id is the API's audience |
| KeyRing.ActiveMeansOnceActiveKey | app/auth/service/introspection_service.go:33-52 | after any key history introspection calls a token active if and only if it is unexpired, for this issuer and API, and signed as it stands with a key that was the active one of the file at some time up to the last reload; it then reports the token's own subject, expiry and scope |
| KeyRing.RingHoldsOnceActive | app/auth/infra/jwt/key_ring.go:36-73 | the ring holds exactly the keys that were active in the file at some time up to the last reload |
| KeyRing.RingsExtend | app/auth/infra/jwt/key_ring.go:36-73 | along any history the ring only gains keys, and never changes one |
| KeyRing.RotationKeepsSound | app/auth/cmd/keygen/main.go:100-117 | rotation keeps the file well-formed and keeps every key the ring may hold |
| KeyRing.SoundFilesLoad | app/auth/infra/jwt/key_ring.go:36-73 | a well-formed file always loads, into exactly its keys |
| KeyRing.LoadsExactly | app/auth/infra/jwt/key_ring.go:36-73 | any file at all loads if and only if each entry has a readable key and one of the active kid a private one; the ring then has one key for each kid, that of its last entry, and signs with a private key of the active kid |
| KeyRing.RotationKeepsPublic | app/auth/cmd/keygen/main.go:100-117 | rotating any file at all leaves the new key as the only private one and, beside it, exactly the public keys the file stood for |
| KeyRing.RotateKeyFile | app/auth/cmd/keygen/main.go:100-117 | the demotion loop computes the rotated file, skipping keys it cannot read |
| KeyRing.NewKeyRing | app/auth/infra/jwt/key_ring.go:36-73 | the loading loop stops at the first unreadable entry; a later entry of a kid wins |
| KeyRing.JWKS | app/auth/infra/jwt/key_ring.go:129-141 | publishes each key of the ring exactly once, the active one first |
| Jwt.ExpiryIsIssuePlusHour | app/auth/domain/token/claims.go:46-56 | exp is iat + 3600 whatever the fraction of the second |
| Jwt.PublishedKeyParses | app/api/infra/jwt/verifier.go:265-285 | modulus and exponent survive JWK encoding and decoding, for every exponent that fits an int |
| Jwt.ParseKeyExactly | app/api/infra/jwt/verifier.go:265-285 | a published key is read if and only if both members decode and the low 64 bits of the exponent are not zero, which are what is kept of it |
| Jwt.OversizedExponentIsCutOff | app/api/infra/jwt/verifier.go:279-284 | an exponent of 2^64 + 1 is read as 1 |
| ApiVerifier.CacheAgrees | app/api/infra/jwt/verifier.go:186-214 | over any sequential run with a published set that only grows, each lookup while the endpoint answers equals an uncached fetch, and any key returned at any time is published under its kid |
| ApiVerifier.CacheAgreesOnHistory | app/api/infra/jwt/verifier.go:186-214 | the same over any key history: from an empty cache, each lookup that reaches the endpoint gives what the ring holds at that moment, and any key ever returned is one the ring holds under that kid |
| ApiVerifier.ApiAcceptsExactly | app/api/infra/jwt/verifier.go:125-182 | after any key history, with a cache empty or fetched at any earlier point of it, the API accepts of all tokens exactly the unexpired ones for this issuer and audience, with a subject, signed as they stand with a key once active; while the endpoint is down, those of them whose key is cached |
| ApiVerifier.ApiAcceptsOldTokens | app/api/infra/jwt/verifier.go:125-182 | after any key history, with a cache empty or fetched at any earlier point of it, the API accepts an access token of any earlier active key exactly while now <= iat + 3600, and an ID token only if its client_id is the API's audience |
| ApiVerifier.PublishedKeysRead | app/api/infra/jwt/verifier.go:244-256 | reading what a ring publishes gives back exactly its keys |
| ApiVerifier.DocumentsReadExactly | app/api/infra/jwt/verifier.go:244-256 | any document is read if and only if each RS256 key in it is readable, other keys apart, and then gives one key per kid, the last |
| ApiVerifier.FetchesExactly | app/api/infra/jwt/verifier.go:186-214 | the endpoint matters exactly when the kid is not cached or the cache is five minutes old, and a usable answer then replaces the whole cache |
| ApiVerifier.Verifier.FetchJWKS | app/api/infra/jwt/verifier.go:218-262 | replaces the cache only if the whole document was read |
| ApiVerifier.Verifier.Key | app/api/infra/jwt/verifier.go:186-214 | serves from a fresh cache, else fetches, else falls back on a stale key |
| RoleEnsurer.FiveRunsNeverExhaust | app/migrator/infra/postgres/role.go:181-194 | with at most five concurrent runs, under every interleaving, none uses up its five attempts |
| RoleEnsurer.SixRunsCanExhaust | app/migrator/infra/postgres/role.go:113-116 | the bound is tight: of six runs started together one may lose all its attempts |
| RoleEnsurer.ExhaustionNeedsFiveOthers | app/migrator/infra/postgres/role.go:181-194 | a run is exhausted only if five other runs have committed |
| RoleEnsurer.FiveQuietRunsSucceed | app/migrator/infra/postgres/role.go:149-194 | up to five runs that meet nothing but each other never fail, and those that ended have the role |
| RoleEnsurer.CreateRaceIsBenign | app/migrator/infra/postgres/role.go:154-168 | once the role exists no run fails to create it, unless its re-check query itself breaks |
| RoleEnsurer.FiveRunsAllSucceed | app/migrator/infra/postgres/role.go:149-194 | all of them succeed: however up to five such runs have interleaved, they can go on until every one is done and the role is there, and when none can go on all are done |
| RoleEnsurer.RunsAreShort | app/migrator/infra/postgres/role.go:149-194 | no interleaving of n runs is longer than 14 n steps |
| RoleEnsurer.StepsRunOut | app/migrator/infra/postgres/role.go:181-194 | every step brings its run closer to its end, fourteen steps at most |
| RoleEnsurer.CanStep | app/migrator/infra/postgres/role.go:149-194 | and is never stuck: until it has ended, some step of it is possible |
| RoleEnsurer.EnsureRole | app/migrator/infra/postgres/role.go:149-194 | for all answers of the server, given by their SQLSTATE codes and messages: ends with exactly the result they lead to, decided by the first attempt that is not retried, and exhausted exactly if all five are overtaken |
| RoleEnsurer.RunsEndAsEnsureRole | app/migrator/infra/postgres/role.go:149-194 | a run among any others ends with exactly the result ensureRole has on the answers that run got |
| RoleEnsurer.OvertakenExactly | app/migrator/infra/postgres/role.go:314-320 | an error counts as a concurrent update if and only if its code is XX000 and the words stand somewhere in its message |
| RoleEnsurer.EnsureDatabase | app/migrator/infra/postgres/database.go:103-130 | succeeds exactly if the database was there, was created, or a failed CREATE is a race by its code, given literally, or by the re-check; the other results are exact, too |
| SqlQuoting.LiteralRoundTrip | app/migrator/infra/postgres/role.go:337-344 | for every string, both settings of standard_conforming_strings and every following text, the server reads exactly the string and leaves exactly the text, if and only if the text does not continue the constant |
| SqlQuoting.PasswordIsReadExactly | app/migrator/infra/postgres/role.go:179 | at the end of a statement, where ALTER ROLE puts it, the password is always read exactly |
| SqlQuoting.NewlineContinues | app/migrator/infra/postgres/role.go:337-344 | a concrete text not starting with a quote that still continues the constant: a newline and a quote |
| SqlQuoting.IdentifierRoundTrip | app/migrator/domain/migration/identifier.go:56-58 | a quoted name is read back exactly if and only if it is not empty, fits in 63 bytes, and no double quote follows |
| SqlQuoting.ValidNamesExactly | app/migrator/domain/migration/identifier.go:36-47 | a name passes if and only if it is one to 63 lower-case letters, digits and underscores, the first no digit |
| SqlQuoting.ValidatedNamesAreReadExactly | app/migrator/domain/migration/identifier.go:36-47 | every validated name is read back exactly, and quoting leaves it as it is |
| Base64Url.EncodedShape | app/web/src/features/auth/domain/pkce.ts:7-13 | n bytes give ceil(4n/3) characters of the url alphabet |
| Base64Url.RoundTrip | app/web/src/features/auth/domain/pkce.ts:7-13 | decoding undoes encoding for every byte sequence |
| Base64Url.DecodesExactly | app/api/infra/jwt/verifier.go:266-273 | a string decodes if and only if, line breaks aside, it is made of symbols of the alphabet and not one more than a multiple of four |
| Base64Url.BrowserEncode | app/web/src/features/auth/domain/pkce.ts:7-13 | the browser's loop over btoa and three replacements is the unpadded base64url of the Go side |
| Base64Url.EncodeInjective | app/web/src/features/auth/domain/pkce.ts:29-33 | different bytes have different encodings |
| Base64Url.BigEndianRoundTrip | app/api/infra/jwt/verifier.go:275-283 | an integer survives its minimal big-endian form |
| Pkce.GeneratedVerifierIsWellFormed | app/web/src/features/auth/domain/pkce.ts:19-23 | every generated verifier has 43 characters and is well formed |
| Pkce.ChallengeAcceptsExactly | app/auth/domain/authcode/code_challenge.go:98-115 | a verifier passes against a derived challenge exactly if it is well formed and has the same digest |
| Pkce.BrowserVerifierAccepted | app/auth/domain/authcode/code_challenge.go:98-115 | the browser's own verifier is always accepted against its own challenge |
| Pkce.ValidateCodeVerifier | app/auth/domain/authcode/code_challenge.go:122-135 | the walk over the characters decides length and alphabet |

## Left out

- SpaRefresh.TabIsNeverCaughtReusing: assumes that every successful token response is received and stored, so lost responses, a reload or navigation during a refresh, an ID token that does not parse, and cloned tabs are not covered.
- BrowserTheorems.AuthTimeIsFresh: takes a handler and its cookie update as one step, so responses that arrive out of order are not covered.
- BrowserTheorems.FlowEndsWithCode: clients, accounts and users do not change while the one user goes through the flow, and the browser keeps its cookies at least as long as the server keeps what they name.
- Eviction.EvictionIsUnobservable: excludes runs in which a code is consumed on the exact tick of its expiry, where the claim is false.
- RoleEnsurer.FiveRunsNeverExhaust: each "tuple concurrently updated" error is taken to come from another run's ALTER that commits during the attempt.
- ApiVerifier.CacheAgrees: lookups are sequential.
- ExchangeOutcome.ExchangeGrantedExactly: decides requests whose client, code, owner and clock others leave alone meanwhile, and which meet no failure; of the others the theorems on single use, reuse, races and revocation speak. RefreshOutcome and AuthorizeOutcome are meant alike.
- The tokens in a /token reply beyond client, user, scope and auth_time: which nonce an ID token carries, and its at_hash.
- Repository calls are atomic steps, as their contracts promise; isolation levels, connection pools and reader/writer routing are not modelled.
- A failing database call has no effect; a commit whose outcome stays unknown is not modelled.
- SHA-256 is a function to 32 bytes of which nothing else is known; token hashes, bcrypt and RSA signatures are ideal (collision-free, accepting exactly the right input). PEM and JSON decode what was encoded.
- Random codes, tokens, families and keys are fresh: never drawn twice and never presented before they were drawn.
- Clocks: one reading per step, nondecreasing, in nanoseconds; Postgres's rounding to microseconds is not modelled.
- Redirect URIs are compared as strings with the registered ones; the separate syntax check before the comparison is part of not being registered.
- Query strings are kept decoded, so percent-encoding does not appear; login_hint is carried but nothing reads it.
- A JWT is kept decoded; at_hash, name, email and the array form of aud are not modelled.
- Error descriptions of /authorize, the user's display name and other response text that no decision depends on.
- Strings with a NUL character, which PostgreSQL's protocol cannot carry, client encodings other than UTF-8, and the backslash_quote setting, which nothing quoted here depends on.
- A failure to sign a token is the failure of its request; ensureAuthenticatedSession and the periodic refresh are further callers of the same refresh.
- Key files on disk: generating refuses to overwrite, and writing may fail; only the contents are modelled.
- The 10 ms floor on unknown refresh tokens is about timing, not about results.
- The concurrent removal of a session between its two lookups inside one /authorize handler.
- Client and user registration beyond their effect on the tables, app/api's task endpoints, seeding, GRANT statements, configuration, health checks, templates and other user interface: plumbing or easy members.
