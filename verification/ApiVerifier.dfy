/**
  The API's token verifier and its cache of the published key set. A lookup
  goes to the endpoint when the cache is stale or does not know the kid, and
  falls back on a stale key when the endpoint cannot be reached.
 */
module ApiVerifier {
  import opened Wrappers
  import opened Domain
  import opened Jwt
  import KR = KeyRing

  const CACHE_TTL: Time := 5 * MINUTE

  type Keys = map<string, PublicKey>

  // ---- reading a published document ----

  /** The loop of fetchJWKS: other key types are skipped, one that does not parse fails the whole fetch. */
  function ReadJWKS(jwks: seq<JWK>): Option<Keys> {
    if jwks == [] then Some(map[])
    else
      var k := jwks[|jwks| - 1];
      match ReadJWKS(jwks[..|jwks| - 1])
      case None => None
      case Some(keys) =>
        if k.kty != "RSA" || k.alg != RS256 then Some(keys)
        else
          match ParseKey(k.n, k.e)
          case None => None
          case Some(pub) => Some(keys[k.kid := pub])
  }

  /** One more published key read. */
  lemma OneMoreReads(jwks: seq<JWK>, ring: KR.Ring, n: nat)
    requires KR.Publishes(jwks, ring) && 0 < n <= |jwks| && ReadJWKS(jwks[..n - 1]).Some?
    requires forall kid :: kid in ring.keys ==> FitsInt(ring.keys[kid])
    ensures jwks[n - 1].kid in ring.keys
    ensures ReadJWKS(jwks[..n])
            == Some(ReadJWKS(jwks[..n - 1]).value[jwks[n - 1].kid := ring.keys[jwks[n - 1].kid]])
  {
    hide ParseKey;
    assert jwks[..n][..n - 1] == jwks[..n - 1] && jwks[..n][n - 1] == jwks[n - 1];
    var kid := jwks[n - 1].kid;
    PublishedKeyParses(ring.keys[kid], kid);
  }

  /** Reading what a ring publishes gives back the ring's keys, modulus and exponent included. */
  lemma {:induction false} PrefixReads(jwks: seq<JWK>, ring: KR.Ring, n: nat)
    requires KR.Publishes(jwks, ring) && n <= |jwks|
    requires forall kid :: kid in ring.keys ==> FitsInt(ring.keys[kid])
    ensures ReadJWKS(jwks[..n]).Some?
    ensures var keys := ReadJWKS(jwks[..n]).value;
            && (forall kid :: kid in keys <==> exists i :: 0 <= i < n && jwks[i].kid == kid)
            && (forall kid :: kid in keys ==> kid in ring.keys && keys[kid] == ring.keys[kid])
    decreases n
  {
    if n > 0 {
      hide ReadJWKS, KR.Publishes, FitsInt;
      PrefixReads(jwks, ring, n - 1);
      OneMoreReads(jwks, ring, n);
    }
  }

  lemma PublishedKeysRead(jwks: seq<JWK>, ring: KR.Ring)
    requires KR.Publishes(jwks, ring) && forall kid :: kid in ring.keys ==> FitsInt(ring.keys[kid])
    ensures ReadJWKS(jwks) == Some(ring.keys)
  {
    hide ReadJWKS;
    PrefixReads(jwks, ring, |jwks|);
    assert jwks[..|jwks|] == jwks;
    assert ReadJWKS(jwks).value == ring.keys;
  }

  predicate Signing(k: JWK) { k.kty == "RSA" && k.alg == "RS256" }

  /** The i-th key is the last signing key with its kid. */
  predicate LastSigning(jwks: seq<JWK>, i: nat) {
    && i < |jwks| && Signing(jwks[i]) && ParseKey(jwks[i].n, jwks[i].e).Some?
    && forall j :: i < j < |jwks| ==> !(Signing(jwks[j]) && jwks[j].kid == jwks[i].kid)
  }

  ghost predicate KeysRead(jwks: seq<JWK>, keys: Keys) {
    && (forall i :: 0 <= i < |jwks| && Signing(jwks[i]) ==> jwks[i].kid in keys)
    && (forall kid :: kid in keys ==>
          exists i: nat :: LastSigning(jwks, i) && jwks[i].kid == kid && ParseKey(jwks[i].n, jwks[i].e) == Some(keys[kid]))
  }

  /**
    Any document is read exactly if each RS256 signing key in it is readable;
    other keys do not matter. What is read has one key per kid, the last.
   */
  lemma {:induction false} DocumentsReadExactly(jwks: seq<JWK>)
    ensures ReadJWKS(jwks).Some? <==>
              forall i :: 0 <= i < |jwks| && Signing(jwks[i]) ==> ParseKey(jwks[i].n, jwks[i].e).Some?
    ensures ReadJWKS(jwks).Some? ==> KeysRead(jwks, ReadJWKS(jwks).value)
    decreases |jwks|
  {
    hide ParseKey;
    if jwks != [] {
      hide KeysRead;
      var before := jwks[..|jwks| - 1];
      DocumentsReadExactly(before);
      assert forall i :: 0 <= i < |before| ==> before[i] == jwks[i];
      if ReadJWKS(jwks).Some? { ReadingGoesOn(jwks, ReadJWKS(before).value); }
    }
  }

  lemma ReadingGoesOn(jwks: seq<JWK>, keys: Keys)
    requires jwks != [] && KeysRead(jwks[..|jwks| - 1], keys)
    requires var k := jwks[|jwks| - 1]; Signing(k) ==> ParseKey(k.n, k.e).Some?
    ensures var k := jwks[|jwks| - 1];
            KeysRead(jwks, if Signing(k) then keys[k.kid := ParseKey(k.n, k.e).value] else keys)
  {
    hide ParseKey;
    var n := |jwks| - 1;
    var before, k := jwks[..n], jwks[n];
    var keys' := if Signing(k) then keys[k.kid := ParseKey(k.n, k.e).value] else keys;
    assert forall i :: 0 <= i < n ==> before[i] == jwks[i];
    forall kid | kid in keys'
      ensures exists i: nat :: LastSigning(jwks, i) && jwks[i].kid == kid && ParseKey(jwks[i].n, jwks[i].e) == Some(keys'[kid])
    {
      if Signing(k) && kid == k.kid {
        assert LastSigning(jwks, n);
      } else {
        var i: nat :| LastSigning(before, i) && before[i].kid == kid && ParseKey(before[i].n, before[i].e) == Some(keys[kid]);
        assert LastSigning(jwks, i) && jwks[i] == before[i];
      }
    }
  }

  // ---- the cache ----

  /** fetchedAt is Go's zero time before the first fetch, older than any cache lifetime. */
  datatype Cache = Cache(keys: Keys, fetchedAt: Option<Time>)

  predicate IsFresh(c: Cache, now: Time) { c.fetchedAt.Some? && now - c.fetchedAt.value < CACHE_TTL }

  /** The endpoint as one fetch finds it: a document, or no usable answer. */
  datatype Endpoint = Serves(jwks: seq<JWK>) | Unreachable

  function Fetched(e: Endpoint): Option<Keys> { if e.Serves? then ReadJWKS(e.jwks) else None }

  function Lookup(keys: Keys, kid: string): Option<PublicKey> { if kid in keys then Some(keys[kid]) else None }

  /** getKey. */
  function GetKey(c: Cache, kid: string, e: Endpoint, now: Time): (Cache, Option<PublicKey>) {
    if kid in c.keys && IsFresh(c, now) then (c, Some(c.keys[kid]))
    else
      match Fetched(e)
      case None => (c, Lookup(c.keys, kid))
      case Some(keys) => (Cache(keys, Some(now)), Lookup(keys, kid))
  }

  class Verifier {
    const issuer: string
    const audience: string
    var keys: Keys
    var fetchedAt: Option<Time>

    constructor (issuer: string, audience: string)
      ensures View() == Cache(map[], None) && this.issuer == issuer && this.audience == audience
    {
      this.issuer, this.audience := issuer, audience;
      keys, fetchedAt := map[], None;
    }

    ghost function View(): Cache
      reads this
    {
      Cache(keys, fetchedAt)
    }

    /** fetchJWKS: builds the new map first and replaces the cache only when all of it was read. */
    method FetchJWKS(e: Endpoint, now: Time) returns (ok: bool)
      modifies this
      ensures ok <==> Fetched(e).Some?
      ensures View() == if ok then Cache(Fetched(e).value, Some(now)) else old(View())
    {
      if e.Unreachable? { return false; }
      var newKeys: Keys := map[];
      for i := 0 to |e.jwks|
        invariant ReadJWKS(e.jwks[..i]) == Some(newKeys)
        invariant View() == old(View())
      {
        assert e.jwks[..i + 1][..i] == e.jwks[..i];
        var k := e.jwks[i];
        if k.kty != "RSA" || k.alg != RS256 { continue; }
        var pub := ParseKey(k.n, k.e);
        if pub.None? {
          ReadStops(e.jwks, i);
          return false;
        }
        newKeys := newKeys[k.kid := pub.value];
      }
      assert e.jwks[..|e.jwks|] == e.jwks;
      keys, fetchedAt := newKeys, Some(now);
      ok := true;
    }

    method Key(kid: string, e: Endpoint, now: Time) returns (key: Option<PublicKey>)
      modifies this
      ensures (View(), key) == GetKey(old(View()), kid, e, now)
    {
      hide ReadJWKS;
      var isFresh := fetchedAt.Some? && now - fetchedAt.value < CACHE_TTL;
      if kid in keys && isFresh { return Some(keys[kid]); }
      var ok := FetchJWKS(e, now);
      key := if kid in keys then Some(keys[kid]) else None;
    }

    /** Verify. */
    method VerifyToken(t: Token, e: Endpoint, now: Time) returns (r: Result<(), TokenError>)
      modifies this
      ensures (View(), r) == Verified(old(View()), t, e, issuer, audience, now)
    {
      if t.Malformed? { return Err(InvalidToken); }
      if t.header.alg != RS256 { return Err(UnexpectedAlg); }
      var key := Key(t.header.kid, e, now);
      if key.None? { return Err(InvalidToken); }
      if t.signature != Signature(key.value, t.header, t.claims) { return Err(SignatureInvalid); }
      if Unix(now) > t.claims.expiresAt { return Err(TokenExpired); }
      if t.claims.issuer != issuer { return Err(InvalidClaims); }
      if t.claims.audience != audience { return Err(InvalidClaims); }
      if t.claims.subject == "" { return Err(InvalidClaims); }
      return Ok(());
    }
  }

  lemma {:induction false} ReadStops(jwks: seq<JWK>, i: nat)
    requires i < |jwks| && ReadJWKS(jwks[..i + 1]).None?
    ensures ReadJWKS(jwks).None?
    decreases |jwks|
  {
    if i + 1 < |jwks| {
      var before := jwks[..|jwks| - 1];
      assert before[..i + 1] == jwks[..i + 1];
      ReadStops(before, i);
    } else {
      assert jwks[..i + 1] == jwks;
    }
  }

  /** The checks of Verify once the key lookup has answered. */
  function Check(t: Token, key: Option<PublicKey>, issuer: string, audience: string, now: Time): Result<(), TokenError>
    requires t.Compact?
  {
    if key.None? then Err(InvalidToken)
    else
      match VerifyRS256(t, key.value, now)
      case Err(e) => Err(e)
      case Ok(claims) =>
        if claims.issuer != issuer || claims.audience != audience || claims.subject == "" then Err(InvalidClaims) else Ok(())
  }

  /** Verify, with the key endpoint as one fetch would find it. */
  function Verified(c: Cache, t: Token, e: Endpoint, issuer: string, audience: string, now: Time)
    : (Cache, Result<(), TokenError>)
  {
    if t.Malformed? then (c, Err(InvalidToken))
    else if t.header.alg != RS256 then (c, Err(UnexpectedAlg))
    else var (c', key) := GetKey(c, t.header.kid, e, now); (c', Check(t, key, issuer, audience, now))
  }

  /**
    The endpoint matters to a lookup exactly when the kid is not cached or the
    cache is five minutes old or never filled; a usable answer then replaces
    the cache as a whole.
   */
  lemma FetchesExactly(c: Cache, kid: string, e: Endpoint, now: Time)
    ensures var (c', key) := GetKey(c, kid, e, now);
            var serves := kid in c.keys && c.fetchedAt.Some? && now < c.fetchedAt.value + 5 * MINUTE;
            && (serves ==> c' == c && key == Some(c.keys[kid]))
            && (!serves && Fetched(e).Some? ==> c' == Cache(Fetched(e).value, Some(now)))
            && (!serves && Fetched(e).None? ==> c' == c)
            && (!serves ==> key.Some? == (kid in c'.keys) && (key.Some? ==> key.value == c'.keys[kid]))
  {
    hide ReadJWKS;
  }

  // ---- sequential runs ----

  /** One lookup, with the key set published at that moment and whether the endpoint answered. */
  datatype Call = Call(kid: string, published: Keys, endpoint: Endpoint, now: Time)

  /** The endpoint serves what is published, or nothing. */
  ghost predicate Honest(c: Call) { c.endpoint.Serves? ==> ReadJWKS(c.endpoint.jwks) == Some(c.published) }

  /** The published set only grows, as it does under rotation. */
  ghost predicate Growing(published: Keys, calls: seq<Call>)
    decreases |calls|
  {
    calls != [] ==> KR.Extends(published, calls[0].published) && Growing(calls[0].published, calls[1..])
  }

  function Answers(c: Cache, calls: seq<Call>): seq<Option<PublicKey>>
    decreases |calls|
  {
    if calls == [] then []
    else
      var (c', key) := GetKey(c, calls[0].kid, calls[0].endpoint, calls[0].now);
      [key] + Answers(c', calls[1..])
  }

  lemma ExtendsIsTransitive(a: Keys, b: Keys, c: Keys)
    requires KR.Extends(a, b) && KR.Extends(b, c)
    ensures KR.Extends(a, c)
  {
  }

  /** One lookup against a cache that holds only keys published by now. */
  lemma LookupAgrees(c: Cache, call: Call)
    requires KR.Extends(c.keys, call.published) && Honest(call)
    ensures var (c', key) := GetKey(c, call.kid, call.endpoint, call.now);
            && KR.Extends(c'.keys, call.published)
            && (call.endpoint.Serves? ==> key == Lookup(call.published, call.kid))
            && (key.Some? ==> Lookup(call.published, call.kid) == key)
  {
    hide ReadJWKS;
  }

  /**
    Cache agreement: in every sequential run over a published set that only
    grows, each lookup made while the endpoint answers gives what an uncached
    fetch would give; and whatever key is returned at any time is published
    under that kid.
   */
  lemma {:induction false} CacheAgrees(c: Cache, published: Keys, calls: seq<Call>)
    requires KR.Extends(c.keys, published) && Growing(published, calls)
    requires forall i :: 0 <= i < |calls| ==> Honest(calls[i])
    ensures |Answers(c, calls)| == |calls|
    ensures forall i :: 0 <= i < |calls| ==>
              && (calls[i].endpoint.Serves? ==> Answers(c, calls)[i] == Lookup(calls[i].published, calls[i].kid))
              && (Answers(c, calls)[i].Some? ==> Answers(c, calls)[i] == Lookup(calls[i].published, calls[i].kid))
    decreases |calls|
  {
    hide GetKey, Honest, Lookup;
    if calls != [] {
      var call := calls[0];
      ExtendsIsTransitive(c.keys, published, call.published);
      LookupAgrees(c, call);
      var (c', key) := GetKey(c, call.kid, call.endpoint, call.now);
      CacheAgrees(c', call.published, calls[1..]);
      var answers := Answers(c, calls);
      assert answers == [key] + Answers(c', calls[1..]);
      forall i | 1 <= i < |calls| ensures answers[i] == Answers(c', calls[1..])[i - 1] && calls[i] == calls[1..][i - 1] {}
    }
  }

  // ---- over a history of the key file ----

  /** Empty, or fetched from the ring as it was at some point of the history. */
  ghost predicate FetchedBefore(w: KR.World, events: seq<KR.Event>, keys: Keys) {
    keys == map[] || exists k :: 0 <= k <= |events| && keys == KR.After(w, events[..k]).ring.keys
  }

  lemma EarlierFetchExtends(w: KR.World, events: seq<KR.Event>, keys: Keys)
    requires KR.Fresh(w) && KR.PossibleRun(w, events) && FetchedBefore(w, events, keys)
    ensures KR.Extends(keys, KR.After(w, events).ring.keys)
  {
    if keys != map[] {
      var k :| 0 <= k <= |events| && keys == KR.After(w, events[..k]).ring.keys;
      KR.RingsExtendBetween(w, events, k, |events|);
      assert events[..|events|] == events;
    }
  }

  /** Lookups spread over the history: stages says how many events had happened before each. */
  ghost predicate CallsOn(w: KR.World, events: seq<KR.Event>, calls: seq<Call>, stages: seq<nat>) {
    && |stages| == |calls|
    && (forall i :: 0 <= i < |stages| ==> stages[i] <= |events|)
    && (forall i, j :: 0 <= i < j < |stages| ==> stages[i] <= stages[j])
    && (forall i :: 0 <= i < |calls| ==> calls[i].published == KR.After(w, events[..stages[i]]).ring.keys)
  }

  /** What a real history publishes only grows. */
  lemma {:induction false} HistoryIsGrowing(w: KR.World, events: seq<KR.Event>, calls: seq<Call>, stages: seq<nat>, n: nat)
    requires KR.Fresh(w) && KR.PossibleRun(w, events) && CallsOn(w, events, calls, stages)
    requires n <= |events| && forall i :: 0 <= i < |stages| ==> n <= stages[i]
    ensures Growing(KR.After(w, events[..n]).ring.keys, calls)
    decreases |calls|
  {
    hide KR.After, KR.Extends;
    if calls != [] {
      KR.RingsExtendBetween(w, events, n, stages[0]);
      HistoryIsGrowing(w, events, calls[1..], stages[1..], stages[0]);
    }
  }

  /**
    The cache against the key history: from an empty cache, through any
    rotations, reloads, clock readings and failures of the endpoint, each
    lookup that reaches the endpoint gives what the ring holds at that moment,
    and any key ever returned is one the ring holds under that kid.
   */
  lemma CacheAgreesOnHistory(w: KR.World, events: seq<KR.Event>, calls: seq<Call>, stages: seq<nat>)
    requires KR.Fresh(w) && KR.PossibleRun(w, events) && CallsOn(w, events, calls, stages)
    requires forall i :: 0 <= i < |calls| ==> Honest(calls[i])
    ensures var answers := Answers(Cache(map[], None), calls);
            && |answers| == |calls|
            && forall i :: 0 <= i < |calls| ==>
                 var held := Lookup(KR.After(w, events[..stages[i]]).ring.keys, calls[i].kid);
                 && (calls[i].endpoint.Serves? ==> answers[i] == held)
                 && (answers[i].Some? ==> answers[i] == held)
  {
    hide Honest, Lookup, KR.After;
    HistoryIsGrowing(w, events, calls, stages, 0);
    CacheAgrees(Cache(map[], None), KR.After(w, events[..0]).ring.keys, calls);
  }

  /**
    What the API accepts after any key history, of all tokens there can be,
    whatever its cache holds from earlier in that history: exactly the
    unexpired tokens for this issuer and audience, with a subject, signed as
    they stand with a key that was active at some version of the file up to
    the last reload. While the endpoint cannot be reached, those of them whose
    key is in the cache.
   */
  lemma ApiAcceptsExactly(w: KR.World, events: seq<KR.Event>, c: Cache, e: Endpoint, t: Token, now: Time,
                          issuer: string, audience: string)
    requires KR.Fresh(w) && KR.PossibleRun(w, events) && FetchedBefore(w, events, c.keys)
    requires var ring := KR.After(w, events).ring;
             e.Serves? ==> KR.Publishes(e.jwks, ring) && forall kid :: kid in ring.keys ==> FitsInt(ring.keys[kid])
    ensures Verified(c, t, e, issuer, audience, now).1.Ok? <==>
              && KR.SignedWhileActive(w, events, t) && Unix(now) <= t.claims.expiresAt
              && t.claims.issuer == issuer && t.claims.audience == audience && t.claims.subject != ""
              && (e.Unreachable? ==> t.header.kid in c.keys)
  {
    hide ReadJWKS, GetKey, KR.After, KR.OnceActive, KR.LastLoad;
    if t.Compact? {
      var ring := KR.After(w, events).ring;
      EarlierFetchExtends(w, events, c.keys);
      if e.Serves? {
        PublishedKeysRead(e.jwks, ring);
        LookupAgrees(c, Call(t.header.kid, ring.keys, e, now));
      } else {
        UnreachableMeansCached(c, t.header.kid, now);
      }
      KR.RingHoldsOnceActive(w, events, t.header.kid, t.signature.key);
    }
  }

  lemma UnreachableMeansCached(c: Cache, kid: string, now: Time)
    ensures GetKey(c, kid, Unreachable, now) == (c, Lookup(c.keys, kid))
  {
  }

  /**
    Tokens the server signed itself: the API accepts an access token of any
    earlier active key for exactly an hour, whatever its cache holds from
    earlier in the history; an ID token only if its client_id is the API's
    audience.
   */
  lemma ApiAcceptsOldTokens(w: KR.World, events: seq<KR.Event>, i: nat, c: Cache, jwks: seq<JWK>, now: Time, issued: Time,
                            issuer: string, subject: string, audience: string, scope: string, clientID: string, nonce: string)
    requires KR.Fresh(w) && KR.PossibleRun(w, events) && i < |KR.After(w, events).minted|
    requires FetchedBefore(w, events, c.keys)
    requires var ring := KR.After(w, events).ring;
             KR.Publishes(jwks, ring) && forall kid :: kid in ring.keys ==> FitsInt(ring.keys[kid])
    ensures var t := KR.After(w, events).minted[i];
            && t.Compact?
            && var accepted := Verified(c, t, Serves(jwks), issuer, audience, now).1.Ok?;
               && (t.claims == AccessTokenClaims(issuer, subject, audience, scope, issued) ==>
                     (accepted <==> subject != "" && Unix(now) <= Unix(issued) + ACCESS_TOKEN_TTL_SECONDS))
               && (t.claims == IDTokenClaims(issuer, subject, clientID, nonce, issued) ==>
                     (accepted <==> subject != "" && clientID == audience && Unix(now) <= Unix(issued) + ID_TOKEN_TTL_SECONDS))
  {
    hide ReadJWKS, GetKey, FetchedBefore;
    var w' := KR.After(w, events);
    var t := w'.minted[i];
    KR.FreshIsGood(w);
    KR.RunKeepsGood(w, events);
    assert KR.Signed(w'.ring, t);
    EarlierFetchExtends(w, events, c.keys);
    PublishedKeysRead(jwks, w'.ring);
    LookupAgrees(c, Call(t.header.kid, w'.ring.keys, Serves(jwks), now));
    ExpiryIsIssuePlusHour(issued);
  }
}
