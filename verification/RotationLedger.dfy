/**
  What the refresh-token tables keep through every repository operation: the
  rows of a family are its rotation chain cut off from the front.
 */
module RotationLedger {
  import opened Wrappers
  import opened Scopes
  import opened Domain
  import opened TokenProtocol
  import RT = RefreshTokenStore

  ghost predicate SameFamily(l: TokenLedger, a: TokenHash, b: TokenHash) {
    a in l.links && b in l.links && l.links[a].row.family == l.links[b].row.family
  }

  /** Every link stands in its family's chain at its own position. */
  ghost predicate ChainShape(l: TokenLedger) {
    forall h :: h in l.links ==>
      var f := l.links[h].row.family;
      f in l.chain && l.links[h].pos < |l.chain[f]| && l.chain[f][l.links[h].pos] == h
  }

  /** Chains consist of links of their own family, and none is empty. */
  ghost predicate ChainsAreLinks(l: TokenLedger) {
    && (forall f :: f in l.chain ==> l.chain[f] != [])
    && (forall f, i :: f in l.chain && 0 <= i < |l.chain[f]| ==>
          var h := l.chain[f][i];
          h in l.links && l.links[h].row.family == f && l.links[h].pos == i)
  }

  /** A row is its link as inserted, up to the consumed flag. */
  ghost predicate RowsAreLinks(l: TokenLedger) {
    forall h :: h in l.rows ==> h in l.links && l.rows[h] == l.links[h].row.(consumed := l.rows[h].consumed)
  }

  ghost predicate LastUnconsumed(l: TokenLedger)
    requires ChainShape(l) && RowsAreLinks(l)
  {
    forall h :: h in l.rows ==>
      (l.rows[h].consumed <==> l.links[h].pos + 1 < |l.chain[l.links[h].row.family]|)
  }

  /** Along a chain, expiry never decreases and the grant never widens. */
  ghost predicate Descends(l: TokenLedger) {
    forall a, b :: SameFamily(l, a, b) ==>
      var ra, rb := l.links[a].row, l.links[b].row;
      && ra.client == rb.client && ra.user == rb.user && ra.authTime == rb.authTime
      && (l.links[a].pos <= l.links[b].pos ==>
            ra.expiresAt <= rb.expiresAt && ValueSet(rb.scope) <= ValueSet(ra.scope))
  }

  /** Behind a stored row, a link is missing only once it has expired. */
  ghost predicate SuffixStored(l: TokenLedger, now: Time) {
    forall a, b :: SameFamily(l, a, b) && a in l.rows && l.links[a].pos < l.links[b].pos ==>
      b in l.rows || l.links[b].row.expiresAt <= now
  }

  ghost predicate RevokedEmpty(l: TokenLedger) {
    && (forall h :: h in l.rows ==> l.rows[h].family !in l.revoked)
    && (forall f :: f in l.revoked ==> f in l.chain)
  }

  /** Links parse back, and none outlives what is minted now. */
  ghost predicate Bounded(l: TokenLedger, now: Time) {
    forall h :: h in l.links ==>
      l.links[h].row.expiresAt <= now + REFRESH_TOKEN_TTL && ParseRefresh(l.links[h].row.scope).Ok?
  }

  ghost predicate Inv(l: TokenLedger, now: Time) {
    && ChainShape(l) && ChainsAreLinks(l) && RowsAreLinks(l) && LastUnconsumed(l) && Descends(l)
    && SuffixStored(l, now) && RevokedEmpty(l) && Bounded(l, now)
  }

  /** rt is what some call once read from, or inserted under, its hash. */
  ghost predicate Snapshot(l: TokenLedger, rt: RefreshToken) {
    && rt.hash in l.links && Canonical(rt.scope)
    && var w := l.links[rt.hash].row;
       && rt.family == w.family && rt.client == w.client && rt.user == w.user
       && rt.authTime == w.authTime && rt.expiresAt == w.expiresAt && rt.scope.values == ValueSet(w.scope)
  }

  lemma RowsHaveLinks(l: TokenLedger, now: Time)
    requires Inv(l, now)
    ensures l.rows.Keys <= l.links.Keys
  {
  }

  /** Whatever is stored now expires no later than what is minted now. */
  lemma SnapshotIsRecent(l: TokenLedger, rt: RefreshToken, now: Time)
    requires Inv(l, now) && Snapshot(l, rt)
    ensures rt.expiresAt <= now + REFRESH_TOKEN_TTL
  {
  }

  /** next may follow rt in its chain. */
  ghost predicate Follows(rt: RefreshToken, next: RefreshToken) {
    && next.family == rt.family && next.client == rt.client && next.user == rt.user
    && next.authTime == rt.authTime && rt.expiresAt <= next.expiresAt
    && Canonical(next.scope) && next.scope.values <= rt.scope.values
  }

  /**
    Rows may only disappear one by one when expired, and otherwise by whole
    families; that covers lazy eviction, the purge, family revocation and the
    two administrative cascades.
   */
  ghost predicate LawfulDeletion(rows: RT.Rows, rows': RT.Rows, now: Time) {
    && (forall h :: h in rows' ==> h in rows && rows'[h] == rows[h])
    && (forall h, k :: h in rows && h !in rows' && k in rows' ==>
          rows[h].expiresAt <= now || rows[k].family != rows[h].family)
  }

  lemma DeletionKeepsInv(l: TokenLedger, rows': RT.Rows, revoked': set<FamilyID>, now: Time)
    requires Inv(l, now) && LawfulDeletion(l.rows, rows', now)
    requires revoked' <= l.chain.Keys && forall h :: h in rows' ==> rows'[h].family !in revoked'
    ensures Inv(l.(rows := rows', revoked := revoked'), now)
  {
    var l' := l.(rows := rows', revoked := revoked');
    forall a, b | SameFamily(l', a, b) && a in rows' && l'.links[a].pos < l'.links[b].pos
      ensures b in rows' || l'.links[b].row.expiresAt <= now
    {
      assert SameFamily(l, a, b);
    }
    assert Descends(l') by {
      forall a, b | SameFamily(l', a, b) ensures SameFamily(l, a, b) {}
    }
  }

  lemma PruningKeepsInv(l: TokenLedger, rows': RT.Rows, now: Time)
    requires Inv(l, now) && LawfulDeletion(l.rows, rows', now)
    ensures Inv(l.(rows := rows'), now)
  {
    hide Inv;
    UnrevokedAfter(l, rows', now);
    DeletionKeepsInv(l, rows', l.revoked, now);
    assert l.(rows := rows', revoked := l.revoked) == l.(rows := rows');
  }

  lemma UnrevokedAfter(l: TokenLedger, rows': RT.Rows, now: Time)
    requires Inv(l, now) && LawfulDeletion(l.rows, rows', now)
    ensures l.revoked <= l.chain.Keys && forall h :: h in rows' ==> rows'[h].family !in l.revoked
  {
  }

  /** Reading a hash evicts its row only when that has expired. */
  lemma FindKeepsInv(l: TokenLedger, h: TokenHash, now: Time)
    requires Inv(l, now)
    ensures Inv(l.(rows := RT.FindByTokenHash(l.rows, h, now).0), now)
  {
    hide Inv;
    PruningKeepsInv(l, RT.FindByTokenHash(l.rows, h, now).0, now);
  }

  lemma PurgeKeepsInv(l: TokenLedger, now: Time)
    requires Inv(l, now)
    ensures Inv(l.(rows := RT.PurgeExpired(l.rows, now)), now)
  {
    hide Inv;
    PruningKeepsInv(l, RT.PurgeExpired(l.rows, now), now);
  }

  lemma CascadesKeepInv(l: TokenLedger, u: UserID, c: ClientID, now: Time)
    requires Inv(l, now)
    ensures Inv(l.(rows := RT.DropUser(l.rows, u)), now)
    ensures Inv(l.(rows := RT.DropClient(l.rows, c)), now)
  {
    hide Inv;
    CascadesAreLawful(l, u, c, now);
    PruningKeepsInv(l, RT.DropUser(l.rows, u), now);
    PruningKeepsInv(l, RT.DropClient(l.rows, c), now);
  }

  /** Which request drew a value is no concern of the chains. */
  lemma MakersKeepInv(l: TokenLedger, l': TokenLedger, now: Time)
    requires Inv(l, now) && l' == l.(makers := l'.makers, founders := l'.founders)
    ensures Inv(l', now)
  {
    assert ChainShape(l') && RowsAreLinks(l');
    assert ChainsAreLinks(l');
    assert Descends(l') && SuffixStored(l', now) by {
      forall a, b | SameFamily(l', a, b) ensures SameFamily(l, a, b) {}
    }
  }

  lemma ClockKeepsInv(l: TokenLedger, now: Time, now': Time)
    requires Inv(l, now) && now <= now'
    ensures Inv(l, now')
  {
  }

  /** Every row but those of family f is as it was, and so is every chain. */
  ghost predicate SparesOthers(l: TokenLedger, l': TokenLedger, f: FamilyID) {
    && l'.links == l.links && l'.chain == l.chain
    && (forall h :: h in l'.rows <==> h in l.rows && l.rows[h].family != f)
    && (forall h :: h in l'.rows ==> l'.rows[h] == l.rows[h])
  }

  lemma RevocationSparesOthers(l: TokenLedger, f: FamilyID)
    ensures SparesOthers(l, RevokeChain(l, f), f)
  {
  }

  lemma RevocationKeepsInv(l: TokenLedger, rt: RefreshToken, now: Time)
    requires Inv(l, now) && Snapshot(l, rt)
    ensures Inv(RevokeChain(l, rt.family), now)
    ensures SparesOthers(l, RevokeChain(l, rt.family), rt.family)
  {
    RevocationSparesOthers(l, rt.family);
    hide SparesOthers;
    DeletionKeepsInv(l, RT.RevokeFamily(l.rows, rt.family), l.revoked + {rt.family}, now);
  }

  /** A user's rows and a client's rows are whole families. */
  lemma CascadesAreLawful(l: TokenLedger, u: UserID, c: ClientID, now: Time)
    requires Inv(l, now)
    ensures LawfulDeletion(l.rows, RT.DropUser(l.rows, u), now)
    ensures LawfulDeletion(l.rows, RT.DropClient(l.rows, c), now)
  {
    forall h, k | h in l.rows && k in l.rows && l.rows[h].family == l.rows[k].family
      ensures l.rows[h].user == l.rows[k].user && l.rows[h].client == l.rows[k].client
    {
      assert SameFamily(l, h, k);
    }
  }

  /** A stored hash reads back as a snapshot of its link. */
  lemma FoundIsSnapshot(l: TokenLedger, h: TokenHash, now: Time)
    requires Inv(l, now)
    ensures var (rows', found) := RT.FindByTokenHash(l.rows, h, now);
            && LawfulDeletion(l.rows, rows', now)
            && (found.Ok? ==> Snapshot(l, found.value) && found.value.hash == h && h in l.rows
                              && found.value.consumed == l.rows[h].consumed)
  {
    if h in l.rows { ParsedIsCanonical(l.rows[h].scope); }
  }

  /** What a successful lookup returns, seen from the table it left behind. */
  lemma FoundAfterFind(l: TokenLedger, h: TokenHash, now: Time)
    requires Inv(l, now)
    ensures var (rows', found) := RT.FindByTokenHash(l.rows, h, now);
            found.Ok? ==> Snapshot(l.(rows := rows'), found.value)
                          && Canonical(found.value.scope) && found.value.hash == h
  {
    FoundIsSnapshot(l, h, now);
  }

  /** l' is l with h stored as a new last link of its family. */
  ghost predicate Appended(l: TokenLedger, l': TokenLedger, h: TokenHash) {
    && h !in l.links && l'.links.Keys == l.links.Keys + {h} && l'.rows.Keys == l.rows.Keys + {h}
    && (forall k :: k in l.links ==> l'.links[k] == l.links[k])
    && (forall k :: SameFamily(l', k, h) && k != h ==> l'.links[k].pos < l'.links[h].pos)
  }

  lemma AppendKeepsDescent(l: TokenLedger, l': TokenLedger, h: TokenHash)
    requires Descends(l) && Appended(l, l', h)
    requires forall k :: SameFamily(l', k, h) && k != h ==>
               var rk, rh := l'.links[k].row, l'.links[h].row;
               && rk.client == rh.client && rk.user == rh.user && rk.authTime == rh.authTime
               && rk.expiresAt <= rh.expiresAt && ValueSet(rh.scope) <= ValueSet(rk.scope)
    ensures Descends(l')
  {
    forall a, b | SameFamily(l', a, b)
      ensures var ra, rb := l'.links[a].row, l'.links[b].row;
              && ra.client == rb.client && ra.user == rb.user && ra.authTime == rb.authTime
              && (l'.links[a].pos <= l'.links[b].pos ==>
                    ra.expiresAt <= rb.expiresAt && ValueSet(rb.scope) <= ValueSet(ra.scope))
    {
      if a != h && b != h {
        assert SameFamily(l, a, b);
      } else if a == h && b != h {
        assert SameFamily(l', b, h);
      }
    }
  }

  lemma AppendKeepsSuffix(l: TokenLedger, l': TokenLedger, h: TokenHash, now: Time)
    requires SuffixStored(l, now) && Appended(l, l', h)
    ensures SuffixStored(l', now)
  {
    forall a, b | SameFamily(l', a, b) && a in l'.rows && l'.links[a].pos < l'.links[b].pos
      ensures b in l'.rows || l'.links[b].row.expiresAt <= now
    {
      if a != h && b != h { assert SameFamily(l, a, b); }
      else if a == h && b != h { assert SameFamily(l', b, h); }
    }
  }

  lemma AppendKeepsShape(l: TokenLedger, rows: RT.Rows, rt: RefreshToken, chain: seq<TokenHash>)
    requires ChainShape(l) && rt.hash !in l.links
    requires chain == if rt.family in l.chain then l.chain[rt.family] else []
    ensures ChainShape(AddLink(l, rows, rt, chain))
  {
  }

  lemma AppendKeepsChains(l: TokenLedger, rows: RT.Rows, rt: RefreshToken, chain: seq<TokenHash>)
    requires ChainsAreLinks(l) && rt.hash !in l.links
    requires chain == if rt.family in l.chain then l.chain[rt.family] else []
    ensures ChainsAreLinks(AddLink(l, rows, rt, chain))
  {
  }

  lemma LinkAppends(l: TokenLedger, rows: RT.Rows, rt: RefreshToken, chain: seq<TokenHash>)
    requires ChainShape(l) && rt.hash !in l.links && rows.Keys == l.rows.Keys + {rt.hash}
    requires chain == if rt.family in l.chain then l.chain[rt.family] else []
    ensures ChainShape(AddLink(l, rows, rt, chain))
    ensures Appended(l, AddLink(l, rows, rt, chain), rt.hash)
  {
    AppendKeepsShape(l, rows, rt, chain);
  }

  /** A successful rotation, field by field. */
  ghost predicate Rotated(l: TokenLedger, l': TokenLedger, previous: TokenHash, next: RefreshToken) {
    && previous in l.rows && !l.rows[previous].consumed && next.hash !in l.rows
    && l'.rows == l.rows[previous := l.rows[previous].(consumed := true)][next.hash := RT.RowOf(next)]
    && next.family in l.chain
    && l' == AddLink(l, l'.rows, next, l.chain[next.family])
  }

  lemma RotatedRowsAreLinks(l: TokenLedger, l': TokenLedger, h: TokenHash, next: RefreshToken)
    requires RowsAreLinks(l) && Rotated(l, l', h, next) && next.hash !in l.links
    ensures RowsAreLinks(l')
  {
  }

  lemma RotatedLastUnconsumed(l: TokenLedger, l': TokenLedger, h: TokenHash, next: RefreshToken)
    requires ChainShape(l) && RowsAreLinks(l) && LastUnconsumed(l)
    requires Rotated(l, l', h, next) && next.hash !in l.links && l.links[h].row.family == next.family
    requires ChainShape(l') && RowsAreLinks(l')
    ensures LastUnconsumed(l')
  {
    var c := l.chain[next.family];
    assert c[l.links[h].pos] == h;
    forall k | k in l'.rows
      ensures l'.rows[k].consumed <==> l'.links[k].pos + 1 < |l'.chain[l'.links[k].row.family]|
    {
      if k in l.rows {
        assert l.rows[k].consumed <==> l.links[k].pos + 1 < |l.chain[l.links[k].row.family]|;
        if l.links[k].row.family == next.family { assert c[l.links[k].pos] == k; }
      }
    }
  }

  lemma RotatedLandsLast(l: TokenLedger, l': TokenLedger, rt: RefreshToken, next: RefreshToken)
    requires ChainShape(l) && RowsAreLinks(l) && LastUnconsumed(l) && Snapshot(l, rt)
    requires Rotated(l, l', rt.hash, next) && next.family == rt.family && next.hash !in l.links
    ensures l.links[rt.hash].pos + 1 == |l.chain[rt.family]|
    ensures ChainShape(l') && Appended(l, l', next.hash)
  {
    LinkAppends(l, l'.rows, next, l.chain[next.family]);
  }

  lemma RotatedDescends(l: TokenLedger, l': TokenLedger, rt: RefreshToken, next: RefreshToken)
    requires ChainShape(l) && Descends(l) && Snapshot(l, rt) && Follows(rt, next)
    requires l'.links == l.links[next.hash := Link(RT.RowOf(next), |l.chain[rt.family]|)]
    requires l.links[rt.hash].pos + 1 == |l.chain[rt.family]| && Appended(l, l', next.hash)
    ensures Descends(l')
  {
    ReloadPreservesScope(next.scope);
    forall k | SameFamily(l', k, next.hash) && k != next.hash
      ensures var rk, rh := l'.links[k].row, l'.links[next.hash].row;
              && rk.client == rh.client && rk.user == rh.user && rk.authTime == rh.authTime
              && rk.expiresAt <= rh.expiresAt && ValueSet(rh.scope) <= ValueSet(rk.scope)
    {
      assert SameFamily(l, k, rt.hash);
      assert l.links[k].pos <= l.links[rt.hash].pos;
    }
    AppendKeepsDescent(l, l', next.hash);
  }

  lemma RotatedBoundedUnrevoked(l: TokenLedger, l': TokenLedger, rt: RefreshToken, next: RefreshToken, now: Time)
    requires RowsAreLinks(l) && RevokedEmpty(l) && Bounded(l, now) && Snapshot(l, rt)
    requires Rotated(l, l', rt.hash, next) && next.family == rt.family && next.hash !in l.links
    requires next.expiresAt <= now + REFRESH_TOKEN_TTL && Canonical(next.scope)
    ensures RevokedEmpty(l') && Bounded(l', now)
  {
    assert l.rows[rt.hash].family == rt.family;
  }

  lemma RotatedKeepsInv(l: TokenLedger, l': TokenLedger, rt: RefreshToken, next: RefreshToken, now: Time)
    requires Inv(l, now) && Snapshot(l, rt) && Follows(rt, next) && Rotated(l, l', rt.hash, next)
    requires next.hash !in l.links && next.expiresAt <= now + REFRESH_TOKEN_TTL
    ensures Inv(l', now)
  {
    AppendKeepsChains(l, l'.rows, next, l.chain[next.family]);
    RotatedLandsLast(l, l', rt, next);
    RotatedRowsAreLinks(l, l', rt.hash, next);
    RotatedLastUnconsumed(l, l', rt.hash, next);
    RotatedDescends(l, l', rt, next);
    AppendKeepsSuffix(l, l', next.hash, now);
    RotatedBoundedUnrevoked(l, l', rt, next, now);
  }

  /** A rotation that succeeds found the last link of its chain, and adds the one behind it. */
  lemma RotationExtendsChain(l: TokenLedger, rt: RefreshToken, next: RefreshToken, now: Time)
    requires ChainShape(l) && RowsAreLinks(l) && LastUnconsumed(l) && Snapshot(l, rt)
    requires next.family == rt.family && next.hash !in l.links && RotateLink(l, rt.hash, next, now).1.Ok?
    ensures var l' := RotateLink(l, rt.hash, next, now).0;
            && Rotated(l, l', rt.hash, next)
            && l.chain[rt.family][|l.chain[rt.family]| - 1] == rt.hash
            && l'.chain[rt.family] == l.chain[rt.family] + [next.hash]
  {
    var l' := RotateLink(l, rt.hash, next, now).0;
    assert rt.family in l.chain;
    RotatedLandsLast(l, l', rt, next);
  }

  lemma RotationKeepsInv(l: TokenLedger, rt: RefreshToken, next: RefreshToken, now: Time)
    requires Inv(l, now) && Snapshot(l, rt) && Follows(rt, next)
    requires next.hash !in l.links && next.expiresAt <= now + REFRESH_TOKEN_TTL
    ensures Inv(RotateLink(l, rt.hash, next, now).0, now)
  {
    if RotateLink(l, rt.hash, next, now).1.Ok? {
      RotationExtendsChain(l, rt, next, now);
      RotatedKeepsInv(l, RotateLink(l, rt.hash, next, now).0, rt, next, now);
    }
  }

  /** A successful first save, field by field. */
  ghost predicate Founded(l: TokenLedger, l': TokenLedger, rt: RefreshToken) {
    && rt.hash !in l.links && rt.family !in l.chain
    && l'.rows == l.rows[rt.hash := RT.RowOf(rt)]
    && l' == AddLink(l, l'.rows, rt, []).(origin := l'.origin)
  }

  lemma FoundedShape(l: TokenLedger, l': TokenLedger, rt: RefreshToken)
    requires ChainShape(l) && Founded(l, l', rt)
    ensures ChainShape(l') && Appended(l, l', rt.hash)
    ensures forall k :: SameFamily(l', k, rt.hash) ==> k == rt.hash
  {
    LinkAppends(l, l'.rows, rt, []);
    var l1 := AddLink(l, l'.rows, rt, []);
    forall k | SameFamily(l', k, rt.hash) ensures SameFamily(l1, k, rt.hash) {}
  }

  lemma FoundedRowsAreLinks(l: TokenLedger, l': TokenLedger, rt: RefreshToken)
    requires RowsAreLinks(l) && Founded(l, l', rt)
    ensures RowsAreLinks(l')
  {
  }

  lemma FoundedLastUnconsumed(l: TokenLedger, l': TokenLedger, rt: RefreshToken)
    requires ChainShape(l) && RowsAreLinks(l) && LastUnconsumed(l) && Founded(l, l', rt)
    requires ChainShape(l') && RowsAreLinks(l')
    ensures LastUnconsumed(l')
  {
    forall k | k in l'.rows
      ensures l'.rows[k].consumed <==> l'.links[k].pos + 1 < |l'.chain[l'.links[k].row.family]|
    {
      if k in l.rows {
        assert l.links[k].row.family in l.chain;
        assert l'.chain[l.links[k].row.family] == l.chain[l.links[k].row.family];
      }
    }
  }

  lemma FoundedBoundedUnrevoked(l: TokenLedger, l': TokenLedger, rt: RefreshToken, now: Time)
    requires RevokedEmpty(l) && Bounded(l, now) && Founded(l, l', rt)
    requires rt.expiresAt <= now + REFRESH_TOKEN_TTL && Canonical(rt.scope)
    ensures RevokedEmpty(l') && Bounded(l', now)
  {
  }

  /** The first token of a fresh family starts a chain of its own. */
  lemma FirstSaveKeepsInv(l: TokenLedger, rt: RefreshToken, x: Code, now: Time)
    requires Inv(l, now)
    requires rt.hash !in l.links && rt.family !in l.chain
    requires rt.expiresAt <= now + REFRESH_TOKEN_TTL && Canonical(rt.scope)
    ensures SaveFirst(l, rt, x).1.Ok? && Founded(l, SaveFirst(l, rt, x).0, rt)
    ensures Inv(SaveFirst(l, rt, x).0, now)
  {
    var l' := SaveFirst(l, rt, x).0;
    assert rt.hash !in l.rows;
    AppendKeepsChains(l, l'.rows, rt, []);
    FoundedShape(l, l', rt);
    FoundedRowsAreLinks(l, l', rt);
    FoundedLastUnconsumed(l, l', rt);
    FoundedBoundedUnrevoked(l, l', rt, now);
    AppendKeepsDescent(l, l', rt.hash);
    AppendKeepsSuffix(l, l', rt.hash, now);
  }

  // ---- what a reader of the table sees ----

  ghost predicate Shown(l: TokenLedger, h: TokenHash, now: Time) { RT.Live(l.rows, h, now) }

  /** The visible rows of f are exactly the links of its chain from place k on. */
  ghost predicate ShowsSuffix(l: TokenLedger, f: FamilyID, k: nat, now: Time)
    requires f in l.chain
  {
    var c := l.chain[f];
    && k <= |c|
    && (forall i :: 0 <= i < |c| ==> (Shown(l, c[i], now) <==> k <= i))
    && (forall i :: k <= i < |c| ==> c[i] in l.rows && (l.rows[c[i]].consumed <==> i + 1 < |c|))
    && (forall h :: Shown(l, h, now) && l.rows[h].family == f ==> h in c[k..])
  }

  ghost predicate ExpiryAscends(l: TokenLedger, f: FamilyID)
    requires f in l.chain
  {
    var c := l.chain[f];
    forall i, j :: 0 <= i <= j < |c| ==>
      c[i] in l.links && c[j] in l.links && l.links[c[i]].row.expiresAt <= l.links[c[j]].row.expiresAt
  }

  /**
    The chain law: the visible rows of a family are none, or exactly the
    links from some place k of its chain on; the last of them is the only
    unconsumed one, and expiry never decreases along the chain.
   */
  lemma VisibleRowsAreChainSuffix(l: TokenLedger, f: FamilyID, now: Time) returns (k: nat)
    requires Inv(l, now) && f in l.chain
    ensures ShowsSuffix(l, f, k, now) && ExpiryAscends(l, f)
  {
    hide Inv;
    var c := l.chain[f];
    LaterLinksStay(l, f, now);
    k := 0;
    while k < |c| && !Shown(l, c[k], now)
      invariant k <= |c|
      invariant forall i :: 0 <= i < k ==> !Shown(l, c[i], now)
    {
      k := k + 1;
    }
    RowsStandInChain(l, f, now);
    forall h | Shown(l, h, now) && l.rows[h].family == f ensures h in c[k..] {
      assert c[k..][l.links[h].pos - k] == h;
    }
  }

  /** A visible row of f stands in f's chain, consumed exactly if something stands behind it. */
  lemma RowsStandInChain(l: TokenLedger, f: FamilyID, now: Time)
    requires Inv(l, now) && f in l.chain
    ensures forall h :: h in l.rows && l.rows[h].family == f ==>
              h in l.links && l.links[h].pos < |l.chain[f]| && l.chain[f][l.links[h].pos] == h
    ensures forall i :: 0 <= i < |l.chain[f]| && l.chain[f][i] in l.rows ==>
              (l.rows[l.chain[f][i]].consumed <==> i + 1 < |l.chain[f]|)
  {
  }

  /** Behind a visible link all links are visible, and none expires earlier. */
  lemma LaterLinksStay(l: TokenLedger, f: FamilyID, now: Time)
    requires Inv(l, now) && f in l.chain
    ensures ExpiryAscends(l, f)
    ensures forall i, j :: 0 <= i <= j < |l.chain[f]| ==> Shown(l, l.chain[f][i], now) ==> Shown(l, l.chain[f][j], now)
  {
    var c := l.chain[f];
    forall i, j | 0 <= i <= j < |c|
      ensures c[i] in l.links && c[j] in l.links && l.links[c[i]].row.expiresAt <= l.links[c[j]].row.expiresAt
      ensures Shown(l, c[i], now) ==> Shown(l, c[j], now)
    {
      assert SameFamily(l, c[i], c[j]);
    }
  }
}
