/**
  The signing key ring: the file that keygen writes and rotates, the ring the
  server builds from it, and the history of rotations, reloads and signatures.
 */
module KeyRing {
  import opened Wrappers
  import opened Domain
  import opened Jwt

  // ---- the key file ----

  /** A PEM member: absent (the empty string), present but not decodable, or decodable. */
  datatype Pem<T> = Absent | Garbled | Pem(value: T)

  datatype KeyEntry = KeyEntry(kid: string, private: Pem<PrivateKey>, public: Pem<PublicKey>)

  datatype KeyFile = KeyFile(activeKid: string, keys: seq<KeyEntry>)

  /** generateNewKeyFile's content. */
  function NewFile(priv: PrivateKey): KeyFile {
    KeyFile(KeyId(priv.public), [KeyEntry(KeyId(priv.public), Pem(priv), Absent)])
  }

  /** Private keys become public ones; one that does not decode is dropped with a warning. */
  function Demoted(keys: seq<KeyEntry>): seq<KeyEntry> {
    if keys == [] then []
    else
      var before, k := Demoted(keys[..|keys| - 1]), keys[|keys| - 1];
      match k.private
      case Absent => before + [k]
      case Garbled => before
      case Pem(priv) => before + [KeyEntry(k.kid, Absent, Pem(priv.public))]
  }

  function Rotated(file: KeyFile, priv: PrivateKey): KeyFile {
    KeyFile(KeyId(priv.public), [KeyEntry(KeyId(priv.public), Pem(priv), Absent)] + Demoted(file.keys))
  }

  /** rotateKeyFile between reading and writing the file. */
  method RotateKeyFile(file: KeyFile, priv: PrivateKey) returns (ring: KeyFile)
    ensures ring == Rotated(file, priv)
  {
    var retired: seq<KeyEntry> := [];
    for i := 0 to |file.keys|
      invariant retired == Demoted(file.keys[..i])
    {
      assert file.keys[..i + 1][..i] == file.keys[..i];
      var k := file.keys[i];
      if k.private == Absent {
        retired := retired + [k];
        continue;
      }
      if k.private == Garbled { continue; }
      retired := retired + [KeyEntry(k.kid, Absent, Pem(k.private.value.public))];
    }
    assert file.keys[..|file.keys|] == file.keys;
    var newKid := KeyId(priv.public);
    ring := KeyFile(newKid, [KeyEntry(newKid, Pem(priv), Absent)] + retired);
  }

  predicate Readable(k: KeyEntry) { k.private.Pem? || (k.private.Absent? && k.public.Pem?) }

  /** The public key an entry stands for. */
  function Stands(k: KeyEntry): PublicKey
    requires Readable(k)
  {
    if k.private.Pem? then k.private.value.public else k.public.value
  }

  predicate StandsFor(k: KeyEntry, kid: string, key: PublicKey) { Readable(k) && k.kid == kid && Stands(k) == key }

  lemma {:induction false} DemotedKeepsPublic(keys: seq<KeyEntry>, kid: string, key: PublicKey)
    ensures forall i :: 0 <= i < |Demoted(keys)| ==> Demoted(keys)[i].private.Absent?
    ensures (exists i :: 0 <= i < |Demoted(keys)| && StandsFor(Demoted(keys)[i], kid, key))
            <==> (exists i :: 0 <= i < |keys| && StandsFor(keys[i], kid, key))
    decreases |keys|
  {
    if keys != [] {
      var n := |keys| - 1;
      var before, k := keys[..n], keys[n];
      DemotedKeepsPublic(before, kid, key);
      var d, d' := Demoted(before), Demoted(keys);
      assert forall i :: 0 <= i < n ==> before[i] == keys[i];
      assert forall i :: 0 <= i < |d| ==> d'[i] == d[i];
      if StandsFor(k, kid, key) { assert StandsFor(d'[|d|], kid, key); }
      if i :| 0 <= i < n && StandsFor(before[i], kid, key) {
        var j :| 0 <= j < |d| && StandsFor(d[j], kid, key);
        assert StandsFor(d'[j], kid, key);
      }
    }
  }

  /**
    Rotating any file at all: the new key comes first, is the active one and
    the only private one left, and beside it the file stands for exactly the
    public keys it stood for before, under their kids.
   */
  lemma RotationKeepsPublic(file: KeyFile, priv: PrivateKey, kid: string, key: PublicKey)
    ensures var file' := Rotated(file, priv);
            && |file'.keys| > 0 && file'.keys[0] == KeyEntry(file'.activeKid, Pem(priv), Absent)
            && (forall i :: 1 <= i < |file'.keys| ==> file'.keys[i].private.Absent?)
            && ((exists i :: 1 <= i < |file'.keys| && StandsFor(file'.keys[i], kid, key))
                <==> (exists i :: 0 <= i < |file.keys| && StandsFor(file.keys[i], kid, key)))
  {
    hide StandsFor;
    DemotedKeepsPublic(file.keys, kid, key);
    var file', d := Rotated(file, priv), Demoted(file.keys);
    assert forall i :: 0 <= i < |d| ==> file'.keys[i + 1] == d[i];
    if i :| 1 <= i < |file'.keys| && StandsFor(file'.keys[i], kid, key) { assert StandsFor(d[i - 1], kid, key); }
  }

  // ---- the ring in memory ----

  datatype Ring = Ring(activeKid: string, signer: PrivateKey, keys: map<string, PublicKey>)

  datatype LoadError = UnreadablePrivateKey(kid: string) | UnreadablePublicKey(kid: string) | EmptyEntry(kid: string) | NoActiveKey

  datatype Scan = Scan(keys: map<string, PublicKey>, signer: Option<PrivateKey>)

  /** The loop of NewKeyRingFromMaterial over the first entries; a later entry of the same kid wins. */
  function ScanKeys(activeKid: string, keys: seq<KeyEntry>): Result<Scan, LoadError> {
    if keys == [] then Ok(Scan(map[], None))
    else
      var k := keys[|keys| - 1];
      match ScanKeys(activeKid, keys[..|keys| - 1])
      case Err(e) => Err(e)
      case Ok(sc) =>
        match (k.private, k.public)
        case (Garbled, _) => Err(UnreadablePrivateKey(k.kid))
        case (Pem(priv), _) =>
          Ok(Scan(sc.keys[k.kid := priv.public], if k.kid == activeKid then Some(priv) else sc.signer))
        case (Absent, Garbled) => Err(UnreadablePublicKey(k.kid))
        case (Absent, Pem(pub)) => Ok(sc.(keys := sc.keys[k.kid := pub]))
        case (Absent, Absent) => Err(EmptyEntry(k.kid))
  }

  function Load(file: KeyFile): Result<Ring, LoadError> {
    match ScanKeys(file.activeKid, file.keys)
    case Err(e) => Err(e)
    case Ok(sc) => if sc.signer.None? then Err(NoActiveKey) else Ok(Ring(file.activeKid, sc.signer.value, sc.keys))
  }

  /** NewKeyRingFromMaterial; stops at the first entry it cannot read. */
  method NewKeyRing(file: KeyFile) returns (r: Result<Ring, LoadError>)
    ensures r == Load(file)
  {
    var publicKeys: map<string, PublicKey> := map[];
    var signer: Option<PrivateKey> := None;
    for i := 0 to |file.keys|
      invariant ScanKeys(file.activeKid, file.keys[..i]) == Ok(Scan(publicKeys, signer))
    {
      assert file.keys[..i + 1][..i] == file.keys[..i];
      var k := file.keys[i];
      match (k.private, k.public) {
        case (Pem(priv), _) =>
          publicKeys := publicKeys[k.kid := priv.public];
          if k.kid == file.activeKid { signer := Some(priv); }
        case (Absent, Pem(pub)) =>
          publicKeys := publicKeys[k.kid := pub];
        case _ =>
          ScanStops(file.activeKid, file.keys, i);
          return Err(if k.private.Garbled? then UnreadablePrivateKey(k.kid)
                     else if k.public.Garbled? then UnreadablePublicKey(k.kid) else EmptyEntry(k.kid));
      }
    }
    assert file.keys[..|file.keys|] == file.keys;
    if signer.None? { return Err(NoActiveKey); }
    return Ok(Ring(file.activeKid, signer.value, publicKeys));
  }

  lemma {:induction false} ScanStops(activeKid: string, keys: seq<KeyEntry>, i: nat)
    requires i < |keys| && ScanKeys(activeKid, keys[..i + 1]).Err?
    ensures ScanKeys(activeKid, keys) == ScanKeys(activeKid, keys[..i + 1])
    decreases |keys|
  {
    if i + 1 < |keys| {
      var before := keys[..|keys| - 1];
      assert before[..i + 1] == keys[..i + 1];
      ScanStops(activeKid, before, i);
    } else {
      assert keys[..i + 1] == keys;
    }
  }

  /** The i-th of these entries is the last with its kid. */
  predicate LastOfKid(keys: seq<KeyEntry>, i: nat) {
    i < |keys| && forall j :: i < j < |keys| ==> keys[j].kid != keys[i].kid
  }

  /** m has one key for each kid of these entries, that of its last one. */
  ghost predicate KeysOf(keys: seq<KeyEntry>, m: map<string, PublicKey>) {
    && (forall i :: 0 <= i < |keys| ==> Readable(keys[i]) && keys[i].kid in m)
    && (forall kid :: kid in m ==> exists i: nat :: LastOfKid(keys, i) && keys[i].kid == kid && m[kid] == Stands(keys[i]))
  }

  ghost predicate Signs(activeKid: string, k: KeyEntry, priv: PrivateKey) { k.kid == activeKid && k.private == Pem(priv) }

  /** signer is a private key of the active kid, if there is one. */
  ghost predicate SignerOf(activeKid: string, keys: seq<KeyEntry>, signer: Option<PrivateKey>) {
    && (signer.Some? ==> exists i :: 0 <= i < |keys| && Signs(activeKid, keys[i], signer.value))
    && (signer.None? ==> forall i :: 0 <= i < |keys| ==> !(keys[i].kid == activeKid && keys[i].private.Pem?))
  }

  lemma ScanUnfolds(activeKid: string, keys: seq<KeyEntry>)
    requires keys != []
    ensures var k, before := keys[|keys| - 1], ScanKeys(activeKid, keys[..|keys| - 1]);
            && (ScanKeys(activeKid, keys).Ok? <==> before.Ok? && Readable(k))
            && (ScanKeys(activeKid, keys).Ok? ==>
                  ScanKeys(activeKid, keys).value
                  == Scan(before.value.keys[k.kid := Stands(k)],
                          if k.kid == activeKid && k.private.Pem? then Some(k.private.value) else before.value.signer))
  {
  }

  lemma {:induction false} ScanExactly(activeKid: string, keys: seq<KeyEntry>)
    ensures ScanKeys(activeKid, keys).Ok? <==> forall i :: 0 <= i < |keys| ==> Readable(keys[i])
    ensures ScanKeys(activeKid, keys).Ok? ==>
              KeysOf(keys, ScanKeys(activeKid, keys).value.keys) && SignerOf(activeKid, keys, ScanKeys(activeKid, keys).value.signer)
    decreases |keys|
  {
    if keys == [] {
      assert ScanKeys(activeKid, keys) == Ok(Scan(map[], None));
    } else {
      hide KeysOf, SignerOf, ScanKeys, Readable, Stands;
      var n := |keys| - 1;
      var before, k := keys[..n], keys[n];
      ScanUnfolds(activeKid, keys);
      ScanExactly(activeKid, before);
      assert forall i :: 0 <= i < n ==> before[i] == keys[i];
      if ScanKeys(activeKid, before).Ok? && Readable(k) {
        KeysGoOn(keys, ScanKeys(activeKid, before).value.keys);
        SignerGoesOn(activeKid, keys, ScanKeys(activeKid, before).value.signer);
      }
    }
  }

  lemma KeysGoOn(keys: seq<KeyEntry>, m: map<string, PublicKey>)
    requires keys != [] && KeysOf(keys[..|keys| - 1], m) && Readable(keys[|keys| - 1])
    ensures KeysOf(keys, m[keys[|keys| - 1].kid := Stands(keys[|keys| - 1])])
  {
    hide Stands, Readable;
    var n := |keys| - 1;
    var before, m' := keys[..n], m[keys[n].kid := Stands(keys[n])];
    assert forall i :: 0 <= i < n ==> before[i] == keys[i];
    forall kid | kid in m' ensures exists i: nat :: LastOfKid(keys, i) && keys[i].kid == kid && m'[kid] == Stands(keys[i]) {
      if kid == keys[n].kid {
        assert LastOfKid(keys, n);
      } else {
        var i: nat :| LastOfKid(before, i) && before[i].kid == kid && m[kid] == Stands(before[i]);
        assert LastOfKid(keys, i) && keys[i] == before[i];
      }
    }
  }

  lemma SignerGoesOn(activeKid: string, keys: seq<KeyEntry>, signer: Option<PrivateKey>)
    requires keys != [] && SignerOf(activeKid, keys[..|keys| - 1], signer)
    ensures var k := keys[|keys| - 1];
            SignerOf(activeKid, keys, if k.kid == activeKid && k.private.Pem? then Some(k.private.value) else signer)
  {
    var n := |keys| - 1;
    assert forall i :: 0 <= i < n ==> keys[..n][i] == keys[i];
    if keys[n].kid == activeKid && keys[n].private.Pem? {
      assert Signs(activeKid, keys[n], keys[n].private.value);
    } else if signer.Some? {
      var i :| 0 <= i < n && Signs(activeKid, keys[..n][i], signer.value);
      assert Signs(activeKid, keys[i], signer.value);
    }
  }

  /**
    A file loads exactly if each entry has a key that can be read and one of
    the active kid a private one. The ring then has one key for each kid in
    the file, that of its last entry, and signs with a private key of the
    active kid.
   */
  lemma LoadsExactly(file: KeyFile)
    ensures Load(file).Ok? <==>
              && (forall i :: 0 <= i < |file.keys| ==> Readable(file.keys[i]))
              && (exists i :: 0 <= i < |file.keys| && file.keys[i].kid == file.activeKid && file.keys[i].private.Pem?)
    ensures Load(file).Ok? ==>
              var ring := Load(file).value;
              && ring.activeKid == file.activeKid && KeysOf(file.keys, ring.keys)
              && exists i :: 0 <= i < |file.keys| && Signs(file.activeKid, file.keys[i], ring.signer)
  {
    hide KeysOf;
    ScanExactly(file.activeKid, file.keys);
  }

  /** MultiKeyVerifier.Verify. */
  function Verify(ring: Ring, t: Token, now: Time): Result<Claims, TokenError> {
    if t.Malformed? then Err(InvalidToken)
    else if t.header.alg != RS256 then Err(UnexpectedAlg)
    else if t.header.kid !in ring.keys then Err(InvalidToken)
    else VerifyRS256(t, ring.keys[t.header.kid], now)
  }

  // ---- publishing ----

  ghost predicate Publishes(jwks: seq<JWK>, ring: Ring) {
    && (forall i :: 0 <= i < |jwks| ==> jwks[i].kid in ring.keys && jwks[i] == ToJWK(ring.keys[jwks[i].kid], jwks[i].kid))
    && (forall kid :: kid in ring.keys ==> exists i :: 0 <= i < |jwks| && jwks[i].kid == kid)
    && (forall i, j :: 0 <= i < j < |jwks| ==> jwks[i].kid != jwks[j].kid)
  }

  /** MultiKeyProvider.JWKS: the active key first, the others in whatever order the map gives. */
  method JWKS(ring: Ring) returns (jwks: seq<JWK>)
    ensures Publishes(jwks, ring)
    ensures ring.activeKid in ring.keys ==> jwks != [] && jwks[0].kid == ring.activeKid
  {
    jwks := [];
    if ring.activeKid in ring.keys { jwks := [ToJWK(ring.keys[ring.activeKid], ring.activeKid)]; }
    var todo := ring.keys.Keys - {ring.activeKid};
    while todo != {}
      invariant todo <= ring.keys.Keys && ring.activeKid !in todo
      invariant forall i :: 0 <= i < |jwks| ==>
                  jwks[i].kid in ring.keys && jwks[i] == ToJWK(ring.keys[jwks[i].kid], jwks[i].kid) && jwks[i].kid !in todo
      invariant forall kid :: kid in ring.keys && kid !in todo ==> exists i :: 0 <= i < |jwks| && jwks[i].kid == kid
      invariant forall i, j :: 0 <= i < j < |jwks| ==> jwks[i].kid != jwks[j].kid
      invariant ring.activeKid in ring.keys ==> jwks != [] && jwks[0].kid == ring.activeKid
    {
      hide ToJWK;
      ghost var before := jwks;
      var kid :| kid in todo;
      NamesItsKey(ring.keys[kid], kid);
      todo := todo - {kid};
      jwks := jwks + [ToJWK(ring.keys[kid], kid)];
      assert jwks[|before|].kid == kid && forall i :: 0 <= i < |before| ==> jwks[i] == before[i];
    }
  }

  lemma NamesItsKey(key: PublicKey, kid: string)
    ensures ToJWK(key, kid).kid == kid
  {
  }

  // ---- sound files ----

  predicate IsActive(k: KeyEntry, activeKid: string) {
    k.kid == activeKid && k.private.Pem? && k.public == Absent && KeyId(k.private.value.public) == k.kid
  }

  predicate IsRetired(k: KeyEntry) {
    k.private == Absent && k.public.Pem? && KeyId(k.public.value) == k.kid
  }

  /** One private key, the active one, in front; public keys behind it; all kids distinct. */
  ghost predicate Sound(file: KeyFile) {
    && file.keys != [] && IsActive(file.keys[0], file.activeKid)
    && (forall i :: 1 <= i < |file.keys| ==> IsRetired(file.keys[i]))
    && (forall i, j :: 0 <= i < j < |file.keys| ==> file.keys[i].kid != file.keys[j].kid)
  }

  function KeyOf(k: KeyEntry): PublicKey
    requires k.private.Pem? || k.public.Pem?
  {
    if k.private.Pem? then k.private.value.public else k.public.value
  }

  ghost predicate Usable(k: KeyEntry) {
    (k.private.Pem? && KeyId(k.private.value.public) == k.kid) || IsRetired(k)
  }

  /** Every key of the ring is found in the file. */
  ghost predicate CoveredBy(keys: map<string, PublicKey>, file: KeyFile) {
    forall kid :: kid in keys ==>
      exists i :: 0 <= i < |file.keys| && Usable(file.keys[i]) && file.keys[i].kid == kid && KeyOf(file.keys[i]) == keys[kid]
  }

  lemma {:induction false} DemotedSound(keys: seq<KeyEntry>)
    requires forall i :: 0 <= i < |keys| ==> Usable(keys[i])
    ensures var d := Demoted(keys);
            && |d| == |keys|
            && forall i :: 0 <= i < |d| ==> 
                 IsRetired(d[i]) && Usable(keys[i]) && d[i].kid == keys[i].kid && KeyOf(d[i]) == KeyOf(keys[i])
    decreases |keys|
  {
    if keys != [] { DemotedSound(keys[..|keys| - 1]); }
  }

  /** Rotation keeps the file sound and keeps every key it had. */
  lemma RotationKeepsSound(file: KeyFile, priv: PrivateKey, keys: map<string, PublicKey>)
    requires Sound(file) && CoveredBy(keys, file)
    requires forall i :: 0 <= i < |file.keys| ==> file.keys[i].kid != KeyId(priv.public)
    ensures Sound(Rotated(file, priv)) && CoveredBy(keys, Rotated(file, priv))
  {
    var file' := Rotated(file, priv);
    DemotedSound(file.keys);
    var d := Demoted(file.keys);
    assert forall i :: 1 <= i < |file'.keys| ==> file'.keys[i] == d[i - 1];
    forall kid | kid in keys
      ensures exists i :: 0 <= i < |file'.keys| && Usable(file'.keys[i]) && file'.keys[i].kid == kid && KeyOf(file'.keys[i]) == keys[kid]
    {
      var i :| 0 <= i < |file.keys| && Usable(file.keys[i]) && file.keys[i].kid == kid && KeyOf(file.keys[i]) == keys[kid];
      assert file'.keys[i + 1] == d[i];
    }
  }

  lemma {:induction false} ScanSound(file: KeyFile, n: nat)
    requires Sound(file) && 1 <= n <= |file.keys|
    ensures var r := ScanKeys(file.activeKid, file.keys[..n]);
            && r.Ok? && r.value.signer == Some(file.keys[0].private.value)
            && (forall i :: 0 <= i < n ==> file.keys[i].kid in r.value.keys && r.value.keys[file.keys[i].kid] == KeyOf(file.keys[i]))
            && (forall kid :: kid in r.value.keys ==> exists i :: 0 <= i < n && file.keys[i].kid == kid)
    decreases n
  {
    var ks := file.keys[..n];
    assert ks[..n - 1] == file.keys[..n - 1] && ks[n - 1] == file.keys[n - 1];
    if n > 1 {
      ScanSound(file, n - 1);
    } else {
      assert ks[..0] == [];
    }
  }

  /** A sound file always loads; the ring signs with its one private key and holds exactly its keys. */
  lemma SoundFilesLoad(file: KeyFile)
    requires Sound(file)
    ensures Load(file).Ok?
    ensures var ring := Load(file).value;
            && ring.activeKid == file.activeKid && ring.signer == file.keys[0].private.value
            && ring.activeKid in ring.keys && ring.keys[ring.activeKid] == ring.signer.public
            && (forall i :: 0 <= i < |file.keys| ==>
                  file.keys[i].kid in ring.keys && ring.keys[file.keys[i].kid] == KeyOf(file.keys[i]))
            && CoveredBy(ring.keys, file)
  {
    ScanSound(file, |file.keys|);
    assert file.keys[..|file.keys|] == file.keys;
  }

  // ---- history ----

  /** minted are all tokens ever signed, each under the key that was active then. */
  datatype World = World(file: KeyFile, ring: Ring, minted: seq<Token>)

  datatype Event = Rotate(priv: PrivateKey) | Reload | Mint(claims: Claims)

  /** keygen draws keys whose id is not in the file yet. */
  predicate Possible(w: World, e: Event) {
    e.Rotate? ==> forall i :: 0 <= i < |w.file.keys| ==> w.file.keys[i].kid != KeyId(e.priv.public)
  }

  function Next(w: World, e: Event): World {
    match e
    case Rotate(priv) => w.(file := Rotated(w.file, priv))
    case Reload => if Load(w.file).Ok? then w.(ring := Load(w.file).value) else w
    case Mint(claims) => w.(minted := w.minted + [Sign(w.ring.signer, w.ring.activeKid, claims)])
  }

  ghost predicate PossibleRun(w: World, events: seq<Event>)
    decreases |events|
  {
    events != [] ==> Possible(w, events[0]) && PossibleRun(Next(w, events[0]), events[1..])
  }

  function After(w: World, events: seq<Event>): World
    decreases |events|
  {
    if events == [] then w else After(Next(w, events[0]), events[1..])
  }

  /** A server started on a newly generated file. */
  ghost predicate Fresh(w: World) {
    exists priv :: w.file == NewFile(priv) && Load(w.file) == Ok(w.ring) && w.minted == []
  }

  ghost predicate Signed(ring: Ring, t: Token) {
    && t.Compact? && t.header.alg == RS256 && t.header.kid in ring.keys
    && t.signature == Signature(ring.keys[t.header.kid], t.header, t.claims)
  }

  ghost predicate Good(w: World) {
    && Sound(w.file) && CoveredBy(w.ring.keys, w.file)
    && w.ring.activeKid in w.ring.keys && w.ring.keys[w.ring.activeKid] == w.ring.signer.public
    && forall i :: 0 <= i < |w.minted| ==> Signed(w.ring, w.minted[i])
  }

  lemma RingOnlyGrows(keys: map<string, PublicKey>, file: KeyFile)
    requires Sound(file) && CoveredBy(keys, file)
    ensures Load(file).Ok? && forall kid :: kid in keys ==> kid in Load(file).value.keys && Load(file).value.keys[kid] == keys[kid]
  {
    SoundFilesLoad(file);
  }

  lemma EventKeepsGood(w: World, e: Event)
    requires Good(w) && Possible(w, e)
    ensures Good(Next(w, e))
  {
    match e {
      case Rotate(priv) => RotationKeepsSound(w.file, priv, w.ring.keys);
      case Reload =>
        SoundFilesLoad(w.file);
        RingOnlyGrows(w.ring.keys, w.file);
      case Mint(claims) =>
    }
  }

  lemma {:induction false} RunKeepsGood(w: World, events: seq<Event>)
    requires Good(w) && PossibleRun(w, events)
    ensures Good(After(w, events))
    decreases |events|
  {
    hide Good, Next, Possible;
    if events != [] {
      EventKeepsGood(w, events[0]);
      RunKeepsGood(Next(w, events[0]), events[1..]);
    }
  }

  lemma FreshIsGood(w: World)
    requires Fresh(w)
    ensures Good(w)
  {
    assert Sound(w.file);
    SoundFilesLoad(w.file);
  }

  // ---- the history seen prefix by prefix ----

  lemma {:induction false} AfterConcat(w: World, a: seq<Event>, b: seq<Event>)
    ensures After(w, a + b) == After(After(w, a), b)
    decreases |a|
  {
    if a == [] {
      assert a + b == b;
    } else {
      assert (a + b)[0] == a[0] && (a + b)[1..] == a[1..] + b;
      AfterConcat(Next(w, a[0]), a[1..], b);
    }
  }

  lemma {:induction false} PossibleConcat(w: World, a: seq<Event>, b: seq<Event>)
    requires PossibleRun(w, a + b)
    ensures PossibleRun(w, a) && PossibleRun(After(w, a), b)
    decreases |a|
  {
    if a == [] {
      assert a + b == b;
    } else {
      assert (a + b)[0] == a[0] && (a + b)[1..] == a[1..] + b;
      PossibleConcat(Next(w, a[0]), a[1..], b);
    }
  }

  /** Split a history at n. */
  lemma SplitAt(w: World, events: seq<Event>, n: nat)
    requires n <= |events| && PossibleRun(w, events)
    ensures PossibleRun(w, events[..n]) && PossibleRun(After(w, events[..n]), events[n..])
    ensures After(w, events) == After(After(w, events[..n]), events[n..])
  {
    assert events == events[..n] + events[n..];
    PossibleConcat(w, events[..n], events[n..]);
    AfterConcat(w, events[..n], events[n..]);
  }

  /** The last event of a prefix. */
  lemma StepAt(w: World, events: seq<Event>, n: nat)
    requires 0 < n <= |events| && PossibleRun(w, events)
    ensures PossibleRun(w, events[..n - 1]) && Possible(After(w, events[..n - 1]), events[n - 1])
    ensures After(w, events[..n]) == Next(After(w, events[..n - 1]), events[n - 1])
  {
    SplitAt(w, events, n - 1);
    assert events[n - 1..][0] == events[n - 1];
    assert events[..n] == events[..n - 1] + [events[n - 1]];
    AfterConcat(w, events[..n - 1], [events[n - 1]]);
    assert After(After(w, events[..n - 1]), [events[n - 1]]) == Next(After(w, events[..n - 1]), events[n - 1]);
  }

  ghost predicate Extends(small: map<string, PublicKey>, large: map<string, PublicKey>) {
    forall kid :: kid in small ==> kid in large && large[kid] == small[kid]
  }

  /** Along any history the ring only ever gains keys. */
  lemma {:induction false} RingsExtend(w: World, events: seq<Event>)
    requires Good(w) && PossibleRun(w, events)
    ensures Extends(w.ring.keys, After(w, events).ring.keys)
    decreases |events|
  {
    if events != [] {
      EventKeepsGood(w, events[0]);
      if events[0].Reload? { RingOnlyGrows(w.ring.keys, w.file); }
      RingsExtend(Next(w, events[0]), events[1..]);
    }
  }

  lemma RingsExtendBetween(w: World, events: seq<Event>, m: nat, n: nat)
    requires Fresh(w) && PossibleRun(w, events) && m <= n <= |events|
    ensures Extends(After(w, events[..m]).ring.keys, After(w, events[..n]).ring.keys)
  {
    FreshIsGood(w);
    SplitAt(w, events, n);
    SplitAt(w, events[..n], m);
    assert events[..n][..m] == events[..m];
    RunKeepsGood(w, events[..m]);
    RingsExtend(After(w, events[..m]), events[..n][m..]);
  }

  /** Key and kid that sign once file is loaded. */
  ghost predicate ActiveIn(file: KeyFile, kid: string, key: PublicKey) {
    file.keys != [] && file.keys[0].private.Pem? && file.keys[0].private.value.public == key && file.activeKid == kid
  }

  /** Was active in the file at one of its first n + 1 versions. */
  ghost predicate OnceActive(w: World, events: seq<Event>, n: nat, kid: string, key: PublicKey)
    requires n <= |events|
  {
    exists k :: 0 <= k <= n && ActiveIn(After(w, events[..k]).file, kid, key)
  }

  ghost predicate FileHas(file: KeyFile, kid: string, key: PublicKey) {
    exists i :: 0 <= i < |file.keys| && Usable(file.keys[i]) && file.keys[i].kid == kid && KeyOf(file.keys[i]) == key
  }

  lemma RotationAddsActive(file: KeyFile, priv: PrivateKey, kid: string, key: PublicKey)
    requires Sound(file)
    ensures FileHas(Rotated(file, priv), kid, key)
            <==> FileHas(file, kid, key) || ActiveIn(Rotated(file, priv), kid, key)
  {
    var file', d := Rotated(file, priv), Demoted(file.keys);
    DemotedSound(file.keys);
    if FileHas(file, kid, key) {
      var i :| 0 <= i < |file.keys| && Usable(file.keys[i]) && file.keys[i].kid == kid && KeyOf(file.keys[i]) == key;
      assert file'.keys[i + 1] == d[i];
    }
    if FileHas(file', kid, key) {
      var i :| 0 <= i < |file'.keys| && Usable(file'.keys[i]) && file'.keys[i].kid == kid && KeyOf(file'.keys[i]) == key;
      if i > 0 { assert file'.keys[i] == d[i - 1] && Usable(file.keys[i - 1]); }
    }
    assert Usable(file'.keys[0]);
  }

  /** The file holds exactly the keys that have been active in it. */
  lemma {:induction false} FileHoldsOnceActive(w: World, events: seq<Event>, n: nat, kid: string, key: PublicKey)
    requires Fresh(w) && PossibleRun(w, events) && n <= |events|
    ensures FileHas(After(w, events[..n]).file, kid, key) <==> OnceActive(w, events, n, kid, key)
    decreases n
  {
    if n == 0 {
      assert events[..0] == [];
      FileStartsActive(w, kid, key);
      assert OnceActive(w, events, 0, kid, key) <==> ActiveIn(After(w, events[..0]).file, kid, key);
    } else {
      FileHoldsOnceActive(w, events, n - 1, kid, key);
      StepAt(w, events, n);
      FreshIsGood(w);
      RunKeepsGood(w, events[..n - 1]);
      var w1, w2, e := After(w, events[..n - 1]), After(w, events[..n]), events[n - 1];
      if e.Rotate? {
        RotationAddsActive(w1.file, e.priv, kid, key);
      } else if ActiveIn(w2.file, kid, key) {
        ActiveIsHeld(w1.file, kid, key);
      }
      assert OnceActive(w, events, n, kid, key)
             <==> OnceActive(w, events, n - 1, kid, key) || ActiveIn(w2.file, kid, key) by {
        OneMoreVersion(w, events, n, kid, key);
      }
    }
  }

  lemma OneMoreVersion(w: World, events: seq<Event>, n: nat, kid: string, key: PublicKey)
    requires 0 < n <= |events|
    ensures OnceActive(w, events, n, kid, key)
            <==> OnceActive(w, events, n - 1, kid, key) || ActiveIn(After(w, events[..n]).file, kid, key)
  {
    hide After, ActiveIn;
  }

  lemma FileStartsActive(w: World, kid: string, key: PublicKey)
    requires Fresh(w)
    ensures FileHas(w.file, kid, key) <==> ActiveIn(w.file, kid, key)
  {
    assert Usable(w.file.keys[0]);
  }

  lemma ActiveIsHeld(file: KeyFile, kid: string, key: PublicKey)
    requires Sound(file) && ActiveIn(file, kid, key)
    ensures FileHas(file, kid, key)
  {
    assert Usable(file.keys[0]);
  }

  /** Position of the last reload: what the ring was built from. */
  function LastLoad(events: seq<Event>): (n: nat)
    ensures n <= |events|
  {
    if events == [] then 0
    else if events[|events| - 1].Reload? then |events|
    else LastLoad(events[..|events| - 1])
  }

  /** The ring is the file as it stood at the last reload. */
  lemma {:induction false} RingIsLastLoad(w: World, events: seq<Event>)
    requires Fresh(w) && PossibleRun(w, events)
    ensures Load(After(w, events[..LastLoad(events)]).file) == Ok(After(w, events).ring)
    decreases |events|
  {
    var n := |events|;
    assert events[..n] == events;
    if n == 0 {
      assert events[..0] == [];
    } else {
      var before := events[..n - 1];
      StepAt(w, events, n);
      FreshIsGood(w);
      RunKeepsGood(w, before);
      if events[n - 1].Reload? {
        SoundFilesLoad(After(w, before).file);
      } else {
        RingIsLastLoad(w, before);
        assert before[..LastLoad(before)] == events[..LastLoad(events)];
      }
    }
  }

  lemma LoadedExactly(file: KeyFile, kid: string, key: PublicKey)
    requires Sound(file)
    ensures Load(file).Ok?
    ensures kid in Load(file).value.keys && Load(file).value.keys[kid] == key <==> FileHas(file, kid, key)
  {
    SoundFilesLoad(file);
    if FileHas(file, kid, key) {
      var i :| 0 <= i < |file.keys| && Usable(file.keys[i]) && file.keys[i].kid == kid && KeyOf(file.keys[i]) == key;
      assert file.keys[i].kid in Load(file).value.keys;
    }
  }

  /** After any history the ring holds exactly the keys that were active at some version of the file up to its last reload. */
  lemma RingHoldsOnceActive(w: World, events: seq<Event>, kid: string, key: PublicKey)
    requires Fresh(w) && PossibleRun(w, events)
    ensures var keys := After(w, events).ring.keys;
            kid in keys && keys[kid] == key <==> OnceActive(w, events, LastLoad(events), kid, key)
  {
    var n := LastLoad(events);
    RingIsLastLoad(w, events);
    FileHoldsOnceActive(w, events, n, kid, key);
    FreshIsGood(w);
    SplitAt(w, events, n);
    RunKeepsGood(w, events[..n]);
    LoadedExactly(After(w, events[..n]).file, kid, key);
  }

  // ---- what the ring accepts ----

  /** After any history the file holds exactly one private key, the active one, and reloading it works. */
  lemma OnePrivateKey(w: World, events: seq<Event>)
    requires Fresh(w) && PossibleRun(w, events)
    ensures var file := After(w, events).file;
            && file.keys != [] && file.keys[0].kid == file.activeKid && file.keys[0].private.Pem?
            && (forall i :: 0 <= i < |file.keys| && file.keys[i].private != Absent ==> i == 0)
            && Load(file).Ok? && Load(file).value.signer == file.keys[0].private.value
  {
    FreshIsGood(w);
    RunKeepsGood(w, events);
    SoundFilesLoad(After(w, events).file);
  }

  /** A token signed under any earlier active key verifies until it expires, and not a second longer. */
  lemma OldTokensVerify(w: World, events: seq<Event>, i: nat, now: Time)
    requires Fresh(w) && PossibleRun(w, events) && i < |After(w, events).minted|
    ensures var w', t := After(w, events), After(w, events).minted[i];
            && t.Compact?
            && (Verify(w'.ring, t, now).Ok? <==> Unix(now) <= t.claims.expiresAt)
            && (Verify(w'.ring, t, now).Ok? ==> Verify(w'.ring, t, now).value == t.claims)
  {
    FreshIsGood(w);
    RunKeepsGood(w, events);
    assert Signed(After(w, events).ring, After(w, events).minted[i]);
  }

  // ---- introspection ----

  datatype Introspection = Inactive | Active(subject: string, exp: int, scope: string)

  /** IntrospectionService.Introspect. */
  function Introspect(ring: Ring, issuer: string, apiAudience: string, t: Token, now: Time): Introspection {
    match Verify(ring, t, now)
    case Err(_) => Inactive
    case Ok(claims) =>
      if claims.issuer != issuer || claims.audience != apiAudience then Inactive
      else Active(claims.subject, claims.expiresAt, claims.scope)
  }

  /**
    Introspection after any history: an access token signed under any earlier
    active key is active for exactly an hour, counted in whole seconds, and
    reported with its subject, scope and expiry; an ID token is so only if its
    client_id equals the API's audience.
   */
  lemma IntrospectionOfOldTokens(w: World, events: seq<Event>, i: nat, now: Time, issued: Time,
                                 issuer: string, subject: string, apiAudience: string, scope: string,
                                 clientID: string, nonce: string)
    requires Fresh(w) && PossibleRun(w, events) && i < |After(w, events).minted|
    ensures var w', t := After(w, events), After(w, events).minted[i];
            var answer := Introspect(w'.ring, issuer, apiAudience, t, now);
            && (t.Compact? && t.claims == AccessTokenClaims(issuer, subject, apiAudience, scope, issued) ==>
                  answer == if Unix(now) <= Unix(issued) + 3600 then Active(subject, Unix(issued) + 3600, scope) else Inactive)
            && (t.Compact? && t.claims == IDTokenClaims(issuer, subject, clientID, nonce, issued) ==>
                  answer == if clientID == apiAudience && Unix(now) <= Unix(issued) + 3600
                            then Active(subject, Unix(issued) + 3600, "") else Inactive)
  {
    OldTokensVerify(w, events, i, now);
    ExpiryIsIssuePlusHour(issued);
  }

  /** Whatever introspection calls active was signed, as it stands, with a key of the ring. */
  lemma ActiveMeansSigned(ring: Ring, issuer: string, apiAudience: string, t: Token, now: Time)
    ensures Introspect(ring, issuer, apiAudience, t, now).Active? <==>
              Signed(ring, t) && Unix(now) <= t.claims.expiresAt && t.claims.issuer == issuer && t.claims.audience == apiAudience
    ensures Introspect(ring, issuer, apiAudience, t, now).Active? ==>
              Introspect(ring, issuer, apiAudience, t, now) == Active(t.claims.subject, t.claims.expiresAt, t.claims.scope)
  {
  }

  /** t is signed, as it stands, with a key that was active up to the last reload. */
  ghost predicate SignedWhileActive(w: World, events: seq<Event>, t: Token) {
    && t.Compact? && t.header.alg == RS256 && t.signature.header == t.header && t.signature.claims == t.claims
    && OnceActive(w, events, LastLoad(events), t.header.kid, t.signature.key)
  }

  /**
    What introspection accepts after any history, of all tokens there can be:
    exactly the unexpired ones for this issuer and API that are signed, as they
    stand, with a key that was the active one at some version of the file up to
    the last reload, under that key's id.
   */
  lemma ActiveMeansOnceActiveKey(w: World, events: seq<Event>, issuer: string, apiAudience: string, t: Token, now: Time)
    requires Fresh(w) && PossibleRun(w, events)
    ensures Introspect(After(w, events).ring, issuer, apiAudience, t, now).Active? <==>
              && SignedWhileActive(w, events, t) && Unix(now) <= t.claims.expiresAt
              && t.claims.issuer == issuer && t.claims.audience == apiAudience
    ensures var answer := Introspect(After(w, events).ring, issuer, apiAudience, t, now);
            answer.Active? ==> && t.Compact? && answer.subject == t.claims.subject
                               && answer.exp == t.claims.expiresAt && answer.scope == t.claims.scope
  {
    hide OnceActive, After, LastLoad, Introspect;
    ActiveMeansSigned(After(w, events).ring, issuer, apiAudience, t, now);
    if t.Compact? { RingHoldsOnceActive(w, events, t.header.kid, t.signature.key); }
  }
}
