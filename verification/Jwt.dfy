/**
  RS256 JWTs over an ideal signature scheme: a signature names the key and the
  content it was made for, and verifies for exactly those. Header and payload
  are kept decoded; a string that does not decode is Malformed.
 */
module Jwt {
  import opened Wrappers
  import opened Domain
  import opened Base64Url

  datatype PublicKey = PublicKey(n: nat, e: int)

  datatype PrivateKey = PrivateKey(public: PublicKey, exponent: nat)

  /** ComputeKeyID, the RFC 7638 thumbprint; distinct keys are taken to have distinct ids where they are drawn. */
  const KeyId: PublicKey -> string

  const ACCESS_TOKEN_TTL_SECONDS := 3600
  const ID_TOKEN_TTL_SECONDS := 3600
  const RS256 := "RS256"

  /** Unix seconds of a reading in nanoseconds; Dafny's division floors, as time.Time.Unix does. */
  function Unix(now: Time): int { now / SECOND }

  // ---- claims ----

  datatype Claims = Claims(
    issuer: string,
    subject: string,
    audience: string,
    expiresAt: int,
    issuedAt: int,
    scope: string,
    nonce: string
  )

  function AccessTokenClaims(issuer: string, subject: string, audience: string, scope: string, now: Time): Claims {
    Claims(issuer, subject, audience, Unix(now + HOUR), Unix(now), scope, "")
  }

  function IDTokenClaims(issuer: string, subject: string, clientID: string, nonce: string, now: Time): Claims {
    Claims(issuer, subject, clientID, Unix(now + HOUR), Unix(now), "", nonce)
  }

  // ---- compact tokens ----

  datatype Header = Header(alg: string, kid: string)

  datatype Signature = Signature(key: PublicKey, header: Header, claims: Claims)

  datatype Token = Malformed | Compact(header: Header, claims: Claims, signature: Signature)

  datatype TokenError = InvalidToken | UnexpectedAlg | SignatureInvalid | TokenExpired | InvalidClaims

  /** Signer.Sign. */
  function Sign(key: PrivateKey, kid: string, claims: Claims): Token {
    var header := Header(RS256, kid);
    Compact(header, claims, Signature(key.public, header, claims))
  }

  /** verifyRS256: the signature first, then the expiry. */
  function VerifyRS256(t: Token, key: PublicKey, now: Time): Result<Claims, TokenError>
    requires t.Compact?
  {
    if t.signature != Signature(key, t.header, t.claims) then Err(SignatureInvalid)
    else if Unix(now) > t.claims.expiresAt then Err(TokenExpired)
    else Ok(t.claims)
  }

  /** An hour is a whole number of seconds: the expiry is the issue second plus 3600, whatever the fraction. */
  lemma ExpiryIsIssuePlusHour(now: Time)
    ensures Unix(now + HOUR) == Unix(now) + ACCESS_TOKEN_TTL_SECONDS
  {
    assert HOUR == ACCESS_TOKEN_TTL_SECONDS * SECOND;
  }

  // ---- published keys ----

  datatype JWK = JWK(kty: string, use: string, alg: string, kid: string, n: string, e: string)

  /** big.Int.Bytes drops the sign. */
  function Magnitude(i: int): nat { if i < 0 then -i else i }

  /** rsaPublicKeyToJWK. */
  function ToJWK(key: PublicKey, kid: string): JWK {
    JWK("RSA", "sig", RS256, kid, Encode(BigEndian(key.n)), Encode(BigEndian(Magnitude(key.e))))
  }

  const TWO_TO_THE_64 := 0x1_0000_0000_0000_0000

  /** big.Int.Int64 keeps the low 64 bits, as a signed number. */
  function LowInt64(n: nat): int {
    var low := n % TWO_TO_THE_64;
    if low >= TWO_TO_THE_64 / 2 then low - TWO_TO_THE_64 else low
  }

  /** parseRSAPublicKey of the API's verifier. */
  function ParseKey(n: string, e: string): Option<PublicKey> {
    match (Decode(n), Decode(e))
    case (Some(nb), Some(eb)) =>
      var exponent := LowInt64(FromBigEndian(eb));
      if exponent == 0 then None else Some(PublicKey(FromBigEndian(nb), exponent))
    case _ => None
  }

  /** Exponents that fit Go's int. */
  predicate FitsInt(key: PublicKey) { 0 < key.e < TWO_TO_THE_64 / 2 }

  /** What the authorization server publishes, the API's verifier reads back unchanged. */
  lemma PublishedKeyParses(key: PublicKey, kid: string)
    requires FitsInt(key)
    ensures ParseKey(ToJWK(key, kid).n, ToJWK(key, kid).e) == Some(key)
  {
    hide Decode, Encode, FromBigEndian, BigEndian;
    RoundTrip(BigEndian(key.n));
    RoundTrip(BigEndian(key.e));
    BigEndianRoundTrip(key.n);
    BigEndianRoundTrip(key.e);
  }

  /**
    Which published members are read as a key: both must decode, and the low
    64 bits of the exponent, taken as a signed number, must not be zero. A
    longer exponent is cut off, not refused.
   */
  lemma ParseKeyExactly(n: string, e: string)
    ensures ParseKey(n, e).Some? <==>
              Decode(n).Some? && Decode(e).Some? && FromBigEndian(Decode(e).value) % 0x1_0000_0000_0000_0000 != 0
    ensures ParseKey(n, e).Some? ==>
              var key := ParseKey(n, e).value;
              && key.n == FromBigEndian(Decode(n).value)
              && -0x8000_0000_0000_0000 <= key.e < 0x8000_0000_0000_0000
              && (FromBigEndian(Decode(e).value) - key.e) % 0x1_0000_0000_0000_0000 == 0
  {
    hide Decode, FromBigEndian;
  }

  /** So an exponent that overflows an int is not refused: one of 2^64 + 1 is read as 1. */
  lemma OversizedExponentIsCutOff()
    ensures ParseKey(Encode(BigEndian(3)), Encode(BigEndian(0x1_0000_0000_0000_0001))) == Some(PublicKey(3, 1))
  {
    hide Decode, Encode, FromBigEndian, BigEndian;
    RoundTrip(BigEndian(3));
    RoundTrip(BigEndian(0x1_0000_0000_0000_0001));
    BigEndianRoundTrip(3);
    BigEndianRoundTrip(0x1_0000_0000_0000_0001);
  }
}
