/**
  PKCE across the browser and the authorization server (RFC 7636): the
  verifier and challenge made in the single-page application, and the checks
  of domain/authcode/code_challenge.go.
 */
module Pkce {
  import opened Wrappers
  import opened Base64Url

  const DIGEST_LEN := 32

  type Digest = d: seq<byte> | |d| == DIGEST_LEN witness seq(DIGEST_LEN, _ => 0)

  /** SHA-256, left uninterpreted but for the length of its digests: nothing below depends on its values. */
  const Sha256: seq<byte> -> Digest

  const VERIFIER_MIN_LEN := 43
  const VERIFIER_MAX_LEN := 128

  datatype PkceError = MalformedVerifier | ChallengeMismatch

  predicate IsUnreserved(c: char) {
    'A' <= c <= 'Z' || 'a' <= c <= 'z' || '0' <= c <= '9' || c in "-._~"
  }

  predicate WellFormedVerifier(v: string) {
    VERIFIER_MIN_LEN <= |v| <= VERIFIER_MAX_LEN && forall i :: 0 <= i < |v| ==> IsUnreserved(v[i])
  }

  /**
    validateCodeVerifier. Go measures bytes and walks runes; a string with a
    character outside ASCII is refused by the walk whatever its length, so
    counting characters gives the same answer.
   */
  method ValidateCodeVerifier(v: string) returns (ok: bool)
    ensures ok <==> WellFormedVerifier(v)
  {
    if |v| < VERIFIER_MIN_LEN || |v| > VERIFIER_MAX_LEN { return false; }
    for i := 0 to |v|
      invariant forall k :: 0 <= k < i ==> IsUnreserved(v[k])
    {
      if !IsUnreserved(v[i]) { return false; }
    }
    return true;
  }

  /** The bytes of v; every character of a well-formed verifier is ASCII. */
  function Bytes(v: string): seq<byte> {
    seq(|v|, i requires 0 <= i < |v| => v[i] as int % 256)
  }

  /** generateCodeVerifier, on the 32 random bytes it drew. */
  function CodeVerifier(random: seq<byte>): string { Encode(random) }

  /** deriveCodeChallenge, and the value CodeChallenge.Verify recomputes. */
  function DeriveChallenge(verifier: string): string { Encode(Sha256(Bytes(verifier))) }

  /** CodeChallenge.Verify for the only accepted method, S256. */
  function VerifyChallenge(challenge: string, verifier: string): Result<(), PkceError> {
    if !WellFormedVerifier(verifier) then Err(MalformedVerifier)
    else if DeriveChallenge(verifier) != challenge then Err(ChallengeMismatch)
    else Ok(())
  }

  /** What the browser generates is always a well-formed verifier of exactly 43 characters. */
  lemma GeneratedVerifierIsWellFormed(random: seq<byte>)
    requires |random| == 32
    ensures |CodeVerifier(random)| == 43
    ensures WellFormedVerifier(CodeVerifier(random))
  {
    EncodedShape(random);
  }

  /**
    Whichever verifier is presented, the server accepts it against a
    challenge the browser derived exactly when it is well formed and has the
    same digest; in particular it always accepts the browser's own.
   */
  lemma ChallengeAcceptsExactly(own: string, presented: string)
    ensures VerifyChallenge(DeriveChallenge(own), presented).Ok?
            <==> WellFormedVerifier(presented) && Sha256(Bytes(presented)) == Sha256(Bytes(own))
  {
    EncodeInjective(Sha256(Bytes(presented)), Sha256(Bytes(own)));
  }

  /** A derived challenge has 43 characters, too. */
  lemma ChallengeShape(verifier: string)
    ensures |DeriveChallenge(verifier)| == 43
  {
    EncodedShape(Sha256(Bytes(verifier)));
  }

  lemma BrowserVerifierAccepted(random: seq<byte>)
    requires |random| == 32
    ensures VerifyChallenge(DeriveChallenge(CodeVerifier(random)), CodeVerifier(random)).Ok?
  {
    GeneratedVerifierIsWellFormed(random);
  }
}
