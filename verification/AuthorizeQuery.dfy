/**
  The query of an authorization request: its parameters, what is kept of it
  while the user signs in or consents, and how max_age is read. Encoding a
  query and parsing it again is taken to give it back.
 */
module AuthorizeQuery {
  import opened Wrappers
  import opened Scopes
  import opened Domain
  import opened Authorize

  // ---- queries ----

  /** The parameters /authorize knows, and any other. */
  datatype Param =
    | ResponseType | ClientId | RedirectUri | ScopeParam | StateParam | NonceParam
    | CodeChallengeParam | CodeChallengeMethodParam | LoginHint
    | Prompt | MaxAge
    | Other(name: string)

  /** url.Values. */
  type Query = map<Param, seq<string>>

  function Get(q: Query, p: Param): string { if p in q && q[p] != [] then q[p][0] else "" }

  /** parseAuthorizeRequest, and authorizeRequestFromRawQuery on a stored query. */
  function ParseRequest(q: Query): AuthorizeRequest {
    AuthorizeRequest(Get(q, ResponseType), Get(q, ClientId), Get(q, RedirectUri), Get(q, ScopeParam), Get(q, StateParam),
                     Get(q, NonceParam), Get(q, CodeChallengeParam), Get(q, CodeChallengeMethodParam))
  }

  /** sanitizedPendingQuery. */
  function Sanitized(q: Query): Query { q - {Prompt, MaxAge} }

  const PENDING_KEYS: set<Param> := {
    ResponseType, ClientId, RedirectUri, ScopeParam, StateParam, NonceParam,
    CodeChallengeParam, CodeChallengeMethodParam, LoginHint
  }

  /** pendingAuthorizeLocation's test. */
  predicate Resumable(q: Query) { q.Keys <= PENDING_KEYS }

  // ---- max_age ----

  const MAX_INT64 := 0x7FFF_FFFF_FFFF_FFFF
  const TWO_TO_THE_64 := 0x1_0000_0000_0000_0000

  predicate IsDigit(c: char) { '0' <= c <= '9' }

  function Digits(s: string): nat
    requires forall i :: 0 <= i < |s| ==> IsDigit(s[i])
  {
    if s == [] then 0
    else
      assert IsDigit(s[|s| - 1]);
      var d: nat := s[|s| - 1] as int - '0' as int;
      Digits(s[..|s| - 1]) * 10 + d
  }

  function DigitPrefix(s: string): (n: nat)
    ensures n <= |s| && forall i :: 0 <= i < n ==> IsDigit(s[i])
    ensures n < |s| ==> !IsDigit(s[n])
  {
    if s == [] || !IsDigit(s[0]) then 0 else 1 + DigitPrefix(s[1..])
  }

  /** fmt.Sscanf("%d") of a non-negative int64: leading blanks, a sign, digits; what follows is ignored. */
  function ScanMaxAge(s: string): Option<nat> {
    if s == "" then None
    else if s[0] == '\n' then None
    else if IsSpace(s[0]) then ScanMaxAge(s[1..])
    else
      var negative := s[0] == '-';
      var body := if negative || s[0] == '+' then s[1..] else s;
      var n := DigitPrefix(body);
      if n == 0 || Digits(body[..n]) > MAX_INT64 then None
      else if negative && Digits(body[..n]) != 0 then None
      else Some(Digits(body[..n]))
  }

  /** Arithmetic on time.Duration wraps around at 64 bits. */
  function Wrap64(x: int): int { (x + MAX_INT64 + 1) % TWO_TO_THE_64 - MAX_INT64 - 1 }

  // ---- what max_age values are read, and as what ----

  predicate AllDigits(s: string) { forall i :: 0 <= i < |s| ==> IsDigit(s[i]) }

  /** s is blanks without a newline, an optional sign, a maximal run of digits, and anything behind it. */
  predicate Splits(s: string, blanks: string, sign: string, digits: string, rest: string) {
    && s == blanks + sign + digits + rest
    && (forall i :: 0 <= i < |blanks| ==> IsSpace(blanks[i]) && blanks[i] != '\n')
    && (sign == [] || sign == ['+'] || sign == ['-'])
    && digits != [] && AllDigits(digits) && (rest == [] || !IsDigit(rest[0]))
  }

  predicate InRange(sign: string, digits: string)
    requires AllDigits(digits)
  {
    Digits(digits) <= MAX_INT64 && (sign == ['-'] ==> Digits(digits) == 0)
  }

  ghost predicate ReadsAs(s: string, n: nat) {
    exists blanks, sign, digits, rest ::
      Splits(s, blanks, sign, digits, rest) && InRange(sign, digits) && Digits(digits) == n
  }

  lemma PrefixIsRun(digits: string, rest: string)
    requires AllDigits(digits) && (rest == [] || !IsDigit(rest[0]))
    ensures DigitPrefix(digits + rest) == |digits|
  {
    assert forall i :: 0 <= i < |digits| ==> (digits + rest)[i] == digits[i];
    assert rest != [] ==> (digits + rest)[|digits|] == rest[0];
  }

  lemma ScanUnsigned(digits: string, rest: string)
    requires digits != [] && AllDigits(digits) && (rest == [] || !IsDigit(rest[0]))
    ensures ScanMaxAge(digits + rest) == if InRange([], digits) then Some(Digits(digits)) else None
  {
    hide Digits;
    var s := digits + rest;
    PrefixIsRun(digits, rest);
    assert s[..|digits|] == digits;
    assert s[0] == digits[0] && IsDigit(s[0]);
  }

  lemma ScanSigned(c: char, digits: string, rest: string)
    requires c == '+' || c == '-'
    requires digits != [] && AllDigits(digits) && (rest == [] || !IsDigit(rest[0]))
    ensures ScanMaxAge([c] + (digits + rest)) == if InRange([c], digits) then Some(Digits(digits)) else None
  {
    hide Digits;
    var s, body := [c] + (digits + rest), digits + rest;
    PrefixIsRun(digits, rest);
    assert body[..|digits|] == digits;
    assert s[1..] == body;
  }

  /** Past the blanks, the scan takes the sign and the run of digits behind it. */
  lemma ScanAfterBlanks(sign: string, digits: string, rest: string)
    requires Splits(sign + digits + rest, [], sign, digits, rest)
    ensures ScanMaxAge(sign + digits + rest) == if InRange(sign, digits) then Some(Digits(digits)) else None
  {
    hide ScanMaxAge, InRange, AllDigits;
    if sign == [] {
      assert sign + digits + rest == digits + rest;
      ScanUnsigned(digits, rest);
    } else {
      assert sign + digits + rest == [sign[0]] + (digits + rest);
      assert sign == [sign[0]];
      ScanSigned(sign[0], digits, rest);
    }
  }

  lemma {:induction false} SplitIsRead(s: string, blanks: string, sign: string, digits: string, rest: string)
    requires Splits(s, blanks, sign, digits, rest)
    ensures ScanMaxAge(s) == if InRange(sign, digits) then Some(Digits(digits)) else None
    decreases |blanks|
  {
    if blanks == [] {
      assert s == sign + digits + rest && s == [] + sign + digits + rest;
      ScanAfterBlanks(sign, digits, rest);
    } else {
      assert s[0] == blanks[0];
      assert s[1..] == blanks[1..] + sign + digits + rest;
      SplitIsRead(s[1..], blanks[1..], sign, digits, rest);
    }
  }

  lemma ReadHereIsSplit(s: string) returns (sign: string, digits: string, rest: string)
    requires ScanMaxAge(s).Some? && !IsSpace(s[0])
    ensures Splits(s, [], sign, digits, rest) && InRange(sign, digits) && ScanMaxAge(s) == Some(Digits(digits))
  {
    hide Digits;
    var signed := s[0] == '-' || s[0] == '+';
    var body := if signed then s[1..] else s;
    var n := DigitPrefix(body);
    sign, digits, rest := if signed then [s[0]] else [], body[..n], body[n..];
    assert body == digits + rest;
    assert s == [] + sign + digits + rest;
  }

  lemma {:induction false} ReadIsSplit(s: string) returns (blanks: string, sign: string, digits: string, rest: string)
    requires ScanMaxAge(s).Some?
    ensures Splits(s, blanks, sign, digits, rest) && InRange(sign, digits) && ScanMaxAge(s) == Some(Digits(digits))
    decreases |s|
  {
    hide Digits, InRange, DigitPrefix;
    if IsSpace(s[0]) {
      blanks, sign, digits, rest := ReadIsSplit(s[1..]);
      assert s == [s[0]] + s[1..];
      assert s == ([s[0]] + blanks) + sign + digits + rest;
      blanks := [s[0]] + blanks;
    } else {
      blanks := [];
      sign, digits, rest := ReadHereIsSplit(s);
    }
  }

  /**
    Which max_age values are read: n is taken from s exactly if s consists of
    blanks without a newline, an optional sign, a maximal run of digits worth
    n in an int64 (zero if the sign is a minus), and any text behind it.
   */
  lemma MaxAgeReadsExactly(s: string, n: nat)
    ensures ScanMaxAge(s) == Some(n) <==> ReadsAs(s, n)
  {
    if ScanMaxAge(s) == Some(n) {
      var blanks, sign, digits, rest := ReadIsSplit(s);
    }
    if ReadsAs(s, n) {
      var blanks, sign, digits, rest :|
        Splits(s, blanks, sign, digits, rest) && InRange(sign, digits) && Digits(digits) == n;
      SplitIsRead(s, blanks, sign, digits, rest);
    }
  }

  /** A well-formed max_age: decimal digits and nothing else, within an int64. */
  predicate IsDecimal(s: string) { s != [] && AllDigits(s) && Digits(s) <= MAX_INT64 }

  /** A readable number with blanks or a sign before it, or other text behind it. */
  ghost predicate Decorated(s: string) {
    exists blanks, sign, digits, rest ::
      && Splits(s, blanks, sign, digits, rest) && InRange(sign, digits)
      && (blanks != [] || sign != [] || rest != [])
  }

  /**
    Malformed values count as absent, as the comment on parseMaxAge has it, for
    exactly the strings that are not a decorated number; well-formed ones are
    always read, as their value.
   */
  lemma MalformedIsAbsentExactly(s: string)
    ensures (!IsDecimal(s) ==> ScanMaxAge(s).None?) <==> !Decorated(s)
    ensures IsDecimal(s) ==> ScanMaxAge(s) == Some(Digits(s))
  {
    if IsDecimal(s) {
      assert s == [] + [] + s + [];
      SplitIsRead(s, [], [], s, []);
    }
    if ScanMaxAge(s).Some? && !IsDecimal(s) {
      var blanks, sign, digits, rest := ReadIsSplit(s);
      assert blanks == [] && sign == [] && rest == [] ==> s == digits;
    }
    if Decorated(s) {
      var blanks, sign, digits, rest :|
        && Splits(s, blanks, sign, digits, rest) && InRange(sign, digits)
        && (blanks != [] || sign != [] || rest != []);
      SplitIsRead(s, blanks, sign, digits, rest);
      DecoratedIsNoDecimal(s, blanks, sign, digits, rest);
    }
  }

  lemma DecoratedIsNoDecimal(s: string, blanks: string, sign: string, digits: string, rest: string)
    requires Splits(s, blanks, sign, digits, rest) && (blanks != [] || sign != [] || rest != [])
    ensures !AllDigits(s)
  {
    if blanks != [] {
      assert s[0] == blanks[0];
    } else if sign != [] {
      assert s[0] == sign[0];
    } else {
      assert s[|digits|] == rest[0];
    }
  }

  /** 12abc is malformed, and is read as 12. */
  lemma TrailingTextIsIgnored()
    ensures ScanMaxAge("12abc") == Some(12) && !IsDecimal("12abc")
  {
    assert Digits("12") == 12 by {
      assert "12"[..1] == "1" && "1"[..0] == "";
      assert Digits("1") == 1;
    }
    SplitIsRead("12abc", "", "", "12", "abc");
    assert "12abc"[2] == 'a';
  }
}
