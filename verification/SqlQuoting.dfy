/**
  The migrator's splicing of passwords and names into SQL text, against the
  lexical rules of PostgreSQL (section 4.1 of its documentation): string
  constants in plain and E'' form, with standard_conforming_strings on or off,
  and delimited identifiers.
 */
module SqlQuoting {
  import opened Wrappers

  // ---- quoting ----

  /** strings.ReplaceAll of one character. */
  function ReplaceAll(s: string, from: char, to: string): string {
    if s == [] then [] else (if s[0] == from then to else [s[0]]) + ReplaceAll(s[1..], from, to)
  }

  const QUOTE := '\''
  const BACKSLASH := '\\'
  const DOUBLE_QUOTE := '\"'

  function QuoteLiteral(s: string): string {
    var s := ReplaceAll(s, QUOTE, [QUOTE, QUOTE]);
    if BACKSLASH in s then ['E', QUOTE] + ReplaceAll(s, BACKSLASH, [BACKSLASH, BACKSLASH]) + [QUOTE]
    else [QUOTE] + s + [QUOTE]
  }

  function QuoteIdentifier(name: string): string {
    [DOUBLE_QUOTE] + ReplaceAll(name, DOUBLE_QUOTE, [DOUBLE_QUOTE, DOUBLE_QUOTE]) + [DOUBLE_QUOTE]
  }

  // ---- the lexer: escapes of E'' constants (section 4.1.2.2) ----

  datatype LexError = NotALiteral | Unterminated | BadEscape | EmptyIdentifier

  type Lexeme = (string, string)

  function HexDigit(c: char): Option<nat> {
    if '0' <= c <= '9' then Some((c - '0') as int)
    else if 'a' <= c <= 'f' then Some((c - 'a') as int + 10)
    else if 'A' <= c <= 'F' then Some((c - 'A') as int + 10)
    else None
  }

  /** Length of the longest run of digits of the given base at the front of text, up to max. */
  function DigitRun(text: string, octal: bool, max: nat): (n: nat)
    ensures n <= |text| && n <= max
    ensures forall i :: 0 <= i < n ==> HexDigit(text[i]).Some?
    decreases max
  {
    if max == 0 || text == [] || HexDigit(text[0]).None? || (octal && HexDigit(text[0]).value >= 8) then 0
    else 1 + DigitRun(text[1..], octal, max - 1)
  }

  function Number(digits: string, radix: nat): nat
    requires forall i :: 0 <= i < |digits| ==> HexDigit(digits[i]).Some?
  {
    if digits == [] then 0 else Number(digits[..|digits| - 1], radix) * radix + HexDigit(digits[|digits| - 1]).value
  }

  function CharOf(v: nat): Option<char> {
    if v < 0xD800 || 0xE000 <= v < 0x11_0000 then Some(v as char) else None
  }

  /** The escape whose backslash has just been read: its value and what follows. */
  function Escape(text: string): Result<Lexeme, LexError> {
    if text == [] then Err(Unterminated)
    else
      var c, rest := text[0], text[1..];
      if c == 'b' then Ok((['\U{08}'], rest))
      else if c == 'f' then Ok((['\U{0C}'], rest))
      else if c == 'n' then Ok((['\n'], rest))
      else if c == 'r' then Ok((['\r'], rest))
      else if c == 't' then Ok((['\t'], rest))
      else if '0' <= c <= '7' then
        var n := DigitRun(text, true, 3);
        Coded(Number(text[..n], 8) % 256, text[n..])
      else if c == 'x' && DigitRun(rest, false, 2) > 0 then
        var n := DigitRun(rest, false, 2);
        Coded(Number(rest[..n], 16), rest[n..])
      else if c == 'u' || c == 'U' then
        var n := if c == 'u' then 4 else 8;
        if DigitRun(rest, false, n) < n then Err(BadEscape) else Coded(Number(rest[..n], 16), rest[n..])
      else Ok(([c], rest))
  }

  function Coded(v: nat, rest: string): Result<Lexeme, LexError> {
    match CharOf(v)
    case None => Err(BadEscape)
    case Some(c) => Ok(([c], rest))
  }

  // ---- the lexer: string constants (section 4.1.2.1) ----

  predicate Newline(c: char) { c == '\n' || c == '\r' }

  predicate HorizontalSpace(c: char) { c == ' ' || c == '\t' || c == '\U{0B}' || c == '\U{0C}' }

  /** What follows a comment: its newline, or the end of the text. */
  function AfterComment(text: string): (rest: string)
    ensures |rest| <= |text|
  {
    if text == [] || Newline(text[0]) then text else AfterComment(text[1..])
  }

  predicate AtComment(text: string) { |text| >= 2 && text[0] == '-' && text[1] == '-' }

  function SkipHorizontal(text: string): (rest: string)
    ensures |rest| <= |text|
    decreases |text|
  {
    if AtComment(text) then AfterComment(text)
    else if text != [] && HorizontalSpace(text[0]) then SkipHorizontal(text[1..])
    else text
  }

  function SkipSpecial(text: string): (rest: string)
    ensures |rest| <= |text|
    decreases |text|
  {
    if AtComment(text) then
      var rest := AfterComment(text[2..]);
      if rest == [] then text else SkipSpecial(rest[1..])
    else if text != [] && (HorizontalSpace(text[0]) || Newline(text[0])) then SkipSpecial(text[1..])
    else text
  }

  /** Two constants separated by white space with a newline in it are one: what follows the second opening quote. */
  function Continuation(text: string): (rest: Option<string>)
    ensures rest.Some? ==> |rest.value| < |text|
  {
    var rest := SkipHorizontal(text);
    if rest == [] || !Newline(rest[0]) then None
    else
      var rest := SkipSpecial(rest[1..]);
      if rest != [] && rest[0] == QUOTE then Some(rest[1..]) else None
  }

  function Prefixed(value: string, r: Result<Lexeme, LexError>): Result<Lexeme, LexError> {
    match r
    case Err(e) => Err(e)
    case Ok((v, rest)) => Ok((value + v, rest))
  }

  lemma EscapeConsumes(text: string)
    ensures Escape(text).Ok? ==> |Escape(text).value.1| < |text|
  {
  }

  /** A constant after its opening quote. */
  function Body(text: string, escapes: bool): (r: Result<Lexeme, LexError>)
    ensures r.Ok? ==> |r.value.1| < |text|
    decreases |text|
  {
    if text == [] then Err(Unterminated)
    else if text[0] == QUOTE then
      if |text| > 1 && text[1] == QUOTE then Prefixed([QUOTE], Body(text[2..], escapes))
      else
        match Continuation(text[1..])
        case None => Ok(("", text[1..]))
        case Some(rest) => Body(rest, escapes)
    else if escapes && text[0] == BACKSLASH then
      EscapeConsumes(text[1..]);
      match Escape(text[1..])
      case Err(e) => Err(e)
      case Ok((v, rest)) => Prefixed(v, Body(rest, escapes))
    else Prefixed([text[0]], Body(text[1..], escapes))
  }

  /** A string constant at the front of text; conforming is standard_conforming_strings. */
  function Lex(text: string, conforming: bool): Result<Lexeme, LexError> {
    if |text| >= 2 && (text[0] == 'E' || text[0] == 'e') && text[1] == QUOTE then Body(text[2..], true)
    else if text != [] && text[0] == QUOTE then Body(text[1..], !conforming)
    else Err(NotALiteral)
  }

  // ---- literals round-trip ----

  /** Text that, right after a constant, still belongs to it. */
  predicate Continues(rest: string) {
    (rest != [] && rest[0] == QUOTE) || Continuation(rest).Some?
  }

  /** Quotes doubled, and with escapes backslashes too, character by character. */
  function Doubled(s: string, escapes: bool): string {
    if s == [] then []
    else (if s[0] == QUOTE then [QUOTE, QUOTE]
          else if escapes && s[0] == BACKSLASH then [BACKSLASH, BACKSLASH] else [s[0]]) + Doubled(s[1..], escapes)
  }

  lemma {:induction false} ReplacedConcat(a: string, b: string, from: char, to: string)
    ensures ReplaceAll(a + b, from, to) == ReplaceAll(a, from, to) + ReplaceAll(b, from, to)
  {
    if a != [] {
      assert (a + b)[1..] == a[1..] + b;
      ReplacedConcat(a[1..], b, from, to);
    } else {
      assert a + b == b;
    }
  }

  /** The two replacements one after the other amount to one pass. */
  lemma {:induction false} ReplacedIsDoubled(s: string)
    ensures ReplaceAll(s, QUOTE, [QUOTE, QUOTE]) == Doubled(s, false)
    ensures ReplaceAll(Doubled(s, false), BACKSLASH, [BACKSLASH, BACKSLASH]) == Doubled(s, true)
    ensures BACKSLASH in Doubled(s, false) <==> BACKSLASH in s
    ensures BACKSLASH !in s ==> Doubled(s, false) == Doubled(s, true)
  {
    if s != [] {
      ReplacedIsDoubled(s[1..]);
      var head := if s[0] == QUOTE then [QUOTE, QUOTE] else [s[0]];
      ReplacedConcat(head, Doubled(s[1..], false), BACKSLASH, [BACKSLASH, BACKSLASH]);
      assert Doubled(s, false) == head + Doubled(s[1..], false);
      assert s == [s[0]] + s[1..];
      assert ReplaceAll(head, BACKSLASH, [BACKSLASH, BACKSLASH])
             == if s[0] == QUOTE then [QUOTE, QUOTE] else if s[0] == BACKSLASH then [BACKSLASH, BACKSLASH] else [s[0]] by {
        ReplacedHead(s[0]);
      }
    }
  }

  lemma ReplacedHead(c: char)
    ensures ReplaceAll([c], BACKSLASH, [BACKSLASH, BACKSLASH]) == if c == BACKSLASH then [BACKSLASH, BACKSLASH] else [c]
    ensures ReplaceAll([QUOTE, QUOTE], BACKSLASH, [BACKSLASH, BACKSLASH]) == [QUOTE, QUOTE]
  {
    assert [c][1..] == [] && [QUOTE, QUOTE][1..] == [QUOTE] && [QUOTE][1..] == [];
  }

  /** The lexer reads doubled text back, whatever comes after it. */
  lemma {:induction false} DoubledReads(s: string, tail: string, escapes: bool)
    ensures Body(Doubled(s, escapes) + tail, escapes) == Prefixed(s, Body(tail, escapes))
  {
    if s == [] {
      assert Doubled(s, escapes) + tail == tail;
      assert Prefixed(s, Body(tail, escapes)) == Body(tail, escapes) by { PrefixedByNothing(Body(tail, escapes)); }
    } else {
      var head := if s[0] == QUOTE then [QUOTE, QUOTE]
                  else if escapes && s[0] == BACKSLASH then [BACKSLASH, BACKSLASH] else [s[0]];
      var more := Doubled(s[1..], escapes) + tail;
      var text := Doubled(s, escapes) + tail;
      assert text == head + more;
      assert text[|head|..] == more;
      DoubledReads(s[1..], tail, escapes);
      if |head| == 2 && s[0] == BACKSLASH { assert text[1..][1..] == more && text[1..][0] == BACKSLASH; }
      assert Body(text, escapes) == Prefixed([s[0]], Body(more, escapes));
      PrefixedTwice([s[0]], s[1..], Body(tail, escapes));
      assert [s[0]] + s[1..] == s;
    }
  }

  lemma PrefixedByNothing(r: Result<Lexeme, LexError>)
    ensures Prefixed([], r) == r
  {
    if r.Ok? { assert [] + r.value.0 == r.value.0; }
  }

  lemma PrefixedTwice(a: string, b: string, r: Result<Lexeme, LexError>)
    ensures Prefixed(a, Prefixed(b, r)) == Prefixed(a + b, r)
  {
    if r.Ok? { assert a + (b + r.value.0) == (a + b) + r.value.0; }
  }

  /** What stands behind the closing quote decides: the constant ends there, or reads on past rest's beginning. */
  lemma ClosingQuote(rest: string, escapes: bool)
    ensures !Continues(rest) ==> Body([QUOTE] + rest, escapes) == Ok(("", rest))
    ensures Continues(rest) ==> Body([QUOTE] + rest, escapes).Err? || |Body([QUOTE] + rest, escapes).value.1| < |rest|
  {
    var text := [QUOTE] + rest;
    assert text[1..] == rest;
    if rest != [] && rest[0] == QUOTE { assert text[2..] == rest[1..]; }
  }

  lemma QuotedForm(s: string)
    ensures QuoteLiteral(s) == if BACKSLASH in s then ['E', QUOTE] + Doubled(s, true) + [QUOTE]
                               else [QUOTE] + Doubled(s, false) + [QUOTE]
    ensures BACKSLASH !in s ==> Doubled(s, false) == Doubled(s, true)
  {
    hide ReplaceAll, Doubled;
    ReplacedIsDoubled(s);
  }

  lemma EscapedOpens(inner: string, rest: string, conforming: bool)
    ensures Lex(['E', QUOTE] + inner + [QUOTE] + rest, conforming) == Body(inner + ([QUOTE] + rest), true)
  {
    hide Body;
    var text := ['E', QUOTE] + inner + [QUOTE] + rest;
    assert text == ['E', QUOTE] + (inner + ([QUOTE] + rest));
    assert text[2..] == inner + ([QUOTE] + rest);
  }

  lemma PlainOpens(inner: string, rest: string, conforming: bool)
    ensures Lex([QUOTE] + inner + [QUOTE] + rest, conforming) == Body(inner + ([QUOTE] + rest), !conforming)
  {
    hide Body;
    var text := [QUOTE] + inner + [QUOTE] + rest;
    assert text == [QUOTE] + (inner + ([QUOTE] + rest));
    assert text[1..] == inner + ([QUOTE] + rest);
  }

  /**
    The quoting round trip, for every string, both settings of
    standard_conforming_strings and every text behind it: the server reads
    exactly the string and leaves exactly that text, if and only if the text
    does not continue the constant.
   */
  lemma LiteralRoundTrip(s: string, rest: string, conforming: bool)
    ensures Lex(QuoteLiteral(s) + rest, conforming) == Ok((s, rest)) <==> !Continues(rest)
  {
    hide Continues, Body, Doubled, Lex, QuoteLiteral;
    var escapes := if BACKSLASH in s then true else !conforming;
    QuotedForm(s);
    if BACKSLASH in s {
      EscapedOpens(Doubled(s, true), rest, conforming);
    } else {
      PlainOpens(Doubled(s, false), rest, conforming);
    }
    DoubledReads(s, [QUOTE] + rest, escapes);
    ClosingQuote(rest, escapes);
    assert s + "" == s;
  }

  /** At the end of a statement, as ALTER ROLE uses it, the password is always read exactly. */
  lemma PasswordIsReadExactly(password: string, conforming: bool)
    ensures Lex(QuoteLiteral(password), conforming) == Ok((password, ""))
  {
    LiteralRoundTrip(password, "", conforming);
    assert QuoteLiteral(password) + "" == QuoteLiteral(password);
  }

  /** Not starting with a quote is not enough: a newline and a quote go on with the same constant. */
  lemma NewlineContinues(s: string, conforming: bool)
    ensures Lex(QuoteLiteral(s) + ['\n', QUOTE, QUOTE], conforming) != Ok((s, ['\n', QUOTE, QUOTE]))
  {
    var rest := ['\n', QUOTE, QUOTE];
    assert SkipHorizontal(rest) == rest;
    assert rest[1..][0] == QUOTE;
    assert SkipSpecial(rest[1..]) == rest[1..];
    LiteralRoundTrip(s, rest, conforming);
  }

  // ---- identifiers ----

  const MAX_IDENTIFIER_BYTES := 63

  /** Bytes of a character in UTF-8. */
  function Utf8Size(c: char): nat {
    var v := c as int;
    if v < 0x80 then 1 else if v < 0x800 then 2 else if v < 0x1_0000 then 3 else 4
  }

  function Utf8Length(s: string): nat { if s == [] then 0 else Utf8Size(s[0]) + Utf8Length(s[1..]) }

  /** truncate_identifier: whole characters within the limit. */
  function Truncated(s: string, limit: nat): string {
    if s == [] || Utf8Size(s[0]) > limit then [] else [s[0]] + Truncated(s[1..], limit - Utf8Size(s[0]))
  }

  /** A delimited identifier after its opening quote (section 4.1.1). */
  function IdentifierBody(text: string): Result<Lexeme, LexError>
    decreases |text|
  {
    if text == [] then Err(Unterminated)
    else if text[0] == DOUBLE_QUOTE then
      if |text| > 1 && text[1] == DOUBLE_QUOTE then Prefixed([DOUBLE_QUOTE], IdentifierBody(text[2..]))
      else Ok(("", text[1..]))
    else Prefixed([text[0]], IdentifierBody(text[1..]))
  }

  function LexIdentifier(text: string): Result<Lexeme, LexError> {
    if text == [] || text[0] != DOUBLE_QUOTE then Err(NotALiteral)
    else
      match IdentifierBody(text[1..])
      case Err(e) => Err(e)
      case Ok((name, rest)) => if name == "" then Err(EmptyIdentifier) else Ok((Truncated(name, MAX_IDENTIFIER_BYTES), rest))
  }

  lemma {:induction false} IdentifierReads(name: string, tail: string)
    ensures IdentifierBody(ReplaceAll(name, DOUBLE_QUOTE, [DOUBLE_QUOTE, DOUBLE_QUOTE]) + tail)
            == Prefixed(name, IdentifierBody(tail))
  {
    var two := [DOUBLE_QUOTE, DOUBLE_QUOTE];
    if name == [] {
      assert ReplaceAll(name, DOUBLE_QUOTE, two) + tail == tail;
      PrefixedByNothing(IdentifierBody(tail));
    } else {
      var head := if name[0] == DOUBLE_QUOTE then two else [name[0]];
      var more := ReplaceAll(name[1..], DOUBLE_QUOTE, two) + tail;
      var text := ReplaceAll(name, DOUBLE_QUOTE, two) + tail;
      assert text == head + more && text[|head|..] == more;
      IdentifierReads(name[1..], tail);
      PrefixedTwice([name[0]], name[1..], IdentifierBody(tail));
      assert [name[0]] + name[1..] == name;
    }
  }

  lemma {:induction false} TruncatedExactly(s: string, limit: nat)
    ensures Truncated(s, limit) == s <==> Utf8Length(s) <= limit
  {
    if s != [] && Utf8Size(s[0]) <= limit {
      TruncatedExactly(s[1..], limit - Utf8Size(s[0]));
      assert s == [s[0]] + s[1..];
      if Truncated(s, limit) == s { assert Truncated(s[1..], limit - Utf8Size(s[0])) == s[1..]; }
    }
  }

  lemma {:induction false} IdentifierConsumes(text: string)
    ensures IdentifierBody(text).Ok? ==> |IdentifierBody(text).value.1| < |text|
    decreases |text|
  {
    if text != [] {
      IdentifierConsumes(text[1..]);
      if |text| > 1 { IdentifierConsumes(text[2..]); }
    }
  }

  /**
    The same for identifiers: the server reads exactly the name and the text
    behind it, if and only if the name is not empty, fits in 63 bytes, and the
    text does not start with another double quote.
   */
  lemma IdentifierRoundTrip(name: string, rest: string)
    ensures LexIdentifier(QuoteIdentifier(name) + rest) == Ok((name, rest))
            <==> name != "" && Utf8Length(name) <= MAX_IDENTIFIER_BYTES && (rest == [] || rest[0] != DOUBLE_QUOTE)
  {
    var inner := ReplaceAll(name, DOUBLE_QUOTE, [DOUBLE_QUOTE, DOUBLE_QUOTE]);
    var text := QuoteIdentifier(name) + rest;
    var tail := [DOUBLE_QUOTE] + rest;
    assert text == [DOUBLE_QUOTE] + (inner + tail) && text[1..] == inner + tail;
    IdentifierReads(name, tail);
    TruncatedExactly(name, MAX_IDENTIFIER_BYTES);
    assert tail[1..] == rest && name + "" == name;
    if rest != [] && rest[0] == DOUBLE_QUOTE {
      assert tail[2..] == rest[1..];
      IdentifierConsumes(rest[1..]);
    }
  }

  // ---- the allowlist ----

  datatype IdentifierError = Empty | TooLong | BadPattern

  predicate StartChar(c: char) { 'a' <= c <= 'z' || c == '_' }

  predicate NameChar(c: char) { StartChar(c) || '0' <= c <= '9' }

  /** validateIdentifier; the pattern is ^[a-z_][a-z0-9_]*$. */
  function ValidateIdentifier(name: string): Option<IdentifierError> {
    if name == "" then Some(Empty)
    else if Utf8Length(name) > MAX_IDENTIFIER_BYTES then Some(TooLong)
    else if !(StartChar(name[0]) && forall i :: 0 <= i < |name| ==> NameChar(name[i])) then Some(BadPattern)
    else None
  }

  lemma {:induction false} NamesAreOneBytePerCharacter(name: string)
    requires forall i :: 0 <= i < |name| ==> NameChar(name[i])
    ensures Utf8Length(name) == |name|
  {
    if name != "" {
      assert NameChar(name[0]);
      NamesAreOneBytePerCharacter(name[1..]);
    }
  }

  lemma {:induction false} NoShorterThanCharacters(name: string)
    ensures |name| <= Utf8Length(name)
  {
    if name != "" { NoShorterThanCharacters(name[1..]); }
  }

  /** The names that pass: one to 63 lower-case letters, digits and underscores, the first of them no digit. */
  lemma ValidNamesExactly(name: string)
    ensures ValidateIdentifier(name).None? <==>
              && 1 <= |name| <= 63 && !('0' <= name[0] <= '9')
              && forall i :: 0 <= i < |name| ==> 'a' <= name[i] <= 'z' || '0' <= name[i] <= '9' || name[i] == '_'
    ensures ValidateIdentifier(name) == Some(Empty) <==> name == ""
  {
    if forall i :: 0 <= i < |name| ==> NameChar(name[i]) { NamesAreOneBytePerCharacter(name); }
    NoShorterThanCharacters(name);
  }

  /** A validated name is what the server reads, in CREATE ROLE, ALTER ROLE and GRANT alike, and quoting leaves it as it is. */
  lemma ValidatedNamesAreReadExactly(name: string, rest: string)
    requires ValidateIdentifier(name).None? && (rest == [] || rest[0] != DOUBLE_QUOTE)
    ensures LexIdentifier(QuoteIdentifier(name) + rest) == Ok((name, rest))
    ensures QuoteIdentifier(name) == [DOUBLE_QUOTE] + name + [DOUBLE_QUOTE]
  {
    IdentifierRoundTrip(name, rest);
    NothingToReplace(name, DOUBLE_QUOTE, [DOUBLE_QUOTE, DOUBLE_QUOTE]);
  }

  lemma {:induction false} NothingToReplace(s: string, from: char, to: string)
    requires from !in s
    ensures ReplaceAll(s, from, to) == s
  {
    if s != [] {
      NothingToReplace(s[1..], from, to);
      assert s == [s[0]] + s[1..];
    }
  }
}
