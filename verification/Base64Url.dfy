/**
  Unpadded base64url (section 5 of RFC 4648) as the two ends of the system
  write it: the browser through btoa and three replacements, the Go services
  through base64.RawURLEncoding. Also the big-endian integer form of JWK
  members "n" and "e" (section 6.3.1 of RFC 7518).
 */
module Base64Url {
  import opened Wrappers

  type byte = x: int | 0 <= x < 256

  // ---- alphabets ----

  /** The base64 alphabet with c62 and c63 as its last two symbols. */
  function Symbol(i: int, c62: char, c63: char): char
    requires 0 <= i < 64
  {
    if i < 26 then 'A' + i as char
    else if i < 52 then 'a' + (i - 26) as char
    else if i < 62 then '0' + (i - 52) as char
    else if i == 62 then c62
    else c63
  }

  /** Inverse of the base64url alphabet; None outside it. */
  function Digit(c: char): Option<int> {
    if 'A' <= c <= 'Z' then Some(c as int - 'A' as int)
    else if 'a' <= c <= 'z' then Some(c as int - 'a' as int + 26)
    else if '0' <= c <= '9' then Some(c as int - '0' as int + 52)
    else if c == '-' then Some(62)
    else if c == '_' then Some(63)
    else None
  }

  // ---- encoders ----

  /** The 6-bit digits of one to three bytes, the last one filled up with zero bits. */
  function Sextets(bs: seq<byte>): (ds: seq<int>)
    requires 1 <= |bs| <= 3
    ensures |ds| == |bs| + 1 && forall i :: 0 <= i < |ds| ==> 0 <= ds[i] < 64
  {
    if |bs| == 1 then [bs[0] / 4, bs[0] % 4 * 16]
    else if |bs| == 2 then [bs[0] / 4, bs[0] % 4 * 16 + bs[1] / 16, bs[1] % 16 * 4]
    else [bs[0] / 4, bs[0] % 4 * 16 + bs[1] / 16, bs[1] % 16 * 4 + bs[2] / 64, bs[2] % 64]
  }

  function Symbols(ds: seq<int>, c62: char, c63: char): (s: string)
    requires forall i :: 0 <= i < |ds| ==> 0 <= ds[i] < 64
    ensures |s| == |ds|
  {
    seq(|ds|, i requires 0 <= i < |ds| => Symbol(ds[i], c62, c63))
  }

  function Padding(missing: nat): string { seq(missing, _ => '=') }

  /** Two to four symbols, followed by one '=' per missing byte when padded. */
  function Group(bs: seq<byte>, c62: char, c63: char, pad: bool): string
    requires 1 <= |bs| <= 3
  {
    Symbols(Sextets(bs), c62, c63) + Padding(if pad then 3 - |bs| else 0)
  }

  function EncodeWith(bs: seq<byte>, c62: char, c63: char, pad: bool): string {
    if bs == [] then ""
    else if |bs| <= 3 then Group(bs, c62, c63, pad)
    else Group(bs[..3], c62, c63, pad) + EncodeWith(bs[3..], c62, c63, pad)
  }

  /** base64.RawURLEncoding.EncodeToString. */
  function Encode(bs: seq<byte>): string { EncodeWith(bs, '-', '_', false) }

  /** btoa, on a binary string whose characters stand for bytes. */
  function Btoa(binary: string): string
    requires forall i :: 0 <= i < |binary| ==> binary[i] as int < 256
  {
    EncodeWith(seq(|binary|, i requires 0 <= i < |binary| => binary[i] as int), '+', '/', true)
  }

  /** String.replace with a global single-character pattern; None deletes. */
  function Replace(s: string, from: char, to: Option<char>): string {
    if s == [] then ""
    else (if s[0] != from then [s[0]] else match to case Some(c) => [c] case None => [])
         + Replace(s[1..], from, to)
  }

  /** base64urlEncode of the single-page application. */
  method BrowserEncode(bytes: seq<byte>) returns (s: string)
    ensures s == Encode(bytes)
  {
    var binary: string := "";
    for i := 0 to |bytes|
      invariant |binary| == i
      invariant forall k :: 0 <= k < i ==> binary[k] as int == bytes[k]
    {
      binary := binary + [bytes[i] as char];
    }
    assert seq(|binary|, i requires 0 <= i < |binary| => binary[i] as int) == bytes;
    BrowserFormIsUrlForm(bytes);
    s := Replace(Replace(Replace(Btoa(binary), '+', Some('-')), '/', Some('_')), '=', None);
  }

  // ---- decoder ----

  function StripNewlines(s: string): string { Replace(Replace(s, '\r', None), '\n', None) }

  function DecodeGroups(s: string): Option<seq<byte>> {
    if s == [] then Some([])
    else if |s| == 1 then None
    else
      match (Digit(s[0]), Digit(s[1]))
      case (Some(d0), Some(d1)) =>
        var b0 := d0 * 4 + d1 / 16;
        if |s| == 2 then Some([b0])
        else (
          match Digit(s[2])
          case None => None
          case Some(d2) =>
            var b1 := d1 % 16 * 16 + d2 / 4;
            if |s| == 3 then Some([b0, b1])
            else (
              match (Digit(s[3]), DecodeGroups(s[4..]))
              case (Some(d3), Some(rest)) => Some([b0, b1, d2 % 4 * 64 + d3] + rest)
              case _ => None
            )
        )
      case _ => None
  }

  /** base64.RawURLEncoding.DecodeString: line breaks are skipped, trailing bits are not checked. */
  function Decode(s: string): Option<seq<byte>> { DecodeGroups(StripNewlines(s)) }

  // ---- laws of the encoding ----

  predicate UrlSymbol(c: char) {
    'A' <= c <= 'Z' || 'a' <= c <= 'z' || '0' <= c <= '9' || c == '-' || c == '_'
  }

  /** n bytes become ceil(4n/3) symbols, all of them from the base64url alphabet. */
  lemma {:induction false} EncodedShape(bs: seq<byte>)
    ensures |Encode(bs)| == (4 * |bs| + 2) / 3
    ensures forall i :: 0 <= i < |Encode(bs)| ==> UrlSymbol(Encode(bs)[i])
    decreases |bs|
  {
    if |bs| > 3 { EncodedShape(bs[3..]); }
  }

  lemma {:induction false} ReplaceAbsent(s: string, from: char, to: Option<char>)
    requires from !in s
    ensures Replace(s, from, to) == s
  {
    if s != [] {
      assert s[0] in s;
      assert forall c :: c in s[1..] ==> c in s;
      ReplaceAbsent(s[1..], from, to);
    }
  }

  lemma {:induction false} ReplaceConcat(a: string, b: string, from: char, to: Option<char>)
    ensures Replace(a + b, from, to) == Replace(a, from, to) + Replace(b, from, to)
  {
    if a == [] {
      assert a + b == b;
    } else {
      assert (a + b)[1..] == a[1..] + b;
      ReplaceConcat(a[1..], b, from, to);
    }
  }

  function ToUrlForm(s: string): string {
    Replace(Replace(Replace(s, '+', Some('-')), '/', Some('_')), '=', None)
  }

  lemma ToUrlConcat(a: string, b: string)
    ensures ToUrlForm(a + b) == ToUrlForm(a) + ToUrlForm(b)
  {
    ReplaceConcat(a, b, '+', Some('-'));
    var a1, b1 := Replace(a, '+', Some('-')), Replace(b, '+', Some('-'));
    ReplaceConcat(a1, b1, '/', Some('_'));
    ReplaceConcat(Replace(a1, '/', Some('_')), Replace(b1, '/', Some('_')), '=', None);
  }

  lemma SymbolToUrl(i: int)
    requires 0 <= i < 64
    ensures ToUrlForm([Symbol(i, '+', '/')]) == [Symbol(i, '-', '_')]
  {
    var c := Symbol(i, '+', '/');
    var dash := Some('-');
    assert Replace([c], '+', dash) == [if c == '+' then '-' else c];
    var c1 := if c == '+' then '-' else c;
    assert Replace([c1], '/', Some('_')) == [if c1 == '/' then '_' else c1];
    var c2 := if c1 == '/' then '_' else c1;
    ReplaceAbsent([c2], '=', None);
  }

  lemma {:induction false} SymbolsToUrl(ds: seq<int>)
    requires forall i :: 0 <= i < |ds| ==> 0 <= ds[i] < 64
    ensures ToUrlForm(Symbols(ds, '+', '/')) == Symbols(ds, '-', '_')
  {
    if ds != [] {
      SymbolToUrl(ds[0]);
      SymbolsToUrl(ds[1..]);
      ToUrlConcat([Symbol(ds[0], '+', '/')], Symbols(ds[1..], '+', '/'));
      assert Symbols(ds, '+', '/') == [Symbol(ds[0], '+', '/')] + Symbols(ds[1..], '+', '/');
      assert Symbols(ds, '-', '_') == [Symbol(ds[0], '-', '_')] + Symbols(ds[1..], '-', '_');
    }
  }

  lemma {:induction false} PaddingToUrl(n: nat)
    ensures ToUrlForm(Padding(n)) == ""
  {
    ReplaceAbsent(Padding(n), '+', Some('-'));
    ReplaceAbsent(Padding(n), '/', Some('_'));
    if n > 0 {
      PaddingToUrl(n - 1);
      ReplaceAbsent(Padding(n - 1), '+', Some('-'));
      ReplaceAbsent(Padding(n - 1), '/', Some('_'));
      assert Padding(n)[1..] == Padding(n - 1);
    }
  }

  lemma GroupToUrl(bs: seq<byte>)
    requires 1 <= |bs| <= 3
    ensures ToUrlForm(Group(bs, '+', '/', true)) == Group(bs, '-', '_', false)
  {
    var ds := Sextets(bs);
    SymbolsToUrl(ds);
    PaddingToUrl(3 - |bs|);
    ToUrlConcat(Symbols(ds, '+', '/'), Padding(3 - |bs|));
  }

  /** btoa followed by the three replacements is Go's RawURLEncoding. */
  lemma {:induction false} BrowserFormIsUrlForm(bs: seq<byte>)
    ensures ToUrlForm(EncodeWith(bs, '+', '/', true)) == Encode(bs)
    decreases |bs|
  {
    if bs != [] {
      if |bs| <= 3 {
        GroupToUrl(bs);
      } else {
        GroupToUrl(bs[..3]);
        BrowserFormIsUrlForm(bs[3..]);
        ToUrlConcat(Group(bs[..3], '+', '/', true), EncodeWith(bs[3..], '+', '/', true));
      }
    }
  }

  lemma DigitOfSymbol(i: int)
    requires 0 <= i < 64
    ensures Digit(Symbol(i, '-', '_')) == Some(i)
  {
  }

  /** The sextets determine the bytes again. */
  lemma SextetsJoin(bs: seq<byte>)
    requires 1 <= |bs| <= 3
    ensures Sextets(bs)[0] * 4 + Sextets(bs)[1] / 16 == bs[0]
    ensures |bs| > 1 ==> Sextets(bs)[1] % 16 * 16 + Sextets(bs)[2] / 4 == bs[1]
    ensures |bs| > 2 ==> Sextets(bs)[2] % 4 * 64 + Sextets(bs)[3] == bs[2]
  {
  }

  lemma GroupDecodes(bs: seq<byte>, rest: string, more: seq<byte>)
    requires 1 <= |bs| <= 3 && (|bs| < 3 ==> rest == "" && more == [])
    requires DecodeGroups(rest) == Some(more)
    ensures DecodeGroups(Group(bs, '-', '_', false) + rest) == Some(bs + more)
  {
    var ds := Sextets(bs);
    var s := Group(bs, '-', '_', false) + rest;
    assert s == Symbols(ds, '-', '_') + rest;
    SextetsJoin(bs);
    assert forall i :: 0 <= i < |ds| ==> s[i] == Symbol(ds[i], '-', '_');
    forall i | 0 <= i < |ds| ensures Digit(s[i]) == Some(ds[i]) { DigitOfSymbol(ds[i]); }
    if |bs| == 1 {
      assert DecodeGroups(s) == Some([bs[0]]);
      assert [bs[0]] == bs + more;
    } else if |bs| == 2 {
      assert DecodeGroups(s) == Some([bs[0], bs[1]]);
      assert [bs[0], bs[1]] == bs + more;
    } else {
      assert s[4..] == rest;
      assert DecodeGroups(s) == Some([bs[0], bs[1], bs[2]] + more);
      assert [bs[0], bs[1], bs[2]] == bs;
    }
  }

  lemma {:induction false} GroupsRoundTrip(bs: seq<byte>)
    ensures DecodeGroups(Encode(bs)) == Some(bs)
    decreases |bs|
  {
    if bs != [] {
      if |bs| <= 3 {
        GroupDecodes(bs, "", []);
        assert Encode(bs) + "" == Encode(bs);
        assert bs + [] == bs;
      } else {
        GroupsRoundTrip(bs[3..]);
        GroupDecodes(bs[..3], Encode(bs[3..]), bs[3..]);
        assert bs[..3] + bs[3..] == bs;
      }
    }
  }

  /** Decoding undoes encoding, for every byte sequence; encoding is therefore injective. */
  lemma RoundTrip(bs: seq<byte>)
    ensures Decode(Encode(bs)) == Some(bs)
  {
    EncodedShape(bs);
    ReplaceAbsent(Encode(bs), '\r', None);
    ReplaceAbsent(Encode(bs), '\n', None);
    GroupsRoundTrip(bs);
  }

  /** The characters of a string other than line breaks. */
  function Unbroken(s: string): string {
    if s == [] then []
    else (if s[0] == '\r' || s[0] == '\n' then [] else [s[0]]) + Unbroken(s[1..])
  }

  lemma {:induction false} StripIsUnbroken(s: string)
    ensures StripNewlines(s) == Unbroken(s)
  {
    if s != [] {
      StripIsUnbroken(s[1..]);
      var rest := Replace(s[1..], '\r', None);
      assert Replace(s, '\r', None) == (if s[0] == '\r' then [] else [s[0]]) + rest;
      if s[0] != '\r' { assert ([s[0]] + rest)[1..] == rest; } else { assert [] + rest == rest; }
    }
  }

  lemma {:induction false} GroupsDecodeExactly(s: string)
    ensures DecodeGroups(s).Some? <==> |s| % 4 != 1 && forall i :: 0 <= i < |s| ==> UrlSymbol(s[i])
    ensures DecodeGroups(s).Some? ==> |DecodeGroups(s).value| == 3 * |s| / 4
    decreases |s|
  {
    if |s| >= 4 {
      GroupsDecodeExactly(s[4..]);
      assert forall i :: 4 <= i < |s| ==> s[i] == s[4..][i - 4];
      assert forall i :: 0 <= i < |s[4..]| ==> s[4..][i] == s[i + 4];
    }
  }

  /** What decodes: any number of symbols of the alphabet but one more than a multiple of four, line breaks aside. */
  lemma DecodesExactly(s: string)
    ensures Decode(s).Some? <==> |Unbroken(s)| % 4 != 1 && forall i :: 0 <= i < |Unbroken(s)| ==> UrlSymbol(Unbroken(s)[i])
    ensures Decode(s).Some? ==> |Decode(s).value| == 3 * |Unbroken(s)| / 4
  {
    StripIsUnbroken(s);
    GroupsDecodeExactly(Unbroken(s));
  }


  lemma EncodeInjective(a: seq<byte>, b: seq<byte>)
    ensures Encode(a) == Encode(b) <==> a == b
  {
    RoundTrip(a);
    RoundTrip(b);
  }

  // ---- big-endian integers ----

  /** big.Int.Bytes: minimal big-endian form, empty for zero. */
  function BigEndian(n: nat): seq<byte> {
    if n == 0 then [] else BigEndian(n / 256) + [n % 256]
  }

  /** big.Int.SetBytes. */
  function FromBigEndian(bs: seq<byte>): nat {
    if bs == [] then 0 else FromBigEndian(bs[..|bs| - 1]) * 256 + bs[|bs| - 1]
  }

  lemma {:induction false} BigEndianRoundTrip(n: nat)
    ensures FromBigEndian(BigEndian(n)) == n
  {
    if n != 0 {
      BigEndianRoundTrip(n / 256);
      assert BigEndian(n)[..|BigEndian(n)| - 1] == BigEndian(n / 256);
    }
  }
}
