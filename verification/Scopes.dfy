/**
  Scope value objects of the authorization server: the two Scope types
  (domain/authcode and domain/refreshtoken), whitespace splitting, and the
  string form under which scopes are stored in Postgres and compared by the
  consent service.
 */
module Scopes {
  import opened Wrappers

  const OPENID := "openid"
  const OFFLINE_ACCESS := "offline_access"

  datatype ScopeError = InvalidScope | MissingOpenID

  /** A parsed scope: its canonical string and its set of values. */
  datatype Scope = Scope(value: string, values: set<string>) {
    predicate Has(v: string) { v in values }
  }

  /** unicode.IsSpace, the separator class of Go's strings.Fields. */
  predicate IsSpace(c: char) {
    c == '\t' || c == '\n' || c == '\U{0B}' || c == '\U{0C}' || c == '\r' || c == ' '
    || c == '\U{85}' || c == '\U{A0}' || c == '\U{1680}' || '\U{2000}' <= c <= '\U{200A}'
    || c == '\U{2028}' || c == '\U{2029}' || c == '\U{202F}' || c == '\U{205F}' || c == '\U{3000}'
  }

  ghost predicate IsField(w: string) {
    w != [] && forall i :: 0 <= i < |w| ==> !IsSpace(w[i])
  }

  ghost predicate AllFields(ws: seq<string>) {
    forall i :: 0 <= i < |ws| ==> IsField(ws[i])
  }

  /** Length of the longest prefix of s without a separator. */
  function WordEnd(s: string): (n: nat)
    ensures n <= |s|
    ensures forall i :: 0 <= i < n ==> !IsSpace(s[i])
    ensures n < |s| ==> IsSpace(s[n])
  {
    if s == [] || IsSpace(s[0]) then 0 else 1 + WordEnd(s[1..])
  }

  /** strings.Fields: the maximal separator-free words of s, in order. */
  function Fields(s: string): (ws: seq<string>)
    ensures AllFields(ws)
    decreases |s|
  {
    if s == [] then []
    else if IsSpace(s[0]) then Fields(s[1..])
    else var n := WordEnd(s); [s[..n]] + Fields(s[n..])
  }

  /** strings.Join(ws, " "). */
  function Join(ws: seq<string>): string {
    if ws == [] then ""
    else if |ws| == 1 then ws[0]
    else ws[0] + " " + Join(ws[1..])
  }

  function Elements(ws: seq<string>): set<string> { set w | w in ws }

  /** The set of scope values a stored scope string stands for. */
  function ValueSet(s: string): set<string> { Elements(Fields(s)) }

  // ---- refreshtoken.Scope and authcode.Scope ----

  function ScopeOf(ws: seq<string>): Scope { Scope(Join(ws), Elements(ws)) }

  function ParseRefresh(s: string): Result<Scope, ScopeError> {
    if Fields(s) == [] then Err(InvalidScope) else Ok(ScopeOf(Fields(s)))
  }

  function ParseAuth(s: string): Result<Scope, ScopeError> {
    if Fields(s) == [] then Err(InvalidScope)
    else if OPENID !in Fields(s) then Err(MissingOpenID)
    else Ok(ScopeOf(Fields(s)))
  }

  function Narrow(granted: Scope, requested: string): Result<Scope, ScopeError> {
    if Fields(requested) == [] then Ok(granted)
    else if Elements(Fields(requested)) <= granted.values then Ok(ScopeOf(Fields(requested)))
    else Err(InvalidScope)
  }

  /** What every scope built by a parse or a narrowing satisfies. */
  ghost predicate Canonical(sc: Scope) {
    && Fields(sc.value) != []
    && Join(Fields(sc.value)) == sc.value
    && sc.values == ValueSet(sc.value)
  }

  // ---- the loops of the source ----

  /** strings.Fields as the scan it is: one pass, closing a word at each separator. */
  method SplitFields(s: string) returns (ws: seq<string>)
    ensures ws == Fields(s)
  {
    ws := [];
    var i := 0;
    while i < |s|
      invariant 0 <= i <= |s|
      invariant ws + Fields(s[i..]) == Fields(s)
    {
      if IsSpace(s[i]) {
        assert s[i..][1..] == s[i + 1..];
        i := i + 1;
      } else {
        var start := i;
        while i < |s| && !IsSpace(s[i])
          invariant start <= i <= |s|
          invariant forall k :: start <= k < i ==> !IsSpace(s[k])
        {
          i := i + 1;
        }
        WordEndAt(s[start..], i - start);
        assert s[start..][..i - start] == s[start..i];
        assert s[start..][i - start..] == s[i..];
        ws := ws + [s[start..i]];
      }
    }
  }

  /** refreshtoken.ParseScope and, with openidRequired, authcode.ParseScope. */
  method ParseScope(s: string, openidRequired: bool) returns (r: Result<Scope, ScopeError>)
    ensures r == if openidRequired then ParseAuth(s) else ParseRefresh(s)
  {
    var fields := SplitFields(s);
    if |fields| == 0 { return Err(InvalidScope); }
    var values: set<string> := {};
    for i := 0 to |fields|
      invariant values == Elements(fields[..i])
    {
      assert fields[..i + 1] == fields[..i] + [fields[i]];
      values := values + {fields[i]};
    }
    assert fields[..|fields|] == fields;
    if openidRequired && OPENID !in values { return Err(MissingOpenID); }
    return Ok(Scope(Join(fields), values));
  }

  /** Scope.Narrow: stops at the first requested value outside the grant. */
  method NarrowScope(granted: Scope, requested: string) returns (r: Result<Scope, ScopeError>)
    ensures r == Narrow(granted, requested)
  {
    var fields := SplitFields(requested);
    if |fields| == 0 { return Ok(granted); }
    var values: set<string> := {};
    for i := 0 to |fields|
      invariant values == Elements(fields[..i])
      invariant values <= granted.values
    {
      if !granted.Has(fields[i]) {
        assert fields[i] in Elements(fields);
        return Err(InvalidScope);
      }
      assert fields[..i + 1] == fields[..i] + [fields[i]];
      values := values + {fields[i]};
    }
    assert fields[..|fields|] == fields;
    return Ok(Scope(Join(fields), values));
  }

  // ---- the codec ----

  lemma WordEndAt(s: string, n: nat)
    requires n <= |s| && (forall i :: 0 <= i < n ==> !IsSpace(s[i]))
    requires n == |s| || IsSpace(s[n])
    ensures WordEnd(s) == n
  {
  }

  /** Joining words and splitting again gives the same words back. */
  lemma {:induction false} FieldsOfJoin(ws: seq<string>)
    requires AllFields(ws)
    ensures Fields(Join(ws)) == ws
  {
    if ws != [] {
      var s := Join(ws);
      var w := ws[0];
      assert IsField(w);
      WordEndAt(s, |w|);
      assert s[..|w|] == w;
      if |ws| == 1 {
        assert s[|w|..] == [];
        assert Fields(s) == [w] + Fields([]);
      } else {
        assert s == w + (" " + Join(ws[1..]));
        var rest := s[|w|..];
        assert rest == " " + Join(ws[1..]);
        assert rest[1..] == Join(ws[1..]);
        FieldsOfJoin(ws[1..]);
        assert Fields(rest) == Fields(rest[1..]);
        assert Fields(s) == [w] + Fields(rest);
      }
    }
  }

  /** Every parsed scope is canonical: its string denotes its value set and re-splits to itself. */
  lemma ParsedIsCanonical(s: string)
    ensures ParseRefresh(s).Ok? ==> Canonical(ParseRefresh(s).value) && Fields(ParseRefresh(s).value.value) == Fields(s)
    ensures ParseAuth(s).Ok? ==> Canonical(ParseAuth(s).value) && OPENID in ParseAuth(s).value.values
  {
    FieldsOfJoin(Fields(s));
  }

  /**
    A narrowing stays canonical and has exactly the words asked for, or all of
    the grant's when none are; it never adds a value.
   */
  lemma NarrowedIsCanonical(granted: Scope, requested: string)
    requires Canonical(granted)
    ensures Narrow(granted, requested).Ok? ==>
              && Canonical(Narrow(granted, requested).value)
              && Narrow(granted, requested).value.values <= granted.values
              && Narrow(granted, requested).value.values
                 == (if Fields(requested) == [] then granted.values else ValueSet(requested))
              && Fields(Narrow(granted, requested).value.value)
                 == (if Fields(requested) == [] then Fields(granted.value) else Fields(requested))
    ensures Narrow(granted, requested).Ok? <==> ValueSet(requested) <= granted.values
  {
    FieldsOfJoin(Fields(requested));
  }

  /**
    Storage reload: parsing the stored string of any parsed or narrowed scope
    returns that very scope, under both parsers when openid is among its values.
   */
  lemma ReloadPreservesScope(sc: Scope)
    requires Canonical(sc)
    ensures ParseRefresh(sc.value) == Ok(sc)
    ensures ParseAuth(sc.value) == if OPENID in sc.values then Ok(sc) else Err(MissingOpenID)
  {
  }

  /** ConsentService.normalizeScope. */
  function NormalizeScope(raw: string): Result<string, ScopeError> {
    match ParseAuth(raw)
    case Ok(sc) => Ok(sc.value)
    case Err(e) => Err(e)
  }

  /**
    normalizeScope is idempotent, and two raw scope strings normalize alike
    exactly when they split into the same words: separators never matter.
   */
  lemma NormalizeIsCanonicalForm(a: string, b: string)
    requires NormalizeScope(a).Ok? && NormalizeScope(b).Ok?
    ensures NormalizeScope(NormalizeScope(a).value) == NormalizeScope(a)
    ensures NormalizeScope(a) == NormalizeScope(b) <==> Fields(a) == Fields(b)
  {
    FieldsOfJoin(Fields(a));
    FieldsOfJoin(Fields(b));
  }
}
