/** API keys in the `authorization` metadata (internal/apikeystore/keyformat.go). A key is
    handed out as `wgmh_<key_id>_<secret>` and presented after the scheme `Bearer`. */
module BearerKey {
  import opened Options
  import opened GoStrings

  const TOKEN_PREFIX := "wgmh_"
  const SCHEME := "bearer "

  datatype Key = Key(id: string, secret: string)

  function AsciiLower(c: char): char {
    if 'A' <= c <= 'Z' then (c as int + 32) as char else c
  }

  /** `strings.EqualFold` against the scheme, whose letters fold only among ASCII. */
  predicate IsScheme(s: string) {
    |s| == |SCHEME| && forall i :: 0 <= i < |s| ==> AsciiLower(s[i]) == SCHEME[i]
  }

  /** `strings.Cut` at the first underscore. */
  function Cut(s: string): (r: Option<(string, string)>)
    ensures r.Some? ==> s == r.value.0 + "_" + r.value.1 && '_' !in r.value.0
    ensures r.None? ==> '_' !in s
  {
    if s == "" then None
    else if s[0] == '_' then Some(("", s[1..]))
    else match Cut(s[1..])
      case None => None
      case Some((before, after)) => Some(([s[0]] + before, after))
  }

  /** What follows the scheme, when the header has it. */
  function TokenOf(raw: string): Option<string> {
    var header := TrimSpace(raw);
    if |header| < 7 || !IsScheme(header[..7]) then None else Some(TrimSpace(header[7..]))
  }

  function KeyOf(token: string): Option<Key> {
    if !HasPrefix(token, TOKEN_PREFIX) then None
    else match Cut(token[|TOKEN_PREFIX|..])
      case None => None
      case Some((before, after)) =>
        var id, secret := TrimSpace(before), TrimSpace(after);
        if id == "" || secret == "" then None else Some(Key(id, secret))
  }

  function ParseBearerToken(raw: string): Option<Key> {
    var token := TokenOf(raw);
    if token == None then None else KeyOf(token.value)
  }

  /** The printed form. */
  function Printed(key: Key): string { "Bearer " + (TOKEN_PREFIX + key.id + "_" + key.secret) }

  predicate WellFormed(key: Key) {
    key.id != "" && Trimmed(key.id) && '_' !in key.id && key.secret != "" && Trimmed(key.secret)
  }

  /** White space that may stand at the six places of a header. */
  datatype Spaces = Spaces(start: string, afterScheme: string, beforeId: string, afterId: string, beforeSecret: string,
      end: string)

  predicate Proper(sp: Spaces) {
    && AllSpace(sp.start) && AllSpace(sp.afterScheme) && AllSpace(sp.beforeId)
    && AllSpace(sp.afterId) && AllSpace(sp.beforeSecret) && AllSpace(sp.end)
  }

  function Token(key: Key, sp: Spaces): string {
    TOKEN_PREFIX + ((sp.beforeId + key.id + sp.afterId) + "_" + (sp.beforeSecret + key.secret))
  }

  /** A header for a key, in any letter case of the scheme and with extra white space. */
  function Header(scheme: string, key: Key, sp: Spaces): string {
    sp.start + (scheme + (sp.afterScheme + Token(key, sp))) + sp.end
  }

  lemma {:induction false} CutAt(before: string, after: string)
    requires '_' !in before
    ensures Cut(before + "_" + after) == Some((before, after))
  {
    var s := before + "_" + after;
    if before == "" {
      assert s == "_" + after && s[1..] == after;
    } else {
      assert s[1..] == before[1..] + "_" + after;
      CutAt(before[1..], after);
      assert [s[0]] + before[1..] == before;
    }
  }

  lemma SpaceIsNoUnderscore(s: string)
    requires AllSpace(s)
    ensures '_' !in s
  {
    forall i | 0 <= i < |s| ensures s[i] != '_' { assert IsSpace(s[i]); }
  }

  lemma TokenIsParsed(key: Key, sp: Spaces)
    requires WellFormed(key) && Proper(sp)
    ensures KeyOf(Token(key, sp)) == Some(key)
  {
    var before, after := sp.beforeId + key.id + sp.afterId, sp.beforeSecret + key.secret;
    SpaceIsNoUnderscore(sp.beforeId);
    SpaceIsNoUnderscore(sp.afterId);
    CutAt(before, after);
    TrimPast(sp.beforeId, key.id, sp.afterId);
    TrimPast(sp.beforeSecret, key.secret, "");
    assert after + "" == after;
    assert Token(key, sp)[|TOKEN_PREFIX|..] == before + "_" + after;
  }

  lemma TokenIsTrimmed(key: Key, sp: Spaces)
    requires WellFormed(key)
    ensures Token(key, sp) != "" && Trimmed(Token(key, sp))
  {
    var token := Token(key, sp);
    assert token[|token| - 1] == key.secret[|key.secret| - 1] && token[0] == 'w';
  }

  lemma TokenIsFound(raw: string, start: string, scheme: string, space: string, token: string, end: string)
    requires IsScheme(scheme) && AllSpace(start) && AllSpace(space) && AllSpace(end) && token != "" && Trimmed(token)
    requires raw == start + (scheme + (space + token)) + end
    ensures TokenOf(raw) == Some(token)
  {
    var header := scheme + (space + token);
    assert AsciiLower(scheme[0]) == 'b';
    assert header[|header| - 1] == token[|token| - 1];
    TrimPast(start, header, end);
    assert header[..7] == scheme && header[7..] == space + token + "";
    TrimPast(space, token, "");
  }

  lemma HeaderIsParsed(scheme: string, key: Key, sp: Spaces)
    requires IsScheme(scheme) && WellFormed(key) && Proper(sp)
    ensures ParseBearerToken(Header(scheme, key, sp)) == Some(key)
  {
    TokenIsTrimmed(key, sp);
    TokenIsFound(Header(scheme, key, sp), sp.start, scheme, sp.afterScheme, Token(key, sp), sp.end);
    TokenIsParsed(key, sp);
  }

  lemma FoundToken(raw: string) returns (start: string, scheme: string, space: string, end: string)
    requires TokenOf(raw).Some?
    ensures IsScheme(scheme) && AllSpace(start) && AllSpace(space) && AllSpace(end) && Trimmed(TokenOf(raw).value)
    ensures raw == start + (scheme + (space + TokenOf(raw).value)) + end
  {
    var right, tokenEnd;
    start, right := TrimSpaceMeaning(raw);
    var header := TrimSpace(raw);
    scheme := header[..7];
    space, tokenEnd := TrimSpaceMeaning(header[7..]);
    end := tokenEnd + right;
    assert header == scheme + header[7..];
  }

  lemma ParsedToken(token: string) returns (sp: Spaces)
    requires KeyOf(token).Some? && Trimmed(token)
    ensures Proper(sp) && sp.start == "" && sp.afterScheme == "" && sp.end == ""
    ensures WellFormed(KeyOf(token).value) && token == Token(KeyOf(token).value, sp)
  {
    var body := token[|TOKEN_PREFIX|..];
    var (before, after) := Cut(body).value;
    var beforeId, afterId := TrimSpaceMeaning(before);
    var beforeSecret, secretEnd := TrimSpaceMeaning(after);
    sp := Spaces("", "", beforeId, afterId, beforeSecret, "");
    assert token == TOKEN_PREFIX + body;
  }

  lemma ParsedHasHeader(raw: string) returns (scheme: string, sp: Spaces)
    requires ParseBearerToken(raw).Some?
    ensures IsScheme(scheme) && Proper(sp) && WellFormed(ParseBearerToken(raw).value)
    ensures raw == Header(scheme, ParseBearerToken(raw).value, sp)
  {
    var start, space, end;
    start, scheme, space, end := FoundToken(raw);
    sp := ParsedToken(TokenOf(raw).value);
    sp := sp.(start := start, afterScheme := space, end := end);
  }

  /** What the parser accepts, and with which result: exactly the headers above. */
  lemma AcceptsExactlyTheHeaders(raw: string, key: Key)
    ensures ParseBearerToken(raw) == Some(key) <==>
            WellFormed(key) && exists scheme, sp :: IsScheme(scheme) && Proper(sp) && raw == Header(scheme, key, sp)
  {
    if ParseBearerToken(raw) == Some(key) {
      var scheme, sp := ParsedHasHeader(raw);
      assert IsScheme(scheme) && Proper(sp) && raw == Header(scheme, key, sp);
    }
    if WellFormed(key) && exists scheme, sp :: IsScheme(scheme) && Proper(sp) && raw == Header(scheme, key, sp) {
      var scheme, sp :| IsScheme(scheme) && Proper(sp) && raw == Header(scheme, key, sp);
      HeaderIsParsed(scheme, key, sp);
    }
  }

  /** Printing and parsing: a key comes back exactly when it is well formed. */
  lemma RoundTripExactlyWhen(key: Key)
    ensures ParseBearerToken(Printed(key)) == Some(key) <==> WellFormed(key)
  {
    if WellFormed(key) {
      var none := Spaces("", "", "", "", "", "");
      assert Printed(key) == Header("Bearer ", key, none);
      HeaderIsParsed("Bearer ", key, none);
    } else if ParseBearerToken(Printed(key)) == Some(key) {
      var _, _ := ParsedHasHeader(Printed(key));
    }
  }

  /** Parsing and printing: whatever is accepted, its parse prints to a form with the same
      parse. */
  lemma ReprintedParsesTheSame(raw: string)
    requires ParseBearerToken(raw).Some?
    ensures ParseBearerToken(Printed(ParseBearerToken(raw).value)) == ParseBearerToken(raw)
  {
    var _, _ := ParsedHasHeader(raw);
    RoundTripExactlyWhen(ParseBearerToken(raw).value);
  }
}
