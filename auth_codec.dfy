/** The pure half of `src/utils/auth.ts`: the bearer header value, the
    button-level permission check, and the path from a JWT (RFC 7519) to the
    expiry instant of the session. */
module AuthCodec {
  import opened Wrappers
  import opened Js
  import opened JsText

  // ---------------------------------------------------------------------
  // formatToken
  // ---------------------------------------------------------------------

  /** The `Authorization` header value for a token: the bearer scheme
      marker, one space, then the token itself. */
  function FormatToken(token: string): (r: string)
    ensures |r| == |token| + 7
    ensures r[..7] == "Bearer " && r[7..] == token
  {
    "Bearer " + token
  }

  /** Distinct tokens give distinct header values. */
  lemma FormatTokenInjective(a: string, b: string)
    ensures FormatToken(a) == FormatToken(b) ==> a == b
  {
  }

  // ---------------------------------------------------------------------
  // hasPerms
  // ---------------------------------------------------------------------

  /** What a caller asks for: nothing (`null`/`undefined`), one permission
      string, or a list of permissions that must all be held. */
  datatype PermRequest = Absent | One(perm: string) | AllOf(perms: seq<string>)

  /** `!value`: an absent request or the empty string. A list, even an
      empty one, is truthy. */
  predicate IsFalsy(value: PermRequest) {
    value.Absent? || value == One("")
  }

  /** The permissions a truthy request names. */
  function Requested(value: PermRequest): seq<string> {
    match value
    case Absent => []
    case One(p) => [p]
    case AllOf(ps) => ps
  }

  /** The single permission that grants everything, when it is the only one held. */
  const AllPerms: string := "*:*:*"

  /** `isIncludeAllChildren(children, perms)`: every child is held. */
  function IncludesAll(children: seq<string>, perms: seq<string>): (r: bool)
    ensures r <==> forall i :: 0 <= i < |children| ==> children[i] in perms
  {
    if children == [] then true
    else children[0] in perms && IncludesAll(children[1..], perms)
  }

  /** `hasPerms(value)` against the session's permission list
      (`None` when the store has none at all). */
  function HasPerms(value: PermRequest, permissions: Option<seq<string>>): (r: bool)
    ensures IsFalsy(value) || permissions.None? ==> !r
    ensures !IsFalsy(value) && permissions == Some([AllPerms]) ==> r
    ensures !IsFalsy(value) && permissions.Some? && permissions.value != [AllPerms] ==>
              (r <==> forall p :: p in Requested(value) ==> p in permissions.value)
  {
    if IsFalsy(value) then false
    else if permissions.None? then false
    else
      var held := permissions.value;
      if |held| == 1 && held[0] == AllPerms then true
      else match value
        case One(p) => p in held
        case AllOf(ps) => IncludesAll(ps, held)
  }

  /** A list request is the conjunction of its members asked one by one:
      AND semantics, not OR. */
  lemma HasPermsListIsConjunction(ps: seq<string>, held: seq<string>)
    requires forall i :: 0 <= i < |ps| ==> ps[i] != ""
    ensures HasPerms(AllOf(ps), Some(held)) <==>
              forall i :: 0 <= i < |ps| ==> HasPerms(One(ps[i]), Some(held))
  {
  }

  /** Holding more never loses a permission, except that the wildcard
      only works while it is the one permission held. */
  lemma HasPermsMonotone(value: PermRequest, held: seq<string>, more: seq<string>)
    requires held != [AllPerms]
    requires forall p :: p in held ==> p in more
    ensures HasPerms(value, Some(held)) ==> HasPerms(value, Some(more))
  {
  }

  /** The wildcard next to any other permission is an ordinary string:
      held with anything else, it grants only what is held literally. */
  lemma WildcardMustBeAlone(value: PermRequest, held: seq<string>)
    requires AllPerms in held && held != [AllPerms]
    ensures HasPerms(value, Some(held)) <==>
              !IsFalsy(value) && forall p :: p in Requested(value) ==> p in held
  {
  }

  // ---------------------------------------------------------------------
  // normalizeBase64 (section 5 of RFC 4648 back to section 4)
  // ---------------------------------------------------------------------

  function UrlToStd(ch: char): char {
    if ch == '-' then '+' else if ch == '_' then '/' else ch
  }

  /** The padding that brings a length up to a multiple of four; a length
      of 1 modulo 4 cannot be base64 and gets none. */
  function Padding(n: nat): string {
    if n % 4 == 2 then "==" else if n % 4 == 3 then "=" else ""
  }

  /** Base64url text to the standard alphabet, padded with `=`. */
  function NormalizeBase64(value: string): (r: string)
    ensures |r| == |value| + |Padding(|value|)|
    ensures forall i :: 0 <= i < |value| ==> r[i] == UrlToStd(value[i])
    ensures r[|value|..] == Padding(|value|)
    ensures '-' !in r && '_' !in r
    ensures |value| % 4 != 1 ==> |r| % 4 == 0
  {
    var translated := seq(|value|, i requires 0 <= i < |value| => UrlToStd(value[i]));
    translated + Padding(|translated|)
  }

  predicate IsStdBase64Char(ch: char) {
    ('A' <= ch <= 'Z') || ('a' <= ch <= 'z') || ('0' <= ch <= '9') || ch == '+' || ch == '/'
  }

  predicate IsUrlBase64Char(ch: char) {
    ('A' <= ch <= 'Z') || ('a' <= ch <= 'z') || ('0' <= ch <= '9') || ch == '-' || ch == '_'
  }

  /** The number of `=` characters ending `s`. */
  function PadCount(s: string): (k: nat)
    ensures k <= |s|
    ensures forall i :: |s| - k <= i < |s| ==> s[i] == '='
    ensures k < |s| ==> s[|s| - 1 - k] != '='
  {
    if |s| > 0 && s[|s| - 1] == '=' then 1 + PadCount(s[..|s| - 1]) else 0
  }

  /** Padded standard base64 (section 4 of RFC 4648): whole quanta, at
      most two `=`, and only alphabet characters before them. */
  predicate IsCanonicalBase64(s: string) {
    && |s| % 4 == 0
    && PadCount(s) <= 2
    && forall i :: 0 <= i < |s| - PadCount(s) ==> IsStdBase64Char(s[i])
  }

  function StdToUrl(ch: char): char {
    if ch == '+' then '-' else if ch == '/' then '_' else ch
  }

  /** How a JWT carries base64: the url-safe alphabet with the padding
      removed (sections 2 and 3 of RFC 7515). */
  function ToBase64Url(s: string): string
  {
    var body := s[..|s| - PadCount(s)];
    seq(|body|, i requires 0 <= i < |body| => StdToUrl(body[i]))
  }

  /** Normalising undoes the url-safe encoding of any padded base64 text. */
  lemma NormalizeInvertsBase64Url(s: string)
    requires IsCanonicalBase64(s)
    ensures NormalizeBase64(ToBase64Url(s)) == s
  {
    var p := PadCount(s);
    var n := |s| - p;
    var u := ToBase64Url(s);
    var r := NormalizeBase64(u);
    assert |u| == n;
    assert |u| % 4 == (if p == 0 then 0 else if p == 1 then 3 else 2);
    assert r[n..] == s[n..];
    assert r[..n] == s[..n];
    assert r == r[..n] + r[n..] && s == s[..n] + s[n..];
  }

  /** A padless base64url text of a possible length normalises to padded
      standard base64 whose padding is exactly the padding added. */
  lemma NormalizeIsCanonical(value: string)
    requires forall i :: 0 <= i < |value| ==> IsUrlBase64Char(value[i])
    requires |value| % 4 != 1
    ensures IsCanonicalBase64(NormalizeBase64(value))
    ensures PadCount(NormalizeBase64(value)) == |Padding(|value|)|
  {
    var r := NormalizeBase64(value);
    var k := |Padding(|value|)|;
    assert forall i :: 0 <= i < |value| ==> r[i] != '=' && IsStdBase64Char(r[i]);
    assert forall i :: |value| <= i < |r| ==> r[i] == '=';
    PadCountIs(r, k);
  }

  lemma {:induction false} PadCountIs(s: string, k: nat)
    requires k <= |s|
    requires forall i :: |s| - k <= i < |s| ==> s[i] == '='
    requires forall i :: 0 <= i < |s| - k ==> s[i] != '='
    ensures PadCount(s) == k
  {
    if k > 0 {
      PadCountIs(s[..|s| - 1], k - 1);
    } else if |s| > 0 {
      assert s[|s| - 1] != '=';
    }
  }

  // ---------------------------------------------------------------------
  // parseJwtPayload and getTokenExpiryFromJwt
  // ---------------------------------------------------------------------

  /** The payload segment of a token, decoded. `decode` stands for
      `atob` followed by `JSON.parse`; `None` is either of them throwing,
      which the source catches. */
  function ParseJwtPayload(token: string, decode: string -> Option<Value>): (r: Option<Value>)
    ensures token == "" || '.' !in token ==> r == None
    ensures token != "" && '.' in token ==> r == decode(NormalizeBase64(Split(token, '.')[1]))
  {
    SplitCount(token, '.');
    if token == "" then None
    else
      var parts := Split(token, '.');
      if |parts| < 2 then None
      else decode(NormalizeBase64(parts[1]))
  }

  /** The `exp` claim (section 4.1.4 of RFC 7519), in seconds, when the
      payload is an object holding a number under `exp`. */
  function ExpClaim(payload: Option<Value>): Option<int> {
    match payload
    case Some(Obj(props)) =>
      var exp: Option<Value> := Get(props, "exp");
      if exp.Some? && exp.value.Num? then Some(exp.value.n) else None
    case _ => None
  }

  /** One hour, in milliseconds. */
  const DefaultTokenTtl: int := 60 * 60 * 1000

  /** The expiry instant of a token in milliseconds since the epoch; `now`
      stands for `Date.now()`. */
  function GetTokenExpiryFromJwt(token: string, now: int, decode: string -> Option<Value>): (r: int)
    ensures ExpClaim(ParseJwtPayload(token, decode)).Some? ==>
              r == ExpClaim(ParseJwtPayload(token, decode)).value * 1000
    ensures ExpClaim(ParseJwtPayload(token, decode)).None? ==> r == now + DefaultTokenTtl
  {
    match ExpClaim(ParseJwtPayload(token, decode))
    case Some(e) => e * 1000
    case None => now + DefaultTokenTtl
  }

  /** A token with no payload segment falls back to one hour from now. */
  lemma ExpiryWithoutPayloadSegment(token: string, now: int, decode: string -> Option<Value>)
    requires '.' !in token
    ensures GetTokenExpiryFromJwt(token, now, decode) == now + DefaultTokenTtl
  {
  }

  /** A compact token `header.payload.signature` whose payload decodes to
      an object with a numeric `exp` expires at `exp` seconds. */
  lemma {:induction false} ExpiryOfCompactToken(header: string, payload: string, signature: string,
                                                now: int, decode: string -> Option<Value>,
                                                props: seq<(string, Value)>, e: int)
    requires '.' !in header && '.' !in payload && '.' !in signature
    requires decode(NormalizeBase64(payload)) == Some(Obj(props))
    requires Get(props, "exp") == Some(Num(e))
    ensures GetTokenExpiryFromJwt(header + "." + payload + "." + signature, now, decode) == e * 1000
  {
    var parts := [header, payload, signature];
    var token := header + "." + payload + "." + signature;
    assert Join(parts, ".") == token by {
      assert Join(parts[1..], ".") == payload + "." + signature;
    }
    SplitJoin(parts, '.');
    assert token[|header|] == '.';
  }

  /** A payload segment that does not decode also falls back. */
  lemma ExpiryOfUndecodablePayload(token: string, now: int, decode: string -> Option<Value>)
    requires '.' in token
    requires decode(NormalizeBase64(Split(token, '.')[1])) == None
    ensures GetTokenExpiryFromJwt(token, now, decode) == now + DefaultTokenTtl
  {
  }
}
