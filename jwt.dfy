/** Reading the claims of a JSON Web Token on the client: the token is split
    into its three dot-separated segments (the JWS compact serialization of
    section 7.1 of RFC 7515), the payload segment is turned from the base64url
    alphabet of section 5 of RFC 4648 into the standard one and padded, and
    the decoded JSON gives the claims. Nothing is verified: the signature
    segment is never looked at. */
module Jwt {
  import opened JsValue
  import Lists

  // ---------------------------------------------------------------------------
  // Segments

  /** `s.split(sep)` for a one-character separator. */
  function Split(s: string, sep: char): (parts: seq<string>)
    ensures |parts| >= 1
  {
    if |s| == 0 then [""]
    else
      var rest := Split(s[1..], sep);
      if s[0] == sep then [""] + rest else [[s[0]] + rest[0]] + rest[1..]
  }

  /** The number of times c occurs in s. */
  function Occurrences(s: string, c: char): nat {
    if |s| == 0 then 0 else (if s[0] == c then 1 else 0) + Occurrences(s[1..], c)
  }

  /** `parts.join(sep)` */
  function Join(parts: seq<string>, sep: char): string
    requires |parts| >= 1
  {
    if |parts| == 1 then parts[0] else parts[0] + [sep] + Join(parts[1..], sep)
  }

  /** Splitting gives one more part than there are separators, no part holds
      the separator, and joining the parts gives the string back. */
  lemma {:induction false} SplitJoin(s: string, sep: char)
    ensures |Split(s, sep)| == Occurrences(s, sep) + 1
    ensures forall k :: 0 <= k < |Split(s, sep)| ==> sep !in Split(s, sep)[k]
    ensures Join(Split(s, sep), sep) == s
    decreases |s|
  {
    if |s| > 0 {
      SplitJoin(s[1..], sep);
      var rest := Split(s[1..], sep);
      if s[0] == sep {
        assert Split(s, sep)[1..] == rest;
      } else {
        var parts := Split(s, sep);
        assert parts[0] == [s[0]] + rest[0];
        assert forall k :: 1 <= k < |parts| ==> parts[k] == rest[k];
        if |rest| > 1 {
          assert parts[1..] == rest[1..];
          assert Join(rest, sep) == rest[0] + [sep] + Join(rest[1..], sep);
        }
      }
    }
  }

  /** A token has the three segments of the compact form exactly when it
      holds two dots. */
  lemma ThreeSegmentsIffTwoDots(token: string)
    ensures |Split(token, '.')| == 3 <==> Occurrences(token, '.') == 2
  {
    SplitJoin(token, '.');
  }

  // ---------------------------------------------------------------------------
  // base64url to base64

  predicate IsAlphanumeric(c: char) {
    'A' <= c <= 'Z' || 'a' <= c <= 'z' || '0' <= c <= '9'
  }

  /** The base64url alphabet (RFC 4648, section 5). */
  predicate IsBase64UrlChar(c: char) {
    IsAlphanumeric(c) || c == '-' || c == '_'
  }

  /** The standard base64 alphabet (RFC 4648, section 4). */
  predicate IsBase64Char(c: char) {
    IsAlphanumeric(c) || c == '+' || c == '/'
  }

  function ToStandardChar(c: char): char {
    if c == '-' then '+' else if c == '_' then '/' else c
  }

  function ToUrlChar(c: char): char {
    if c == '+' then '-' else if c == '/' then '_' else c
  }

  /** `s.replace(/-/g, '+').replace(/_/g, '/')` */
  function ToStandardAlphabet(s: string): (r: string)
    ensures |r| == |s|
  {
    seq(|s|, i requires 0 <= i < |s| => ToStandardChar(s[i]))
  }

  /** The inverse swap, from the standard alphabet back to base64url. */
  function ToUrlAlphabet(s: string): (r: string)
    ensures |r| == |s|
  {
    seq(|s|, i requires 0 <= i < |s| => ToUrlChar(s[i]))
  }

  /** The swap takes every base64url string to a standard base64 string of
      the same length, leaves no '-' or '_' behind, and the inverse swap
      gives the segment back. */
  lemma AlphabetSwap(s: string)
    requires forall i :: 0 <= i < |s| ==> IsBase64UrlChar(s[i])
    ensures forall i :: 0 <= i < |s| ==> IsBase64Char(ToStandardAlphabet(s)[i])
    ensures '-' !in ToStandardAlphabet(s) && '_' !in ToStandardAlphabet(s)
    ensures ToUrlAlphabet(ToStandardAlphabet(s)) == s
  {
    var r := ToStandardAlphabet(s);
    forall i | 0 <= i < |r|
      ensures r[i] != '-' && r[i] != '_'
    {
      assert IsBase64UrlChar(s[i]);
    }
  }

  // ---------------------------------------------------------------------------
  // Padding

  function Repeat(c: char, n: nat): (r: string)
    ensures |r| == n
    ensures forall i :: 0 <= i < n ==> r[i] == c
  {
    if n == 0 then [] else [c] + Repeat(c, n - 1)
  }

  /** `s.padEnd(s.length + (4 - s.length % 4) % 4, '=')` */
  function Pad(s: string): string {
    s + Repeat('=', (4 - |s| % 4) % 4)
  }

  /** Padding appends at most three '=' and gives the least length that is
      a multiple of four and not shorter than the segment; a segment whose
      length is already a multiple of four is left alone. */
  lemma PadToMultipleOfFour(s: string)
    ensures |Pad(s)| % 4 == 0
    ensures Pad(s)[..|s|] == s
    ensures forall i :: |s| <= i < |Pad(s)| ==> Pad(s)[i] == '='
    ensures |s| <= |Pad(s)| < |s| + 4
    ensures |s| % 4 == 0 ==> Pad(s) == s
  {
    assert Pad(s)[..|s|] == s;
    if |s| % 4 == 0 {
      assert Repeat('=', 0) == [];
    }
  }

  // ---------------------------------------------------------------------------
  // Decoding

  /** The two library calls the decoder makes: `atob` (with `None` where it
      throws) and `JSON.parse` (the same). */
  datatype Decoder = Decoder(atob: string -> Option<string>, parse: string -> Option<Value>)

  /** `decodeJwt(token)`: `Null` where the code returns `null`. */
  function DecodeJwt(token: string, decoder: Decoder): Value {
    var parts := Split(token, '.');
    if |parts| != 3 then Null
    else
      match decoder.atob(Pad(ToStandardAlphabet(parts[1])))
      case None => Null
      case Some(text) =>
        (match decoder.parse(text)
         case None => Null
         case Some(payload) => payload)
  }

  /** A token without exactly two dots decodes to null, whatever its
      segments hold; with two dots, what is decoded is the middle segment,
      swapped and padded. */
  lemma DecodeNeedsThreeSegments(token: string, decoder: Decoder)
    ensures Occurrences(token, '.') != 2 ==> DecodeJwt(token, decoder) == Null
    ensures |Split(token, '.')| == 3 ==>
      var padded := Pad(ToStandardAlphabet(Split(token, '.')[1]));
      DecodeJwt(token, decoder) ==
        if decoder.atob(padded).None? || decoder.parse(decoder.atob(padded).value).None? then Null
        else decoder.parse(decoder.atob(padded).value).value
  {
    ThreeSegmentsIffTwoDots(token);
  }

  // ---------------------------------------------------------------------------
  // Claims

  /** `getUserIdFromToken` on the decoded payload: `parseInt(userId, 10)`,
      or nothing for a missing payload, a falsy id, or an id that does not
      start with a number. */
  function UserIdOf(payload: Value): Option<int> {
    if !Truthy(payload) || !Truthy(Get(payload, "userId")) then None
    else ParseInt(JsString(Get(payload, "userId")))
  }

  function GetUserIdFromToken(token: string, decoder: Decoder): Option<int> {
    UserIdOf(DecodeJwt(token, decoder))
  }

  /** An id claim written as a decimal string reads back as that number;
      without a payload or with a falsy id there is none. */
  lemma UserIdOfDecimal(payload: Value, id: int)
    requires Truthy(payload) && Get(payload, "userId") == Str(IntToDecimal(id))
    ensures UserIdOf(payload) == Some(id)
  {
    DecimalShape(id);
    ParseIntOfDecimal(id);
  }

  lemma UserIdOfMissing(payload: Value)
    ensures !Truthy(payload) || !Truthy(Get(payload, "userId")) ==> UserIdOf(payload) == None
    ensures Get(payload, "userId") == Str("") ==> UserIdOf(payload) == None
  {
  }

  /** `payload?.sub || null` */
  function UsernameOf(payload: Value): (r: Value)
    ensures Truthy(r) || r == Null
  {
    Or(Get(payload, "sub"), Null)
  }

  function GetUsernameFromToken(token: string, decoder: Decoder): Value {
    UsernameOf(DecodeJwt(token, decoder))
  }

  const DefaultRole := "USER"

  /** `getUserRoleFromToken` on the decoded payload: the first role, or
      'USER' when there is no payload or no roles. */
  function RoleOf(payload: Value): Value {
    var roles := Get(payload, "roles");
    if !Truthy(payload) || !Truthy(roles) || Get(roles, "length") == Num(0.0) then Str(DefaultRole)
    else First(roles)
  }

  function GetUserRoleFromToken(token: string, decoder: Decoder): Value {
    RoleOf(DecodeJwt(token, decoder))
  }

  /** With a list of roles the role is its first element, and 'USER' when
      the list is empty or the claim is missing. */
  lemma RoleOfList(payload: Value)
    requires Truthy(payload)
    ensures Get(payload, "roles").Arr? ==>
      var roles := Get(payload, "roles").items;
      RoleOf(payload) == if |roles| == 0 then Str(DefaultRole) else roles[0]
    ensures Nullish(Get(payload, "roles")) ==> RoleOf(payload) == Str(DefaultRole)
  {
  }

  /** `isTokenExpired` on the decoded payload at time `now` (milliseconds):
      expired without a payload or an `exp` claim, and otherwise when
      `now >= exp * 1000` (the claim counts seconds, section 4.1.4 of
      RFC 7519). A comparison with NaN is false. */
  function IsExpired(payload: Value, now: int): bool {
    var exp := Get(payload, "exp");
    if !Truthy(payload) || !Truthy(exp) then true
    else match JsNumber(exp)
      case Num(e) => now as real >= e * 1000.0
      case _ => false
  }

  function IsTokenExpired(token: string, decoder: Decoder, now: int): bool {
    IsExpired(DecodeJwt(token, decoder), now)
  }

  /** `Math.floor(x)` */
  function Floor(x: real): int {
    x.Floor
  }

  /** `getTokenRemainingTime` on the decoded payload: whole minutes left,
      `Math.max(0, Math.floor((exp * 1000 - now) / 60000))`, and 0 without
      a payload or an `exp` claim. */
  function RemainingMinutes(payload: Value, now: int): Value {
    var exp := Get(payload, "exp");
    if !Truthy(payload) || !Truthy(exp) then Num(0.0)
    else match JsNumber(exp)
      case Num(e) => Num(Lists.Max(0, Floor((e * 1000.0 - now as real) / 60000.0)) as real)
      case _ => NaN
  }

  function GetTokenRemainingTime(token: string, decoder: Decoder, now: int): Value {
    RemainingMinutes(DecodeJwt(token, decoder), now)
  }

  /** Without an `exp` claim a token is expired and has no time left. */
  lemma NoExpiryClaim(payload: Value, now: int)
    requires !Truthy(payload) || !Truthy(Get(payload, "exp"))
    ensures IsExpired(payload, now) && RemainingMinutes(payload, now) == Num(0.0)
  {
  }

  /** For a numeric `exp` the two readings agree: the minutes left are never
      negative, an expired token has none left, any whole minute left means
      the token is live, and a live token has the whole minutes up to its
      expiry left. */
  lemma ExpiryAgrees(payload: Value, now: int, exp: real)
    requires Truthy(payload) && Get(payload, "exp") == Num(exp) && exp != 0.0
    ensures IsExpired(payload, now) <==> now as real >= exp * 1000.0
    ensures RemainingMinutes(payload, now).Num? && RemainingMinutes(payload, now).n >= 0.0
    ensures IsExpired(payload, now) ==> RemainingMinutes(payload, now) == Num(0.0)
    ensures RemainingMinutes(payload, now).n > 0.0 ==> !IsExpired(payload, now)
    ensures !IsExpired(payload, now) ==>
      RemainingMinutes(payload, now) == Num(Floor((exp * 1000.0 - now as real) / 60000.0) as real)
  {
    var x := (exp * 1000.0 - now as real) / 60000.0;
    if now as real >= exp * 1000.0 {
      assert x <= 0.0;
      assert Floor(x) <= 0;
    } else {
      assert x > 0.0;
      assert Floor(x) >= 0;
    }
  }

  /** A truthy `exp` that is not a number (`"soon"`) makes the product NaN:
      such a token never counts as expired, and its remaining time is NaN. */
  lemma NonNumericExpiry(payload: Value, now: int, exp: string)
    requires Truthy(payload) && Get(payload, "exp") == Str(exp) && exp != ""
    requires StringToNumber(exp).NaN?
    ensures !IsExpired(payload, now)
    ensures RemainingMinutes(payload, now) == NaN
  {
  }
}
