/**
 * Reading a compact JSON Web Token on the client: its payload segment is
 * base64url-decoded and parsed, without any signature check, to obtain the
 * user it names and the time it expires.
 */
module TokenCodec {
  import opened Wrappers
  import Strings

  /**
   * The payload fields the client reads, as JavaScript sees them after
   * parsing: `None` where the property is missing (`undefined`) or `null`.
   * `exp` is the number the property coerces to under `*`; `None` when that
   * coercion gives NaN (a missing property, a non-numeric string), `Some(0)`
   * for a JSON `null`.
   */
  datatype Payload = Payload(userId: Option<int>, username: Option<string>, role: Option<string>, exp: Option<int>)

  /**
   * What `JSON.parse` produced: `null`, on which reading a property throws, or
   * any other value, read through its properties (a number, string or array
   * reads as a payload whose properties are all missing).
   */
  datatype Parsed = ParsedNull | ParsedValue(fields: Payload)

  /** The identity taken from a token. The role is copied unchecked. */
  datatype User = User(userId: Option<int>, username: Option<string>, role: Option<string>)

  /**
   * The browser decoders the token helpers call, each `None` where it throws:
   * `atob` (base64 to a binary string), `decodeURIComponent` and `JSON.parse`.
   */
  datatype Codec = Codec(
    atob: string -> Option<string>,
    decodeUriComponent: string -> Option<string>,
    jsonParse: string -> Option<Parsed>)

  /**
   * `token.split('.')[1]`: the text between the first dot and the next dot
   * (or the end); `None` (JavaScript's `undefined`) when there is no dot.
   */
  function PayloadSegment(token: string): (seg: Option<string>)
    ensures seg.None? <==> '.' !in token
    ensures seg.Some? ==>
      var start := Strings.IndexOf(token, '.') + 1;
      var end := start + |seg.value|;
      end <= |token| && token[start..end] == seg.value &&
      '.' !in seg.value && (end == |token| || token[end] == '.')
  {
    var parts := Strings.Split(token, '.');
    if |parts| > 1 then
      Strings.SecondPiece(token, '.');
      Some(parts[1])
    else None
  }

  /**
   * The base64url alphabet turned into the base64 one: every `-` becomes `+`,
   * every `_` becomes `/`, and nothing else changes.
   */
  function Base64UrlToBase64(seg: string): (b: string)
    ensures |b| == |seg|
    ensures forall i :: 0 <= i < |seg| ==>
      b[i] == (if seg[i] == '-' then '+' else if seg[i] == '_' then '/' else seg[i])
  {
    Strings.ReplaceAll(Strings.ReplaceAll(seg, '-', '+'), '_', '/')
  }

  /** A lower-case hexadecimal digit, as `Number.prototype.toString(16)` writes it. */
  function HexDigit(d: nat): char
    requires d < 16
  {
    if d < 10 then ('0' as int + d) as char else ('a' as int + d - 10) as char
  }

  predicate IsHexDigit(h: char) {
    '0' <= h <= '9' || 'a' <= h <= 'f'
  }

  function HexValue(h: char): nat
    requires IsHexDigit(h)
  {
    if h <= '9' then h as int - '0' as int else h as int - 'a' as int + 10
  }

  lemma HexDigitValue(d: nat)
    requires d < 16
    ensures IsHexDigit(HexDigit(d)) && HexValue(HexDigit(d)) == d
  {
  }

  /** The last two hexadecimal digits of a code are its value modulo 256. */
  lemma LastTwoHexDigits(code: nat)
    ensures (code / 16 % 16) * 16 + code % 16 == code % 256
  {
    var q, r := code / 16, code % 16;
    var b, a := q / 16, q % 16;
    assert code == 16 * q + r;
    assert q == 16 * b + a;
    assert code == 256 * b + (16 * a + r);
    assert 0 <= 16 * a + r < 256;
    assert code / 256 == b;
  }

  /**
   * `'%' + ('00' + c.charCodeAt(0).toString(16)).slice(-2)`: a percent sign and
   * the last two hexadecimal digits of the character code, that is the code
   * modulo 256.
   */
  function EscapeChar(c: char): (e: string)
    ensures |e| == 3 && e[0] == '%' && IsHexDigit(e[1]) && IsHexDigit(e[2])
    ensures HexValue(e[1]) * 16 + HexValue(e[2]) == (c as int) % 256
  {
    var code := c as int;
    HexDigitValue(code / 16 % 16);
    HexDigitValue(code % 16);
    LastTwoHexDigits(code);
    ['%', HexDigit(code / 16 % 16), HexDigit(code % 16)]
  }

  /**
   * `bin.split('').map(escape).join('')`: three characters per input
   * character, the `i`-th triple escaping the `i`-th character.
   */
  function PercentEscape(bin: string): (r: string)
    ensures |r| == 3 * |bin|
    ensures forall i :: 0 <= i < |bin| ==> r[3 * i..3 * i + 3] == EscapeChar(bin[i])
  {
    if bin == [] then []
    else
      var tail := PercentEscape(bin[1..]);
      var r := EscapeChar(bin[0]) + tail;
      assert forall i :: 1 <= i < |bin| ==> r[3 * i..3 * i + 3] == tail[3 * (i - 1)..3 * (i - 1) + 3];
      r
  }

  /** The payload as `parseJWT` reads it: base64 decoding, then UTF-8 decoding, then JSON parsing. */
  function UserPayload(codec: Codec, token: string): (r: Option<Parsed>)
    ensures PayloadSegment(token).None? ==> r.None?
    ensures r.Some? ==>
      var bin := codec.atob(Base64UrlToBase64(PayloadSegment(token).value));
      bin.Some? && codec.decodeUriComponent(PercentEscape(bin.value)).Some?
  {
    match PayloadSegment(token)
    case None => None
    case Some(seg) =>
      match codec.atob(Base64UrlToBase64(seg))
      case None => None
      case Some(bin) =>
        match codec.decodeUriComponent(PercentEscape(bin))
        case None => None
        case Some(text) => codec.jsonParse(text)
  }

  /** The payload as `isTokenExpired` reads it: base64 decoding, then JSON parsing, with no UTF-8 step. */
  function ExpiryPayload(codec: Codec, token: string): (r: Option<Parsed>)
    ensures PayloadSegment(token).None? ==> r.None?
    ensures r.Some? ==> codec.atob(Base64UrlToBase64(PayloadSegment(token).value)).Some?
  {
    match PayloadSegment(token)
    case None => None
    case Some(seg) =>
      match codec.atob(Base64UrlToBase64(seg))
      case None => None
      case Some(bin) => codec.jsonParse(bin)
  }

  /**
   * `parseJWT`: the user named by the token's payload, or `None` when any
   * step fails (no payload segment, bad base64, bad UTF-8, bad JSON, or a
   * JSON `null`). It never fails otherwise; in particular a payload without
   * the fields still yields a user whose fields are missing.
   */
  function ParseJwt(codec: Codec, token: string): (u: Option<User>)
    ensures '.' !in token ==> u.None?
    ensures u.Some? <==> exists p :: UserPayload(codec, token) == Some(ParsedValue(p))
    ensures u.Some? ==> var p := UserPayload(codec, token).value.fields;
      u.value.userId == p.userId && u.value.username == p.username && u.value.role == p.role
  {
    match UserPayload(codec, token)
    case Some(ParsedValue(p)) => Some(User(p.userId, p.username, p.role))
    case _ => None
  }

  /**
   * `isTokenExpired` at wall-clock time `now` (milliseconds): true when the
   * payload cannot be read (fail-safe), and otherwise exactly when
   * `exp * 1000 < now`. An `exp` that coerces to NaN compares false, so such a
   * token counts as not expired.
   */
  function IsTokenExpired(codec: Codec, token: string, now: int): (expired: bool)
    ensures '.' !in token ==> expired
    ensures ExpiryPayload(codec, token).None? ==> expired
    ensures ExpiryPayload(codec, token) == Some(ParsedNull) ==> expired
    ensures (forall p :: ExpiryPayload(codec, token) == Some(ParsedValue(p)) ==>
      (expired <==> p.exp.Some? && p.exp.value * 1000 < now))
  {
    match ExpiryPayload(codec, token)
    case Some(ParsedValue(p)) => p.exp.Some? && p.exp.value * 1000 < now
    case _ => true
  }

  lemma {:induction false} ExpiryIsMonotoneInTime(codec: Codec, token: string, now: int, later: int)
    requires now <= later
    requires IsTokenExpired(codec, token, now)
    ensures IsTokenExpired(codec, token, later)
  {
  }

  /** A payload without a numeric `exp` never expires, however late the clock. */
  lemma MissingExpiryNeverExpires(codec: Codec, token: string, p: Payload, now: int)
    requires ExpiryPayload(codec, token) == Some(ParsedValue(p))
    requires p.exp.None?
    ensures !IsTokenExpired(codec, token, now)
  {
  }

  /**
   * A token whose payload `isTokenExpired` cannot read (no segment, bad
   * base64, bad JSON or a JSON `null`) is reported expired.
   */
  lemma UnreadableTokenFailsSafe(codec: Codec, token: string, now: int)
    requires PayloadSegment(token).None?
      || codec.atob(Base64UrlToBase64(PayloadSegment(token).value)).None?
      || codec.jsonParse(codec.atob(Base64UrlToBase64(PayloadSegment(token).value)).value) in {None, Some(ParsedNull)}
    ensures IsTokenExpired(codec, token, now)
  {
  }

  /** A token whose payload `parseJWT` cannot read yields no user. */
  lemma UndecodableUserPayloadHasNoUser(codec: Codec, token: string)
    requires PayloadSegment(token).Some?
    requires var bin := codec.atob(Base64UrlToBase64(PayloadSegment(token).value));
      bin.None? || codec.decodeUriComponent(PercentEscape(bin.value)).None?
      || codec.jsonParse(codec.decodeUriComponent(PercentEscape(bin.value)).value) in {None, Some(ParsedNull)}
    ensures ParseJwt(codec, token).None?
  {
  }
}
