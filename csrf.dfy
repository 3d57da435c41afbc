/** The CSRF token helpers of lib/csrf.ts: a token is the lower-case hex encoding
    of 32 random bytes, kept in the `csrf_token` cookie. */
module Csrf {
  import opened Common

  newtype byte = x: int | 0 <= x < 256

  /** The byte count passed to `randomBytes`. */
  const TokenBytes := 32

  /** A character of `[0-9a-f]`. */
  predicate IsHexDigit(c: char) {
    '0' <= c <= '9' || 'a' <= c <= 'f'
  }

  function HexDigit(n: nat): (c: char)
    requires n < 16
    ensures IsHexDigit(c)
  {
    if n < 10 then ('0' as int + n) as char else ('a' as int + n - 10) as char
  }

  function HexValue(c: char): (v: nat)
    requires IsHexDigit(c)
    ensures v < 16 && HexDigit(v) == c
  {
    if c <= '9' then c as int - '0' as int else c as int - 'a' as int + 10
  }

  /** `Buffer.toString("hex")`: two lower-case digits per byte, high half first. */
  function HexEncode(b: seq<byte>): (s: string)
    ensures |s| == 2 * |b|
    ensures forall i | 0 <= i < |s| :: IsHexDigit(s[i])
  {
    if b == [] then []
    else [HexDigit(b[0] as int / 16), HexDigit(b[0] as int % 16)] + HexEncode(b[1..])
  }

  /** Reads back an even-length string of lower-case hex digits. */
  function HexDecode(s: string): Option<seq<byte>>
    decreases |s|
  {
    if s == [] then Some([])
    else if |s| < 2 || !IsHexDigit(s[0]) || !IsHexDigit(s[1]) then None
    else
      match HexDecode(s[2..])
      case None => None
      case Some(rest) => Some([(HexValue(s[0]) * 16 + HexValue(s[1])) as byte] + rest)
  }

  lemma {:induction false} HexRoundTrip(b: seq<byte>)
    ensures HexDecode(HexEncode(b)) == Some(b)
  {
    if b != [] {
      var s := HexEncode(b);
      var hi, lo := b[0] as int / 16, b[0] as int % 16;
      assert s[2..] == HexEncode(b[1..]);
      HexRoundTrip(b[1..]);
      assert HexValue(s[0]) == hi && HexValue(s[1]) == lo;
      assert hi * 16 + lo == b[0] as int;
      assert b == [b[0]] + b[1..];
    }
  }

  /** Different random bytes give different tokens. */
  lemma HexEncodeInjective(a: seq<byte>, b: seq<byte>)
    requires HexEncode(a) == HexEncode(b)
    ensures a == b
  {
    HexRoundTrip(a);
    HexRoundTrip(b);
  }

  /** The cookie jar, reduced to the `csrf_token` cookie. */
  class CsrfCookies {
    var csrfToken: Option<string>

    constructor ()
      ensures csrfToken == None
    {
      csrfToken := None;
    }

    /** `generateCsrfToken`, given the output of `randomBytes(32)`. */
    method GenerateCsrfToken(random: seq<byte>) returns (token: string)
      requires |random| == TokenBytes
      modifies this
      ensures token == HexEncode(random)
      ensures |token| == 2 * TokenBytes && forall i | 0 <= i < |token| :: IsHexDigit(token[i])
      ensures csrfToken == Some(token)
      ensures VerifyCsrfToken(token)
    {
      token := HexEncode(random);
      csrfToken := Some(token);
    }

    /** `verifyCsrfToken`: false without a non-empty cookie, otherwise an exact comparison. */
    function VerifyCsrfToken(token: string): (ok: bool)
      reads this
      ensures csrfToken.None? || csrfToken == Some("") ==> !ok
      ensures csrfToken.Some? && csrfToken.value != "" ==> (ok <==> token == csrfToken.value)
    {
      if csrfToken.None? || csrfToken.value == "" then false else token == csrfToken.value
    }
  }
}
