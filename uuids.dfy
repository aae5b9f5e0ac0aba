/**
 * Identifiers of QR-code records: 128-bit UUIDs, their canonical
 * text form (the form `format!("{}", id)` writes) and the parser that
 * reads that form back from a query string.
 */
module Uuids {
  import opened Wrappers

  newtype byte = b: int | 0 <= b < 0x100

  /** A UUID is sixteen bytes. */
  type Uuid = s: seq<byte> | |s| == 16 witness [0, 0, 0, 0, 0, 0, 0, 0, 0, 0, 0, 0, 0, 0, 0, 0]

  predicate IsLowerHexDigit(c: char) {
    ('0' <= c <= '9') || ('a' <= c <= 'f')
  }

  /** The lower-case hexadecimal digit for a nibble. */
  function HexDigit(n: int): (c: char)
    requires 0 <= n < 16
    ensures IsLowerHexDigit(c)
  {
    if n < 10 then ('0' as int + n) as char else ('a' as int + n - 10) as char
  }

  /** The value of a hexadecimal digit; both cases are accepted, as the UUID parser does. */
  function DigitValue(c: char): (v: Option<int>)
    ensures v.Some? ==> 0 <= v.value < 16
    ensures v.Some? <==> ('0' <= c <= '9') || ('a' <= c <= 'f') || ('A' <= c <= 'F')
  {
    if '0' <= c <= '9' then Some(c as int - '0' as int)
    else if 'a' <= c <= 'f' then Some(c as int - 'a' as int + 10)
    else if 'A' <= c <= 'F' then Some(c as int - 'A' as int + 10)
    else None
  }

  lemma DigitValueOfHexDigit(n: int)
    requires 0 <= n < 16
    ensures DigitValue(HexDigit(n)) == Some(n)
  {
  }

  /** Two lower-case hexadecimal digits per byte, most significant nibble first. */
  function Hex(bytes: seq<byte>): (s: string)
    ensures |s| == 2 * |bytes|
    ensures forall i | 0 <= i < |s| :: IsLowerHexDigit(s[i])
  {
    if bytes == [] then ""
    else [HexDigit(bytes[0] as int / 16), HexDigit(bytes[0] as int % 16)] + Hex(bytes[1..])
  }

  /** Reads pairs of hexadecimal digits back into bytes; fails on an odd length or a non-digit. */
  function ParseHex(s: string): (r: Option<seq<byte>>)
    ensures r.Some? ==> |s| == 2 * |r.value|
    decreases |s|
  {
    if s == [] then Some([])
    else if |s| < 2 then None
    else match (DigitValue(s[0]), DigitValue(s[1]), ParseHex(s[2..]))
      case (Some(hi), Some(lo), Some(rest)) => Some([(hi * 16 + lo) as byte] + rest)
      case _ => None
  }

  lemma {:induction false} ParseHexRoundTrip(bytes: seq<byte>)
    ensures ParseHex(Hex(bytes)) == Some(bytes)
  {
    if bytes != [] {
      var b := bytes[0] as int;
      var s := Hex(bytes);
      assert s[2..] == Hex(bytes[1..]);
      DigitValueOfHexDigit(b / 16);
      DigitValueOfHexDigit(b % 16);
      ParseHexRoundTrip(bytes[1..]);
      assert [(b / 16 * 16 + b % 16) as byte] + bytes[1..] == bytes;
    }
  }

  /**
   * The hyphenated text form of a UUID: 8-4-4-4-12 lower-case hexadecimal
   * digits, 36 characters in all.
   */
  function Hyphenated(u: Uuid): (s: string)
    ensures |s| == 36
    ensures s[8] == '-' && s[13] == '-' && s[18] == '-' && s[23] == '-'
    ensures forall i | 0 <= i < 36 && i != 8 && i != 13 && i != 18 && i != 23 :: IsLowerHexDigit(s[i])
  {
    Hex(u[..4]) + "-" + Hex(u[4..6]) + "-" + Hex(u[6..8]) + "-" + Hex(u[8..10]) + "-" + Hex(u[10..])
  }

  /** Reads the hyphenated form back; any other text is rejected. */
  function ParseHyphenated(s: string): (r: Option<Uuid>)
    ensures r.Some? ==> |s| == 36 && s[8] == '-' && s[13] == '-' && s[18] == '-' && s[23] == '-'
  {
    if |s| != 36 || s[8] != '-' || s[13] != '-' || s[18] != '-' || s[23] != '-' then None
    else match (ParseHex(s[..8]), ParseHex(s[9..13]), ParseHex(s[14..18]), ParseHex(s[19..23]), ParseHex(s[24..]))
      case (Some(a), Some(b), Some(c), Some(d), Some(e)) => Some(a + b + c + d + e)
      case _ => None
  }

  /** Reading back the text form of a UUID gives the same UUID. */
  lemma {:induction false} HyphenatedRoundTrip(u: Uuid)
    ensures ParseHyphenated(Hyphenated(u)) == Some(u)
  {
    var s := Hyphenated(u);
    assert s[..8] == Hex(u[..4]);
    assert s[9..13] == Hex(u[4..6]);
    assert s[14..18] == Hex(u[6..8]);
    assert s[19..23] == Hex(u[8..10]);
    assert s[24..] == Hex(u[10..]);
    ParseHexRoundTrip(u[..4]);
    ParseHexRoundTrip(u[4..6]);
    ParseHexRoundTrip(u[6..8]);
    ParseHexRoundTrip(u[8..10]);
    ParseHexRoundTrip(u[10..]);
    assert u[..4] + u[4..6] + u[6..8] + u[8..10] + u[10..] == u;
  }

  /** Distinct UUIDs have distinct text forms. */
  lemma HyphenatedInjective(u: Uuid, v: Uuid)
    ensures Hyphenated(u) == Hyphenated(v) ==> u == v
  {
    HyphenatedRoundTrip(u);
    HyphenatedRoundTrip(v);
  }
}
