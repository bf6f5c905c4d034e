/** Bytes and their hexadecimal text form as Node.js handles it:
    `buf.toString('hex')` writes two lower-case digits per byte, and
    `Buffer.from(s, 'hex')` reads digit pairs of either case, silently stopping
    at the first pair that is not hexadecimal (and ignoring an odd last digit)
    instead of raising an error. */
module Hex {
  import opened Wrappers

  type Byte = b: int | 0 <= b < 256

  /** The lower-case hexadecimal digit for `n`. */
  function HexDigit(n: int): char
    requires 0 <= n < 16
  {
    if n < 10 then ('0' as int + n) as char else ('a' as int + n - 10) as char
  }

  /** The value of a hexadecimal digit of either case, None for any other character. */
  function HexValue(c: char): (r: Option<nat>)
    ensures r.Some? ==> r.value < 16
  {
    if '0' <= c <= '9' then Some(c as int - '0' as int)
    else if 'a' <= c <= 'f' then Some(c as int - 'a' as int + 10)
    else if 'A' <= c <= 'F' then Some(c as int - 'A' as int + 10)
    else None
  }

  predicate IsHexChar(c: char) {
    HexValue(c).Some?
  }

  /** Every character of `s` is a hexadecimal digit. */
  predicate IsHex(s: string) {
    forall i :: 0 <= i < |s| ==> IsHexChar(s[i])
  }

  /** `buf.toString('hex')`: two digits per byte, high nibble first. */
  function HexEncode(bs: seq<Byte>): (s: string)
    ensures |s| == 2 * |bs|
    ensures IsHex(s)
  {
    if |bs| == 0 then ""
    else [HexDigit(bs[0] / 16), HexDigit(bs[0] % 16)] + HexEncode(bs[1..])
  }

  /** `Buffer.from(s, 'hex')`: one byte per leading pair of hexadecimal digits,
      up to the first pair that is not one. It never fails. */
  function HexDecode(s: string): (bs: seq<Byte>)
    ensures |bs| <= |s| / 2
  {
    if |s| < 2 then []
    else match (HexValue(s[0]), HexValue(s[1]))
      case (Some(hi), Some(lo)) => [hi * 16 + lo] + HexDecode(s[2..])
      case _ => []
  }

  /** Decoding the hex form of some bytes gives back exactly those bytes. */
  lemma {:induction false} HexRoundTrip(bs: seq<Byte>)
    ensures HexDecode(HexEncode(bs)) == bs
  {
    if |bs| > 0 {
      var s := HexEncode(bs);
      assert s[2..] == HexEncode(bs[1..]);
      HexRoundTrip(bs[1..]);
      assert bs == [bs[0] / 16 * 16 + bs[0] % 16] + bs[1..];
    }
  }

  /** A string of an even number of hexadecimal digits decodes to half as many
      bytes: nothing is dropped. */
  lemma {:induction false} HexDecodeLength(s: string)
    requires IsHex(s) && |s| % 2 == 0
    ensures |HexDecode(s)| == |s| / 2
    decreases |s|
  {
    if |s| >= 2 {
      assert IsHexChar(s[0]) && IsHexChar(s[1]);
      HexDecodeLength(s[2..]);
    }
  }

  /** A string whose first character is not a hexadecimal digit decodes to no
      bytes at all, however long it is. */
  lemma HexDecodeStopsAtFirstBadPair(s: string)
    requires |s| >= 1 && !IsHexChar(s[0])
    ensures HexDecode(s) == []
  {
  }
}
