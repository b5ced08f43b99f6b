/** The streaming SHA-256 digest as `hashlib` exposes it: a hasher object
    that absorbs blocks through `update` and renders `hexdigest()`.

    The compression function itself (FIPS 180-4) is NOT modelled: it is the
    parameter `hash`, an arbitrary function from messages to raw digests.
    What the model does fix is everything around it: that a hasher's result
    depends only on the concatenation of what it absorbed, and that
    `hexdigest()` renders the raw digest in lower-case hexadecimal. */
module Digest {
  import opened Base

  predicate IsLowerHexDigit(c: char) {
    ('0' <= c <= '9') || ('a' <= c <= 'f')
  }

  /** The lower-case hex digit of a nibble value. */
  function HexDigit(v: int): (c: char)
    requires 0 <= v < 16
    ensures IsLowerHexDigit(c)
  {
    if v < 10 then ('0' as int + v) as char else ('a' as int + v - 10) as char
  }

  /** The two lower-case hex digits of one byte, high nibble first. */
  function HexByte(b: Byte): (s: string)
    ensures |s| == 2 && IsLowerHexDigit(s[0]) && IsLowerHexDigit(s[1])
  {
    [HexDigit((b as int) / 16), HexDigit((b as int) % 16)]
  }

  /** `bytes.hex()` / `hexdigest()`: two lower-case digits per byte. */
  function Hex(bs: Bytes): (s: string)
    ensures |s| == 2 * |bs|
    ensures forall i :: 0 <= i < |s| ==> IsLowerHexDigit(s[i])
  {
    if bs == [] then "" else HexByte(bs[0]) + Hex(bs[1..])
  }

  /** The value of one hex digit, of either case; zero for any other character. */
  function DigitValue(c: char): (v: int)
    ensures 0 <= v < 16
  {
    if '0' <= c <= '9' then c as int - '0' as int
    else if 'a' <= c <= 'f' then c as int - 'a' as int + 10
    else if 'A' <= c <= 'F' then c as int - 'A' as int + 10
    else 0
  }

  /** `bytes.fromhex`, on an even-length string. */
  function Unhex(s: string): (bs: Bytes)
    requires |s| % 2 == 0
    ensures |bs| == |s| / 2
  {
    if s == [] then []
    else [(DigitValue(s[0]) * 16 + DigitValue(s[1])) as Byte] + Unhex(s[2..])
  }

  lemma DigitValueOfHexDigit(v: int)
    requires 0 <= v < 16
    ensures DigitValue(HexDigit(v)) == v
  {
  }

  lemma HexByteRoundTrip(b: Byte)
    ensures DigitValue(HexByte(b)[0]) * 16 + DigitValue(HexByte(b)[1]) == b as int
  {
    var n := b as int;
    var hi, lo := n / 16, n % 16;
    DigitValueOfHexDigit(hi);
    DigitValueOfHexDigit(lo);
    assert HexByte(b) == [HexDigit(hi), HexDigit(lo)];
  }

  /** Decoding a hex rendering gives back the raw digest, so two hex digests
      are equal exactly when the raw digests are. */
  lemma {:induction false} UnhexHex(bs: Bytes)
    ensures Unhex(Hex(bs)) == bs
  {
    if bs != [] {
      HexByteRoundTrip(bs[0]);
      assert (bs[0] as int) as Byte == bs[0];
      UnhexHex(bs[1..]);
      assert Hex(bs)[2..] == Hex(bs[1..]);
    }
  }

  lemma HexInjective(a: Bytes, b: Bytes)
    ensures Hex(a) == Hex(b) <==> a == b
  {
    if Hex(a) == Hex(b) {
      UnhexHex(a);
      UnhexHex(b);
    }
  }

  /** ASCII upper-casing (`str.upper()` on a hex string). */
  function ToUpper(s: string): (u: string)
    ensures |u| == |s|
    ensures forall i :: 0 <= i < |s| ==>
      u[i] == (if 'a' <= s[i] <= 'z' then (s[i] as int - 32) as char else s[i])
  {
    if s == [] then "" else
      [if 'a' <= s[0] <= 'z' then (s[0] as int - 32) as char else s[0]] + ToUpper(s[1..])
  }

  /** A hex digest that contains a letter is not equal to its upper-case
      spelling, so an exact string comparison tells them apart. */
  lemma UpperDiffers(s: string, i: int)
    requires 0 <= i < |s| && 'a' <= s[i] <= 'f'
    ensures ToUpper(s) != s
  {
    assert ToUpper(s)[i] != s[i];
  }

  /** The state of a `hashlib.sha256()` object: the message absorbed so far. */
  datatype Hasher = Hasher(absorbed: Bytes) {

    /** `digest.update(block)`. */
    function Update(block: Bytes): (h: Hasher)
      ensures h.absorbed == absorbed + block
    {
      Hasher(absorbed + block)
    }

    /** `digest.hexdigest()` under the compression function `hash`. */
    function HexDigest(hash: Bytes -> Bytes): string {
      Hex(hash(absorbed))
    }
  }

  /** `hashlib.sha256()`: a hasher that has absorbed nothing. */
  function NewHasher(): (h: Hasher)
    ensures h.absorbed == []
  {
    Hasher([])
  }

  /** The hex SHA-256 of a whole message, as a one-shot call
      (`hashlib.sha256(m).hexdigest()`, or `sha256(buffer)` of js-sha256). */
  function Sha256Hex(hash: Bytes -> Bytes, m: Bytes): string {
    Hex(hash(m))
  }
}
