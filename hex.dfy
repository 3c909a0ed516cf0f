/** The secret and API-key encoder of the admin pages:
    `Array.from(bytes).map(b => b.toString(16).padStart(2, "0")).join("")`.
    The random bytes come from the browser's generator and are an input here. */
module HexEncoding {
  import opened JsValues

  type Byte = x: int | 0 <= x < 256

  const Digits: string := "0123456789abcdef"

  /** The lowercase hexadecimal digit for `d`. */
  function HexDigit(d: int): (c: char)
    requires 0 <= d < 16
    ensures IsHexDigit(c)
  {
    Digits[d]
  }

  predicate IsHexDigit(c: char)
  {
    '0' <= c <= '9' || 'a' <= c <= 'f'
  }

  /** `n.toString(16)`: base-16 digits, most significant first, no leading
      zeros (zero itself is "0"). */
  function ToRadix16(n: nat): (s: string)
    ensures 1 <= |s|
    ensures forall i :: 0 <= i < |s| ==> IsHexDigit(s[i])
    decreases n
  {
    if n < 16 then [HexDigit(n)] else ToRadix16(n / 16) + [HexDigit(n % 16)]
  }

  /** `s.padStart(width, fill)` for a one-character fill string. */
  function PadStart(s: string, width: nat, fill: char): (r: string)
    ensures |r| == if |s| >= width then |s| else width
    ensures r[|r| - |s|..] == s
    ensures forall i :: 0 <= i < |r| - |s| ==> r[i] == fill
  {
    if |s| >= width then s else seq(width - |s|, _ => fill) + s
  }

  /** One byte as the source writes it: `b.toString(16).padStart(2, "0")`.
      It is always exactly two digits, high nibble first, zero-padded, and
      reads back as the byte. */
  function ByteToHex(b: Byte): (h: string)
    ensures h == [HexDigit(b / 16), HexDigit(b % 16)]
    ensures DecodeHex(h) == Some([b])
  {
    var digits := ToRadix16(b);
    if b < 16 then
      assert digits == [HexDigit(b)];
      assert HexDigit(0) == '0';
      var h := PadStart(digits, 2, '0');
      assert h == [HexDigit(b / 16), HexDigit(b % 16)] + "";
      DecodeByte(h, "", b, []);
      assert [b] + [] == [b];
      h
    else
      assert b / 16 < 16;
      assert ToRadix16(b / 16) == [HexDigit(b / 16)];
      var h := PadStart(digits, 2, '0');
      assert h == [HexDigit(b / 16), HexDigit(b % 16)] + "";
      DecodeByte(h, "", b, []);
      assert [b] + [] == [b];
      h
  }

  /** The bytes mapped to their two-digit forms and joined with "". */
  function EncodeHex(bytes: seq<Byte>): (s: string)
    ensures |s| == 2 * |bytes|
    ensures forall i :: 0 <= i < |s| ==> IsHexDigit(s[i])
  {
    if bytes == [] then ""
    else
      ByteToHex(bytes[0]) + EncodeHex(bytes[1..])
  }

  /** The first byte's two digits come first, then the rest of the encoding. */
  lemma EncodeHexCons(bytes: seq<Byte>)
    requires |bytes| > 0
    ensures EncodeHex(bytes) == [HexDigit(bytes[0] / 16), HexDigit(bytes[0] % 16)] + EncodeHex(bytes[1..])
  {
  }

  // ---------------------------------------------------------------------
  // the inverse: reading a key back into bytes

  /** The value of a lowercase hexadecimal digit. */
  function DigitValue(c: char): (d: Option<int>)
    ensures d.Some? <==> IsHexDigit(c)
    ensures d.Some? ==> 0 <= d.value < 16 && HexDigit(d.value) == c
  {
    if '0' <= c <= '9' then Some(c as int - '0' as int)
    else if 'a' <= c <= 'f' then Some(c as int - 'a' as int + 10)
    else None
  }

  lemma DigitValueOfHexDigit(d: int)
    requires 0 <= d < 16
    ensures DigitValue(HexDigit(d)) == Some(d)
  {
  }

  /** Reads a string of digit pairs back into bytes; `None` for an odd length
      or a character outside `[0-9a-f]`. */
  function DecodeHex(s: string): (r: Option<seq<Byte>>)
    ensures r.Some? ==> 2 * |r.value| == |s|
    decreases |s|
  {
    if s == [] then Some([])
    else if |s| == 1 then None
    else
      var hi := DigitValue(s[0]);
      var lo := DigitValue(s[1]);
      var rest := DecodeHex(s[2..]);
      if hi.Some? && lo.Some? && rest.Some? then Some([hi.value * 16 + lo.value] + rest.value)
      else None
  }

  /** A byte is its high nibble times 16 plus its low nibble. */
  lemma NibblesRecombine(b: Byte)
    ensures 0 <= b / 16 < 16 && 0 <= b % 16 < 16
    ensures (b / 16) * 16 + b % 16 == b
  {
  }

  /** Two digits in front of a decodable rest read back as one more byte. */
  lemma DecodeStep(s: string, t: string, hi: int, lo: int, b: Byte, rest: seq<Byte>)
    requires 0 <= hi < 16 && 0 <= lo < 16 && hi * 16 + lo == b
    requires s == [HexDigit(hi), HexDigit(lo)] + t
    requires DecodeHex(t) == Some(rest)
    ensures DecodeHex(s) == Some([b] + rest)
  {
    DigitValueOfHexDigit(hi);
    DigitValueOfHexDigit(lo);
    assert DigitValue(s[0]) == Some(hi) && DigitValue(s[1]) == Some(lo);
    assert s[2..] == t;
    assert DecodeHex(s) == Some([hi * 16 + lo] + rest);
    assert [hi * 16 + lo] + rest == [b] + rest;
  }

  /** A byte's two digits in front of a decodable rest read back as that byte. */
  lemma DecodeByte(s: string, t: string, b: Byte, rest: seq<Byte>)
    requires s == [HexDigit(b / 16), HexDigit(b % 16)] + t
    requires DecodeHex(t) == Some(rest)
    ensures DecodeHex(s) == Some([b] + rest)
  {
    NibblesRecombine(b);
    DecodeStep(s, t, b / 16, b % 16, b, rest);
  }

  /** Decoding undoes encoding: no information is lost. */
  lemma {:induction false} DecodeEncode(bytes: seq<Byte>)
    ensures DecodeHex(EncodeHex(bytes)) == Some(bytes)
    decreases |bytes|
  {
    if bytes != [] {
      EncodeHexCons(bytes);
      DecodeEncode(bytes[1..]);
      DecodeByte(EncodeHex(bytes), EncodeHex(bytes[1..]), bytes[0], bytes[1..]);
      assert [bytes[0]] + bytes[1..] == bytes;
    }
  }

  /** Distinct byte strings give distinct keys. */
  lemma EncodeHexInjective(a: seq<Byte>, b: seq<Byte>)
    requires EncodeHex(a) == EncodeHex(b)
    ensures a == b
  {
    DecodeEncode(a);
    DecodeEncode(b);
  }
}
