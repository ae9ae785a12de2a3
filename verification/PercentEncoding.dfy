/** `percent_encode_file_name` (src/client/mod.rs) against the decoding of
    section 2.1 of RFC 3986. */
module PercentEncoding {
  import opened Protocol

  type Byte = n: int | 0 <= n < 256
  type Nibble = n: int | 0 <= n < 16

  const HEX := "0123456789ABCDEF"

  /** ALPHA / DIGIT / "-" / "." / "_" / "~" (section 2.3 of RFC 3986) */
  predicate Unreserved(c: char) {
    'A' <= c <= 'Z' || 'a' <= c <= 'z' || '0' <= c <= '9' || c == '-' || c == '.' || c == '_' || c == '~'
  }

  const UPPER := "ABCDEFGHIJKLMNOPQRSTUVWXYZ"
  const LOWER := "abcdefghijklmnopqrstuvwxyz"
  const DIGITS := "0123456789"
  const MARKS := "-._~"

  predicate IsUnreserved(c: char) {
    c in UPPER || c in LOWER || c in DIGITS || c in MARKS
  }

  lemma UpperIs(c: char)
    ensures c in UPPER <==> 'A' <= c <= 'Z'
  {
    if 'A' <= c <= 'Z' { assert UPPER[c as int - 'A' as int] == c; }
  }

  lemma LowerIs(c: char)
    ensures c in LOWER <==> 'a' <= c <= 'z'
  {
    if 'a' <= c <= 'z' { assert LOWER[c as int - 'a' as int] == c; }
  }

  lemma DigitIs(c: char)
    ensures c in DIGITS <==> '0' <= c <= '9'
  {
    if '0' <= c <= '9' { assert DIGITS[c as int - '0' as int] == c; }
  }

  /** The ranges of the code are the 66 characters. */
  lemma RangesAreUnreserved(c: char)
    ensures Unreserved(c) <==> IsUnreserved(c)
  {
    UpperIs(c);
    LowerIs(c);
    DigitIs(c);
    hide UPPER, LOWER, DIGITS;
  }

  /** Exactly the unreserved characters are written as they are; every other byte becomes
      a percent sign and its two hexadecimal digits. */
  lemma EachByte(bytes: seq<Byte>, b: Byte)
    ensures Encode([b] + bytes) ==
            (if IsUnreserved(b as char) then [b as char] else ['%', HEX[b / 16], HEX[b % 16]]) + Encode(bytes)
  {
    RangesAreUnreserved(b as char);
    EncodeCons(b, bytes);
  }

  function EncodeByte(b: Byte): string {
    if Unreserved(b as char) then [b as char] else ['%', HEX[b / 16], HEX[b % 16]]
  }

  function Encode(bytes: seq<Byte>): string {
    if bytes == [] then [] else EncodeByte(bytes[0]) + Encode(bytes[1..])
  }

  lemma NextByte(done: string, bytes: seq<Byte>)
    requires bytes != []
    ensures done + EncodeByte(bytes[0]) + Encode(bytes[1..]) == done + Encode(bytes)
  {
  }

  method PercentEncodeFileName(fileName: seq<Byte>) returns (encoded: string)
    ensures encoded == Encode(fileName)
  {
    encoded := [];
    for i := 0 to |fileName|
      invariant encoded + Encode(fileName[i..]) == Encode(fileName)
    {
      var byte := fileName[i];
      ghost var before := encoded;
      if Unreserved(byte as char) {
        encoded := encoded + [byte as char];
      } else {
        encoded := encoded + ['%'];
        encoded := encoded + [HEX[byte / 16]];
        encoded := encoded + [HEX[byte % 16]];
      }
      assert encoded == before + EncodeByte(byte);
      assert fileName[i..][1..] == fileName[i + 1..];
      NextByte(before, fileName[i..]);
    }
  }

  /** A HEXDIG; decoders accept both cases. */
  function HexValue(c: char): Option<Nibble> {
    if '0' <= c <= '9' then Some(c as int - '0' as int)
    else if 'A' <= c <= 'F' then Some(c as int - 'A' as int + 10)
    else if 'a' <= c <= 'f' then Some(c as int - 'a' as int + 10)
    else None
  }

  /** Triplets become their octet, other ASCII characters stand for themselves. */
  function Decode(text: string): Option<seq<Byte>> {
    if text == [] then Some([])
    else if text[0] == '%' then
      if |text| < 3 || HexValue(text[1]).None? || HexValue(text[2]).None? then None
      else
        var rest := Decode(text[3..]);
        if rest.None? then None else Some([16 * HexValue(text[1]).value + HexValue(text[2]).value] + rest.value)
    else if text[0] as int >= 256 then None
    else
      var rest := Decode(text[1..]);
      if rest.None? then None else Some([text[0] as int] + rest.value)
  }

  lemma HexRoundTrip(n: Nibble)
    ensures HexValue(HEX[n]) == Some(n) && UpperHex(HEX[n])
  {
  }

  lemma DecodeTriplet(high: char, low: char, rest: string)
    requires HexValue(high).Some? && HexValue(low).Some? && Decode(rest).Some?
    ensures Decode(['%', high, low] + rest) ==
              Some([16 * HexValue(high).value + HexValue(low).value] + Decode(rest).value)
  {
    assert (['%', high, low] + rest)[3..] == rest;
  }

  lemma DecodeOne(b: Byte, rest: string)
    requires Decode(rest).Some?
    ensures Decode(EncodeByte(b) + rest) == Some([b] + Decode(rest).value)
  {
    if Unreserved(b as char) {
      assert ([b as char] + rest)[1..] == rest;
    } else {
      HexRoundTrip(b / 16);
      HexRoundTrip(b % 16);
      DecodeTriplet(HEX[b / 16], HEX[b % 16], rest);
      assert 16 * (b / 16) + b % 16 == b;
    }
  }

  /** Decoding inverts encoding, on every byte string. */
  lemma {:induction false} DecodeEncode(bytes: seq<Byte>)
    ensures Decode(Encode(bytes)) == Some(bytes)
  {
    if bytes != [] {
      DecodeEncode(bytes[1..]);
      DecodeOne(bytes[0], Encode(bytes[1..]));
      assert [bytes[0]] + bytes[1..] == bytes;
    }
  }

  lemma EncodeIsInjective(a: seq<Byte>, b: seq<Byte>)
    requires Encode(a) == Encode(b)
    ensures a == b
  {
    DecodeEncode(a);
    DecodeEncode(b);
  }

  predicate UpperHex(c: char) {
    '0' <= c <= '9' || 'A' <= c <= 'F'
  }

  /** The canonical spelling: unreserved characters plain, all else in upper-case triplets. */
  predicate Canonical(text: string) {
    text == [] ||
    (Unreserved(text[0]) && Canonical(text[1..])) ||
    (text[0] == '%' && |text| >= 3 && UpperHex(text[1]) && UpperHex(text[2]) &&
     !Unreserved((16 * HexDigit(text[1]) + HexDigit(text[2])) as char) && Canonical(text[3..]))
  }

  function HexDigit(c: char): Nibble {
    if HexValue(c).Some? then HexValue(c).value else 0
  }

  lemma CanonicalOne(b: Byte, rest: string)
    requires Canonical(rest)
    ensures Canonical(EncodeByte(b) + rest)
  {
    var text := EncodeByte(b) + rest;
    if Unreserved(b as char) {
      assert text[1..] == rest;
    } else {
      HexRoundTrip(b / 16);
      HexRoundTrip(b % 16);
      assert text[0] == '%' && text[1] == HEX[b / 16] && text[2] == HEX[b % 16] && text[3..] == rest;
    }
  }

  /** Every output is canonical, and its length is between n and 3n. */
  lemma {:induction false} EncodeIsCanonical(bytes: seq<Byte>)
    ensures Canonical(Encode(bytes)) && |bytes| <= |Encode(bytes)| <= 3 * |bytes|
  {
    if bytes != [] {
      EncodeIsCanonical(bytes[1..]);
      CanonicalOne(bytes[0], Encode(bytes[1..]));
    }
  }

  lemma HexIndex(c: char)
    requires UpperHex(c)
    ensures HexValue(c).Some? && HEX[HexDigit(c)] == c
  {
  }

  lemma TripletIs(text: string)
    requires |text| >= 3 && text[0] == '%' && UpperHex(text[1]) && UpperHex(text[2])
    requires !Unreserved((16 * HexDigit(text[1]) + HexDigit(text[2])) as char)
    ensures text == EncodeByte(16 * HexDigit(text[1]) + HexDigit(text[2])) + text[3..]
  {
    HexIndex(text[1]);
    HexIndex(text[2]);
    var b := 16 * HexDigit(text[1]) + HexDigit(text[2]);
    assert b / 16 == HexDigit(text[1]) && b % 16 == HexDigit(text[2]);
    assert text == text[..3] + text[3..];
    assert text[..3] == [text[0], text[1], text[2]];
  }

  lemma EncodeCons(b: Byte, bytes: seq<Byte>)
    ensures Encode([b] + bytes) == EncodeByte(b) + Encode(bytes)
  {
    assert ([b] + bytes)[1..] == bytes;
  }

  /** What is left to show of a text whose rest is an output. */
  predicate IsOutput(text: string) {
    Decode(text).Some? && Encode(Decode(text).value) == text
  }

  lemma PlainFirst(text: string)
    requires text != [] && Unreserved(text[0]) && IsOutput(text[1..])
    ensures IsOutput(text)
  {
    EncodeCons(text[0] as int, Decode(text[1..]).value);
    assert text == [text[0]] + text[1..];
  }

  lemma TripletFirst(text: string)
    requires |text| >= 3 && text[0] == '%' && UpperHex(text[1]) && UpperHex(text[2])
    requires !Unreserved((16 * HexDigit(text[1]) + HexDigit(text[2])) as char) && IsOutput(text[3..])
    ensures IsOutput(text)
  {
    hide EncodeByte, HexValue, Unreserved;
    TripletIs(text);
    HexIndex(text[1]);
    HexIndex(text[2]);
    EncodeCons(16 * HexDigit(text[1]) + HexDigit(text[2]), Decode(text[3..]).value);
  }

  /** And every canonical text is an output: it decodes, and encoding the result gives it back. */
  lemma {:induction false} EncodeDecode(text: string)
    requires Canonical(text)
    ensures Decode(text).Some? && Encode(Decode(text).value) == text
  {
    if text != [] {
      if Unreserved(text[0]) {
        EncodeDecode(text[1..]);
        PlainFirst(text);
      } else {
        EncodeDecode(text[3..]);
        TripletFirst(text);
      }
    }
  }
}
