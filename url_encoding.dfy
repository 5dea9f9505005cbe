/**
 * The form-style URL codec the password-reset flow applies to the reset code
 * (HttpUtility.UrlEncode / HttpUtility.UrlDecode): letters, digits and
 * - _ . ! * ( ) stay as they are, a space becomes '+', every other character
 * becomes its UTF-8 bytes as %hh with lowercase hex digits. The decoder turns
 * each %hh escape into one character on its own: a byte below 0x80 is that
 * ASCII character, any other byte is U+FFFD, so a multi-byte UTF-8 sequence
 * is not reassembled into the character it encodes. The round trip is proved
 * for ASCII text, which is what the reset codes are.
 */
module UrlEncoding {
  import opened Common

  type Byte = b: int | 0 <= b < 256

  const HexDigits: string := "0123456789abcdef"

  /** Characters the encoder leaves alone. */
  predicate IsUrlSafe(c: char)
  {
    ('a' <= c <= 'z') || ('A' <= c <= 'Z') || ('0' <= c <= '9')
    || c == '-' || c == '_' || c == '.' || c == '!' || c == '*' || c == '(' || c == ')'
  }

  /** UTF-8 bytes of one Unicode scalar value. */
  function Utf8(c: char): (bytes: seq<Byte>)
    ensures 1 <= |bytes| <= 4
    ensures (c as int < 0x80) == (|bytes| == 1)
  {
    var v := c as int;
    if v < 0x80 then [v]
    else if v < 0x800 then [0xC0 + v / 64, 0x80 + v % 64]
    else if v < 0x10000 then [0xE0 + v / 4096, 0x80 + (v / 64) % 64, 0x80 + v % 64]
    else [0xF0 + v / 262144, 0x80 + (v / 4096) % 64, 0x80 + (v / 64) % 64, 0x80 + v % 64]
  }

  function Escape(b: Byte): string
  {
    ['%', HexDigits[b / 16], HexDigits[b % 16]]
  }

  function EscapeAll(bytes: seq<Byte>): string
  {
    if bytes == [] then "" else Escape(bytes[0]) + EscapeAll(bytes[1..])
  }

  function EncodeChar(c: char): string
  {
    if c == ' ' then "+"
    else if IsUrlSafe(c) then [c]
    else EscapeAll(Utf8(c))
  }

  function UrlEncode(s: string): string
  {
    if s == [] then "" else EncodeChar(s[0]) + UrlEncode(s[1..])
  }

  // ---------------------------------------------------------------------------
  // Decoding.

  predicate IsHex(c: char)
  {
    ('0' <= c <= '9') || ('a' <= c <= 'f') || ('A' <= c <= 'F')
  }

  function HexValue(c: char): (v: nat)
    requires IsHex(c)
    ensures v < 16
  {
    if '0' <= c <= '9' then c as int - '0' as int
    else if 'a' <= c <= 'f' then c as int - 'a' as int + 10
    else c as int - 'A' as int + 10
  }

  const ReplacementChar: char := 0xFFFD as char

  /** A decoded %hh byte: an ASCII byte is that character; a byte of a
      multi-byte UTF-8 sequence is taken as an invalid sequence. */
  function ByteChar(b: Byte): char
  {
    if b < 0x80 then b as char else ReplacementChar
  }

  /** A decoded %uXXXX escape: the UTF-16 code unit as a character, a lone
      surrogate as U+FFFD. */
  function CodeUnitChar(u: nat): char
    requires u < 0x10000
  {
    if 0xD800 <= u < 0xE000 then ReplacementChar else u as char
  }

  /** '+' is a space, %hh a byte, %uXXXX a UTF-16 unit, anything else itself
      (including a '%' not followed by a valid escape). */
  function UrlDecode(s: string): string
    decreases |s|
  {
    if s == [] then ""
    else if s[0] == '+' then " " + UrlDecode(s[1..])
    else if s[0] == '%' && |s| >= 6 && s[1] == 'u'
         && IsHex(s[2]) && IsHex(s[3]) && IsHex(s[4]) && IsHex(s[5]) then
      var u := 4096 * HexValue(s[2]) + 256 * HexValue(s[3]) + 16 * HexValue(s[4]) + HexValue(s[5]);
      [CodeUnitChar(u)] + UrlDecode(s[6..])
    else if s[0] == '%' && |s| >= 3 && IsHex(s[1]) && IsHex(s[2]) then
      [ByteChar(16 * HexValue(s[1]) + HexValue(s[2]))] + UrlDecode(s[3..])
    else [s[0]] + UrlDecode(s[1..])
  }

  // ---------------------------------------------------------------------------
  // Properties.

  predicate IsAscii(s: string)
  {
    forall i | 0 <= i < |s| :: s[i] as int < 0x80
  }

  /** An encoded character is URL safe, a '+' or a '%'. */
  predicate IsEncodedChar(c: char)
  {
    IsUrlSafe(c) || c == '+' || c == '%'
  }

  lemma {:induction false} EscapeAllChars(bytes: seq<Byte>)
    ensures forall i | 0 <= i < |EscapeAll(bytes)| :: IsEncodedChar(EscapeAll(bytes)[i])
  {
    if bytes != [] {
      EscapeAllChars(bytes[1..]);
      var e := Escape(bytes[0]);
      assert forall i | 0 <= i < |e| :: IsEncodedChar(e[i]);
    }
  }

  /** The encoder's output never contains a character that would end the
      query value ('&', '=', '#', ' ', '?', '/'), only safe characters, '+' and '%'. */
  lemma {:induction false} EncodedChars(s: string)
    ensures forall i | 0 <= i < |UrlEncode(s)| :: IsEncodedChar(UrlEncode(s)[i])
  {
    if s != [] {
      EncodedChars(s[1..]);
      EscapeAllChars(Utf8(s[0]));
    }
  }

  lemma HexRoundTrip(b: Byte)
    ensures IsHex(HexDigits[b / 16]) && IsHex(HexDigits[b % 16])
    ensures 16 * HexValue(HexDigits[b / 16]) + HexValue(HexDigits[b % 16]) == b
  {
    forall d | 0 <= d < 16
      ensures IsHex(HexDigits[d]) && HexValue(HexDigits[d]) == d
    {
    }
  }

  /** A %hh escape of a byte decodes to that byte. */
  lemma DecodeEscape(b: Byte, rest: string)
    ensures UrlDecode(Escape(b) + rest) == [ByteChar(b)] + UrlDecode(rest)
  {
    var e := Escape(b) + rest;
    HexRoundTrip(b);
    assert e[0] == '%' && e[1] == HexDigits[b / 16] && e[2] == HexDigits[b % 16];
    assert e[1] != 'u';
    assert e[3..] == rest;
  }

  /** Decoding one encoded ASCII character yields that character and leaves
      the rest of the input to the remaining decode. */
  lemma DecodeEncodedChar(c: char, rest: string)
    requires c as int < 0x80
    ensures UrlDecode(EncodeChar(c) + rest) == [c] + UrlDecode(rest)
  {
    var e := EncodeChar(c) + rest;
    if c == ' ' {
      assert e[0] == '+' && e[1..] == rest;
    } else if IsUrlSafe(c) {
      assert e[0] == c && e[1..] == rest;
    } else {
      var b: Byte := c as int;
      assert Utf8(c) == [b];
      assert EscapeAll(Utf8(c)) == Escape(b);
      DecodeEscape(b, rest);
    }
  }

  /** Encoding then decoding an ASCII string gives it back. */
  lemma {:induction false} UrlRoundTrip(s: string)
    requires IsAscii(s)
    ensures UrlDecode(UrlEncode(s)) == s
  {
    if s != [] {
      DecodeEncodedChar(s[0], UrlEncode(s[1..]));
      UrlRoundTrip(s[1..]);
      assert s == [s[0]] + s[1..];
    }
  }
}
