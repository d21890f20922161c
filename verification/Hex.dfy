/** The hexadecimal text of keys and identifiers. */
module Hex {
  import opened Bytes

  const DIGITS := "0123456789abcdef"

  function HexOf(bytes: seq<byte>): string {
    if bytes == [] then "" else [DIGITS[bytes[0] / 16], DIGITS[bytes[0] % 16]] + HexOf(bytes[1..])
  }

  function DigitOf(c: char): Option<nat> {
    if '0' <= c <= '9' then Some(c as int - '0' as int)
    else if 'a' <= c <= 'f' then Some(c as int - 'a' as int + 10)
    else if 'A' <= c <= 'F' then Some(c as int - 'A' as int + 10)
    else None
  }

  /** `u8::from_str_radix` on two characters: two digits, or a plus sign and one digit. */
  function Pair(high: char, low: char): Option<byte> {
    var h, l := if high == '+' then Some(0) else DigitOf(high), DigitOf(low);
    if h.Some? && l.Some? && h.value < 16 && l.value < 16 then Some(h.value * 16 + l.value) else None
  }

  function Unhex(text: string): Option<seq<byte>> {
    if text == [] then Some([])
    else if |text| == 1 then None
    else
      var b, rest := Pair(text[0], text[1]), Unhex(text[2..]);
      if b.Some? && rest.Some? then Some([b.value] + rest.value) else None
  }

  lemma PairOfDigits(b: byte)
    ensures Pair(DIGITS[b / 16], DIGITS[b % 16]) == Some(b)
  {
    DigitOfDigit(b / 16);
    DigitOfDigit(b % 16);
  }

  lemma DigitOfDigit(d: nat)
    requires d < 16
    ensures DigitOf(DIGITS[d]) == Some(d) && DIGITS[d] != '+'
  {
  }

  /** Reading the text of a byte string gives it back, so no two byte strings share their text. */
  lemma {:induction false} UnhexHex(bytes: seq<byte>)
    ensures Unhex(HexOf(bytes)) == Some(bytes)
  {
    if bytes != [] {
      UnhexHex(bytes[1..]);
      PairOfDigits(bytes[0]);
      var text := HexOf(bytes);
      assert text[2..] == HexOf(bytes[1..]);
      assert text[0] == DIGITS[bytes[0] / 16] && text[1] == DIGITS[bytes[0] % 16];
      assert [bytes[0]] + bytes[1..] == bytes;
    }
  }

  lemma HexIsInjective(a: seq<byte>, b: seq<byte>)
    requires HexOf(a) == HexOf(b)
    ensures a == b
  {
    UnhexHex(a);
    UnhexHex(b);
  }

  /** Two lower-case digits for each byte, in order and with the high half first. */
  lemma {:induction false} HexAt(bytes: seq<byte>, i: nat)
    requires i < |bytes|
    ensures |HexOf(bytes)| == 2 * |bytes|
    ensures HexOf(bytes)[2 * i..2 * i + 2] == ["0123456789abcdef"[bytes[i] / 16], "0123456789abcdef"[bytes[i] % 16]]
  {
    var rest := HexOf(bytes[1..]);
    assert HexOf(bytes)[2..] == rest;
    if i > 0 {
      HexAt(bytes[1..], i - 1);
      assert HexOf(bytes)[2 * i..2 * i + 2] == rest[2 * (i - 1)..2 * (i - 1) + 2];
    } else if |bytes| > 1 {
      HexAt(bytes[1..], 0);
    }
  }
}
