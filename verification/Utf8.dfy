/** UTF-8 as section 3 of RFC 3629 defines it, for Unicode scalar values. */
module Utf8 {
  import opened Bytes

  /** The one to four octets that encode a character. */
  function Encode(c: char): (r: seq<byte>)
    ensures 1 <= |r| <= 4
  {
    var n := c as int;
    if n < 0x80 then [n]
    else if n < 0x800 then [0xC0 + n / 0x40, 0x80 + n % 0x40]
    else if n < 0x1_0000 then [0xE0 + n / 0x1000, 0x80 + n / 0x40 % 0x40, 0x80 + n % 0x40]
    else [0xF0 + n / 0x4_0000, 0x80 + n / 0x1000 % 0x40, 0x80 + n / 0x40 % 0x40, 0x80 + n % 0x40]
  }

  function EncodeText(text: string): seq<byte> {
    if text == [] then [] else Encode(text[0]) + EncodeText(text[1..])
  }

  /** The number an octet sequence stands for: the low bits of its first octet, then six bits of each other one. */
  function Value(r: seq<byte>): int
    requires |r| > 0
  {
    if |r| == 1 then
      if r[0] < 0x80 then r[0] else if r[0] < 0xE0 then r[0] % 0x20 else if r[0] < 0xF0 then r[0] % 0x10 else r[0] % 8
    else
      Value(r[..|r| - 1]) * 0x40 + r[|r| - 1] % 0x40
  }

  /** The number of octets that the first one of a sequence announces, if it can be a first one. */
  function Announced(lead: byte): nat {
    if lead < 0x80 then 1 else if lead < 0xC0 then 0 else if lead < 0xE0 then 2 else if lead < 0xF0 then 3 else 4
  }

  /** The least number that needs this many octets. */
  function Least(length: nat): nat {
    if length <= 1 then 0 else if length == 2 then 0x80 else if length == 3 then 0x800 else 0x1_0000
  }

  /** What a further octet adds. */
  lemma ValueGrows(r: seq<byte>, n: nat, last: byte)
    requires |r| > 0 && Value(r) == n / 0x40 && last == 0x80 + n % 0x40
    ensures Value(r + [last]) == n
  {
    assert (r + [last])[..|r|] == r;
    assert last % 0x40 == n % 0x40;
  }

  lemma Shifts(n: nat)
    ensures n / 0x40 / 0x40 == n / 0x1000 && n / 0x1000 / 0x40 == n / 0x4_0000
  {
  }

  lemma ValueOfTwo(a: byte, b: byte, n: nat)
    requires Value([a]) == n / 0x40 && b == 0x80 + n % 0x40
    ensures Value([a, b]) == n
  {
    ValueGrows([a], n, b);
    assert [a, b] == [a] + [b];
  }

  lemma ValueOfThree(a: byte, b: byte, c: byte, n: nat)
    requires Value([a]) == n / 0x1000 && b == 0x80 + n / 0x40 % 0x40 && c == 0x80 + n % 0x40
    ensures Value([a, b, c]) == n
  {
    hide Value;
    Shifts(n);
    ValueOfTwo(a, b, n / 0x40);
    ValueGrows([a, b], n, c);
    assert [a, b, c] == [a, b] + [c];
  }

  lemma ValueOfFour(a: byte, b: byte, c: byte, d: byte, n: nat)
    requires Value([a]) == n / 0x4_0000 && b == 0x80 + n / 0x1000 % 0x40
    requires c == 0x80 + n / 0x40 % 0x40 && d == 0x80 + n % 0x40
    ensures Value([a, b, c, d]) == n
  {
    hide Value;
    Shifts(n);
    Shifts(n / 0x40);
    ValueOfThree(a, b, c, n / 0x40);
    ValueGrows([a, b, c], n, d);
    assert [a, b, c, d] == [a, b, c] + [d];
  }

  lemma LeadValue(lead: byte)
    ensures lead < 0x80 ==> Value([lead]) == lead
    ensures 0xC0 <= lead < 0xE0 ==> Value([lead]) == lead - 0xC0
    ensures 0xE0 <= lead < 0xF0 ==> Value([lead]) == lead - 0xE0
    ensures 0xF0 <= lead < 0xF8 ==> Value([lead]) == lead - 0xF0
  {
  }

  lemma ValueOfEncode(c: char)
    ensures Value(Encode(c)) == c as int
  {
    hide Value;
    var r, n := Encode(c), c as int;
    LeadValue(r[0]);
    if |r| == 2 {
      ValueOfTwo(r[0], r[1], n);
    } else if |r| == 3 {
      ValueOfThree(r[0], r[1], r[2], n);
    } else if |r| == 4 {
      ValueOfFour(r[0], r[1], r[2], r[3], n);
    }
  }

  /** A sequence of octets is read without looking at what follows it: its first octet says how long it is, the others
    * are marked as continuations, it stands for the character, and no shorter sequence could. */
  lemma EncodeReadsBack(c: char)
    ensures var r := Encode(c);
      && Announced(r[0]) == |r|
      && (forall i :: 1 <= i < |r| ==> 0x80 <= r[i] < 0xC0)
      && Value(r) == c as int
      && Least(|r|) <= c as int
  {
    hide Value;
    ValueOfEncode(c);
  }
}
