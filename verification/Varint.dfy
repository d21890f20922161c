/** The channel prefix of a WebSocket message: an unsigned LEB128 integer of 64 bits. */
module Varint {
  import opened Bytes

  const U64: nat := 0x1_0000_0000_0000_0000
  const MAX_BYTES: nat := 10

  function Pow2(n: nat): (r: nat)
    ensures r > 0
  {
    if n == 0 then 1 else 2 * Pow2(n - 1)
  }

  /** Bitwise or of two naturals. */
  function Or(a: nat, b: nat): nat {
    if a == 0 then b
    else if b == 0 then a
    else 2 * Or(a / 2, b / 2) + (if a % 2 == 1 || b % 2 == 1 then 1 else 0)
  }

  /** A left shift in 64 bits: what is shifted out is lost. */
  function ShiftLeft(x: nat, shift: nat): nat {
    (x * Pow2(shift)) % U64
  }

  /** Unsigned LEB128, section 7.6 of DWARF Version 5. */
  function Encoding(v: nat): seq<byte> {
    if v < 128 then [v as byte] else [(v % 128 + 128) as byte] + Encoding(v / 128)
  }

  /** The number whose digits in base 128, lowest first, are the low seven bits of each byte. */
  function Digits(s: seq<byte>): nat {
    if s == [] then 0 else s[0] as nat % 128 + 128 * Digits(s[1..])
  }

  /** The bytes up to and including the first one without the continuation bit, if there is one. */
  function Group(s: seq<byte>): (r: Option<seq<byte>>)
    ensures r.Some? ==> r.value <= s && IsGroup(r.value)
  {
    if s == [] then None
    else if s[0] < 128 then Some([s[0]])
    else match Group(s[1..])
      case None => None
      case Some(rest) => Some([s[0]] + rest)
  }

  predicate IsGroup(s: seq<byte>) {
    && |s| > 0 && s[|s| - 1] < 128
    && forall k :: 0 <= k < |s| - 1 ==> s[k] >= 128
  }

  /** What decoding means: the first group, if it has at most ten bytes, read in 64 bits. */
  function Decoding(s: seq<byte>): Option<(nat, nat)> {
    match Group(s)
    case None => None
    case Some(g) => if |g| > MAX_BYTES then None else Some((Digits(g) % U64, |g|))
  }

  method EncodeVarint(value: nat, buffer: seq<byte>) returns (out: seq<byte>)
    requires value < U64
    ensures out == buffer + Encoding(value)
  {
    out := buffer;
    var v := value;
    while true
      invariant out + Encoding(v) == buffer + Encoding(value)
      decreases v
    {
      var low := (v % 128) as byte;
      ghost var before := v;
      v := v / 128;
      if v != 0 {
        assert out + Encoding(before) == (out + [low + 128]) + Encoding(v);
        out := out + [low + 128];
      } else {
        out := out + [low];
        return;
      }
    }
  }

  method DecodeVarint(buffer: seq<byte>) returns (r: Option<(nat, nat)>)
    ensures r == Decoding(buffer)
  {
    var value, shift := 0, 0;
    for i := 0 to |buffer|
      invariant i <= MAX_BYTES && shift == 7 * i && value == Digits(buffer[..i]) % U64
      invariant i < MAX_BYTES ==> value == Digits(buffer[..i]) < Pow2(shift)
      invariant forall k :: 0 <= k < i ==> buffer[k] >= 128
    {
      if shift >= 64 {
        LongGroup(buffer, i);
        return None;
      }
      var payload := buffer[i] as nat % 128;
      DigitJoins(buffer, i);
      if i + 1 < MAX_BYTES { NineBytesFit(buffer[..i + 1]); }
      value := Or(value, ShiftLeft(payload, shift));
      if buffer[i] < 128 {
        GroupIs(buffer, i + 1);
        return Some((value, i + 1));
      }
      shift := shift + 7;
    }
    NoGroup(buffer);
    return None;
  }

  // Reading a group.

  lemma {:induction false} GroupIs(s: seq<byte>, n: nat)
    requires n <= |s| && IsGroup(s[..n])
    ensures Group(s) == Some(s[..n])
  {
    if n > 1 {
      assert s[0] == s[..n][0] && s[1..][..n - 1] == s[..n][1..];
      GroupIs(s[1..], n - 1);
      assert s[..n] == [s[0]] + s[1..][..n - 1];
    } else {
      assert s[..n] == [s[0]];
    }
  }

  lemma {:induction false} NoGroup(s: seq<byte>)
    requires forall k :: 0 <= k < |s| ==> s[k] >= 128
    ensures Group(s) == None
  {
    if s != [] { NoGroup(s[1..]); }
  }

  lemma LongGroup(s: seq<byte>, n: nat)
    requires n <= |s| && forall k :: 0 <= k < n ==> s[k] >= 128
    ensures Group(s).Some? ==> |Group(s).value| > n
  {
    if Group(s).Some? {
      var g := Group(s).value;
      assert g[|g| - 1] == s[|g| - 1];
    }
  }

  // Arithmetic of the digits.

  lemma {:induction false} Pow2Adds(a: nat, b: nat)
    ensures Pow2(a + b) == Pow2(a) * Pow2(b)
  {
    if a > 0 { Pow2Adds(a - 1, b); }
  }

  lemma Pow2Digit(n: nat)
    ensures Pow2(n + 7) == 128 * Pow2(n)
  {
    Pow2Adds(n, 7);
  }

  lemma {:induction false} OrDisjoint(a: nat, c: nat, n: nat)
    requires a < Pow2(n)
    ensures Or(a, c * Pow2(n)) == a + c * Pow2(n)
    decreases n
  {
    if n > 0 && a > 0 {
      var half := c * Pow2(n - 1);
      assert c * Pow2(n) == 2 * half;
      OrDisjoint(a / 2, c, n - 1);
      if c * Pow2(n) != 0 {
        assert (c * Pow2(n)) / 2 == half;
      }
    }
  }

  lemma {:induction false} DigitsAppend(s: seq<byte>, b: byte)
    ensures Digits(s + [b]) == Digits(s) + (b as nat % 128) * Pow2(7 * |s|)
  {
    if s == [] {
      assert s + [b] == [b];
    } else {
      assert (s + [b])[1..] == s[1..] + [b];
      DigitsAppend(s[1..], b);
      Pow2Digit(7 * |s| - 7);
      var d, p := b as nat % 128, Pow2(7 * |s| - 7);
      assert 128 * (d * p) == d * (128 * p);
    }
  }

  lemma {:induction false} DigitsBound(s: seq<byte>)
    ensures Digits(s) < Pow2(7 * |s|)
  {
    if s != [] {
      DigitsBound(s[1..]);
      Pow2Digit(7 * |s| - 7);
    }
  }

  lemma Width(n: nat)
    requires n <= 64
    ensures Pow2(n) * Pow2(64 - n) == U64 && Pow2(n) <= U64
  {
    hide Pow2;
    Octet();
    Pow2Adds(8, 8);
    Pow2Adds(16, 16);
    Pow2Adds(32, 32);
    Pow2Adds(n, 64 - n);
    AtMost(Pow2(n), Pow2(64 - n));
  }

  lemma One()
    ensures Pow2(1) == 2
  {
  }

  lemma Octet()
    ensures Pow2(8) == 256
  {
  }

  lemma AtMost(a: nat, b: nat)
    requires b > 0
    ensures a <= a * b
  {
  }

  lemma Remainder(a: nat, n: nat, d: nat, m: nat)
    requires a == d * n + m && m < n
    ensures a % n == m
  {
    var q, r := a / n, a % n;
    assert a == q * n + r;
    Distributes(q, d, n);
    SmallMultiple(q - d, n);
  }

  lemma Distributes(q: int, d: int, n: int)
    ensures (q - d) * n == q * n - d * n
  {
  }

  lemma SmallMultiple(k: int, n: int)
    requires n > 0 && -n < k * n < n
    ensures k == 0
  {
    if k != 0 { AtMost(n, if k > 0 then k else -k); }
  }

  /** Reducing a shifted number modulo the width keeps whole multiples of the shift. */
  lemma Scale(x: nat, p: nat, q: nat)
    requires p > 0 && q > 0 && p * q > 0
    ensures (x * p) % (p * q) == (x % q) * p && (x % q) * p + p <= p * q
  {
    ScaleSum(x / q, x % q, p, q);
    Remainder(x * p, p * q, x / q, (x % q) * p);
  }

  lemma ScaleSum(d: nat, m: nat, p: nat, q: nat)
    requires m < q
    ensures (d * q + m) * p == d * (p * q) + m * p && m * p + p <= p * q
  {
    assert (m + 1) * p <= q * p;
  }

  lemma AddBelow(v: nat, a: nat, p: nat, n: nat)
    requires n > 0 && v < p && a % n + p <= n
    ensures (v + a) % n == v + a % n
  {
    Remainder(v + a, n, a / n, v + a % n);
  }

  /** One turn of the decoding loop. */
  lemma DigitJoins(s: seq<byte>, i: nat)
    requires i < |s| && 7 * i < 64 && Digits(s[..i]) < Pow2(7 * i)
    ensures Or(Digits(s[..i]), ShiftLeft(s[i] as nat % 128, 7 * i)) == Digits(s[..i + 1]) % U64
  {
    var v, x, p, q := Digits(s[..i]), s[i] as nat % 128, Pow2(7 * i), Pow2(64 - 7 * i);
    assert s[..i + 1] == s[..i] + [s[i]];
    DigitsAppend(s[..i], s[i]);
    Width(7 * i);
    Scale(x, p, q);
    OrDisjoint(v, x % q, 7 * i);
    AddBelow(v, x * p, p, U64);
  }

  /** Nine bytes hold 63 bits, so nothing is lost in them. */
  lemma NineBytesFit(s: seq<byte>)
    requires |s| < MAX_BYTES
    ensures Digits(s) < Pow2(7 * |s|) <= Pow2(63) && Pow2(63) * 2 == U64 && Digits(s) % U64 == Digits(s)
  {
    hide Pow2, Digits;
    DigitsBound(s);
    Width(63);
    One();
    Pow2Adds(7 * |s|, 63 - 7 * |s|);
    AtMost(Pow2(7 * |s|), Pow2(63 - 7 * |s|));
  }

  // What encoding and decoding promise.

  lemma {:induction false} EncodingIsGroup(v: nat)
    ensures IsGroup(Encoding(v)) && Digits(Encoding(v)) == v
    ensures |Encoding(v)| > 1 ==> Encoding(v)[|Encoding(v)| - 1] != 0
  {
    if v >= 128 { EncodingIsGroup(v / 128); }
  }

  /** Seven bits in each byte, lowest first, and the continuation bit in all but the last. */
  lemma {:induction false} EncodingAt(v: nat, i: nat)
    requires i < |Encoding(v)|
    ensures Encoding(v)[i] == v / Pow2(7 * i) % 128 + if i + 1 < |Encoding(v)| then 128 else 0
  {
    if i > 0 {
      EncodingAt(v / 128, i - 1);
      Pow2Digit(7 * i - 7);
      DivideTwice(v, Pow2(7 * i - 7));
    }
  }

  lemma DivideTwice(v: nat, b: nat)
    requires b > 0
    ensures v / 128 / b == v / (128 * b)
  {
    var x := v / 128;
    var q, r := x / b, x % b;
    assert x == q * b + r;
    assert q * (128 * b) == 128 * (q * b) by { Regroup(q, b); }
    Quotient(v, 128 * b, q, 128 * r + v % 128);
  }

  lemma Regroup(q: nat, b: nat)
    ensures q * (128 * b) == 128 * (q * b)
  {
  }

  lemma Quotient(v: nat, n: nat, q: nat, r: nat)
    requires n > 0 && v == q * n + r && r < n
    ensures v / n == q
  {
    Remainder(v, n, q, r);
    Distributes(v / n, q, n);
    SmallMultiple(v / n - q, n);
  }

  /** A number below 128^n has at most n bytes. */
  lemma {:induction false} EncodingFits(v: nat, n: nat)
    requires n > 0 && v < Pow2(7 * n)
    ensures |Encoding(v)| <= n
  {
    if v >= 128 {
      assert Pow2(7) == 128;
      Pow2Digit(7 * n - 7);
      EncodingFits(v / 128, n - 1);
    }
  }

  lemma EncodingIsShort(v: nat)
    requires v < U64
    ensures 1 <= |Encoding(v)| <= MAX_BYTES
  {
    Width(64);
    Pow2Adds(64, 6);
    AtMost(Pow2(64), Pow2(6));
    EncodingFits(v, MAX_BYTES);
    EncodingIsGroup(v);
  }

  /** Decoding undoes encoding whatever follows. */
  lemma RoundTrip(v: nat, tail: seq<byte>)
    requires v < U64
    ensures Decoding(Encoding(v) + tail) == Some((v, |Encoding(v)|))
  {
    EncodingIsShort(v);
    EncodingIsGroup(v);
    assert (Encoding(v) + tail)[..|Encoding(v)|] == Encoding(v);
    GroupIs(Encoding(v) + tail, |Encoding(v)|);
  }

  lemma PrefixFree(v: nat, w: nat)
    requires v < U64 && w < U64 && Encoding(v) <= Encoding(w)
    ensures v == w
  {
    var tail := Encoding(w)[|Encoding(v)|..];
    assert Encoding(w) == Encoding(v) + tail && Encoding(w) == Encoding(w) + [];
    RoundTrip(v, tail);
    RoundTrip(w, []);
  }

  /** No shorter bytes decode to the same value. */
  lemma EncodingIsShortest(s: seq<byte>)
    requires Decoding(s).Some?
    ensures var (v, n) := Decoding(s).value; v < U64 && n <= |s| && |Encoding(v)| <= n
  {
    var g := Group(s).value;
    DigitsBound(g);
    assert Digits(g) % U64 <= Digits(g);
    EncodingFits(Digits(g) % U64, |g|);
  }

  /** A group without a superfluous last byte is the encoding of its digits. */
  lemma {:induction false} GroupIsEncoding(g: seq<byte>)
    requires IsGroup(g) && (|g| > 1 ==> g[|g| - 1] != 0)
    ensures Encoding(Digits(g)) == g
  {
    if |g| > 1 {
      GroupIsEncoding(g[1..]);
      assert Digits(g[1..]) > 0 by {
        EncodingIsGroup(0);
      }
      assert g == [g[0]] + g[1..];
    } else {
      assert Digits(g[1..]) == 0;
    }
  }

  /** Which accepted bytes are the encoding of what they decode to: no padding, and no lost bits. */
  lemma CanonicalExactlyWhen(s: seq<byte>)
    requires Decoding(s).Some?
    ensures var (v, n) := Decoding(s).value;
            && n <= |s|
            && (s[..n] == Encoding(v) <==> (n > 1 ==> s[n - 1] != 0) && (n == MAX_BYTES ==> s[n - 1] == 1))
  {
    hide Group, Pow2, Encoding, Digits;
    var g := Group(s).value;
    var n, v := |g|, Digits(g) % U64;
    assert s[..n] == g;
    EncodingIsGroup(v);
    if n < MAX_BYTES {
      NineBytesFit(g);
    } else {
      TenBytes(g);
    }
    if (n > 1 ==> g[n - 1] != 0) && (n == MAX_BYTES ==> g[n - 1] == 1) {
      GroupIsEncoding(g);
    }
  }

  /** Ten bytes fit in 64 bits exactly when the last adds one bit. */
  lemma TenBytes(g: seq<byte>)
    requires |g| == MAX_BYTES && g[9] < 128
    ensures g[9] <= 1 <==> Digits(g) < U64
  {
    assert g == g[..9] + [g[9]];
    DigitsAppend(g[..9], g[9]);
    NineBytesFit(g[..9]);
    var d, p := g[9] as nat, Pow2(63);
    if d >= 2 { assert d * p >= 2 * p; }
  }

  /** Padding is accepted: two bytes for zero. */
  lemma PaddingIsAccepted()
    ensures Decoding([0x80, 0x00]) == Some((0, 2)) && Encoding(0) == [0]
  {
    var s: seq<byte> := [0x80, 0x00];
    GroupIs(s, 2);
    assert s[..2] == s && s[1..] == [0];
  }

  const OVERFULL: seq<byte> := [0x80, 0x80, 0x80, 0x80, 0x80, 0x80, 0x80, 0x80, 0x80, 0x02]

  /** Bits beyond the sixty-fourth are lost: these ten bytes spell 2^64 and read as zero. */
  lemma LostBitsAreAccepted()
    ensures Digits(OVERFULL) == U64 && Decoding(OVERFULL) == Some((0, 10))
  {
    var zeros := OVERFULL[..9];
    assert OVERFULL == zeros + [0x02] && OVERFULL[..10] == OVERFULL;
    GroupIs(OVERFULL, 10);
    ContinuedZeros(zeros);
    DigitsAppend(zeros, 0x02);
    NineBytesFit(zeros);
  }

  lemma {:induction false} ContinuedZeros(s: seq<byte>)
    requires forall i :: 0 <= i < |s| ==> s[i] == 0x80
    ensures Digits(s) == 0
  {
    if s != [] { ContinuedZeros(s[1..]); }
  }
}
