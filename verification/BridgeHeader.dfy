/** The header that opens every connection on the shared front door's bridge. */
module BridgeHeader {
  import opened Bytes

  const MAGIC: seq<byte> := [0x44, 0x57, 0x4D, 0x48, 0x33, 0x42, 0x30, 0x32]
  const FIXED_BYTES: nat := 105
  const HOSTNAME_BYTES_MAX: nat := 253
  const LABEL_BYTES_MAX: nat := 63
  const KIND_SESSION: byte := 1
  const KIND_STREAM: byte := 2

  const DOT: byte := 0x2E
  const HYPHEN: byte := 0x2D

  datatype Address = V4(octets: seq<byte>) | V6(octets: seq<byte>)

  /** The hostname is kept as its bytes: one that is not ASCII is refused by its labels in any case. */
  datatype Header = Header(
    kind: byte,
    sessionId: seq<byte>,
    streamId: nat,
    address: Address,
    port: nat,
    hostname: seq<byte>,
    channelBinding: seq<byte>)

  // Hostnames.

  predicate Lower(b: byte) { 0x61 <= b <= 0x7A }
  predicate Upper(b: byte) { 0x41 <= b <= 0x5A }
  predicate Digit(b: byte) { 0x30 <= b <= 0x39 }
  predicate LabelByte(b: byte) { Lower(b) || Digit(b) || b == HYPHEN }

  function Split(s: seq<byte>): (r: seq<seq<byte>>)
    ensures |r| > 0
  {
    if s == [] then [[]]
    else if s[0] == DOT then [[]] + Split(s[1..])
    else var rest := Split(s[1..]); [[s[0]] + rest[0]] + rest[1..]
  }

  predicate ValidLabel(name: seq<byte>) {
    && name != [] && |name| <= LABEL_BYTES_MAX
    && name[0] != HYPHEN && name[|name| - 1] != HYPHEN
    && forall i :: 0 <= i < |name| ==> LabelByte(name[i])
  }

  /** One number of a dotted address: no sign, no leading zero, at most 255. */
  predicate Octet(name: seq<byte>) {
    && 1 <= |name| <= 3
    && (forall i :: 0 <= i < |name| ==> Digit(name[i]))
    && (|name| > 1 ==> name[0] != 0x30)
    && Decimal(name) <= 255
  }

  function Decimal(s: seq<byte>): int {
    if s == [] then 0 else 10 * Decimal(s[..|s| - 1]) + (s[|s| - 1] as int - 0x30)
  }

  /** An IPv6 literal has a colon, which no name may hold, so only IPv4 matters here. */
  predicate IsAddressLiteral(s: seq<byte>) {
    var labels := Split(s);
    |labels| == 4 && forall i :: 0 <= i < 4 ==> Octet(labels[i])
  }

  predicate ValidHostname(s: seq<byte>) {
    && s != [] && |s| <= HOSTNAME_BYTES_MAX && s[|s| - 1] != DOT
    && !IsAddressLiteral(s)
    && (forall i :: 0 <= i < |s| ==> !Upper(s[i]))
    && ValidLabels(Split(s))
  }

  predicate ValidLabels(labels: seq<seq<byte>>) {
    forall i :: 0 <= i < |labels| ==> ValidLabel(labels[i])
  }

  // Numbers, highest byte first.

  function Pow256(n: nat): (r: nat)
    ensures r > 0
  {
    if n == 0 then 1 else 256 * Pow256(n - 1)
  }

  function BigEndian(v: nat, width: nat): (s: seq<byte>)
    ensures |s| == width
  {
    if width == 0 then [] else BigEndian(v / 256, width - 1) + [v % 256]
  }

  function FromBigEndian(s: seq<byte>): nat {
    if s == [] then 0 else 256 * FromBigEndian(s[..|s| - 1]) + s[|s| - 1]
  }

  lemma {:induction false} FromBigEndianUndoes(v: nat, width: nat)
    requires v < Pow256(width)
    ensures FromBigEndian(BigEndian(v, width)) == v
  {
    if width > 0 {
      FromBigEndianUndoes(v / 256, width - 1);
      assert BigEndian(v, width)[..width - 1] == BigEndian(v / 256, width - 1);
    }
  }

  lemma {:induction false} BigEndianUndoes(s: seq<byte>)
    ensures FromBigEndian(s) < Pow256(|s|) && BigEndian(FromBigEndian(s), |s|) == s
  {
    if s != [] {
      BigEndianUndoes(s[..|s| - 1]);
      assert s == s[..|s| - 1] + [s[|s| - 1]];
    }
  }

  // The header.

  function Zeros(n: nat): seq<byte> {
    seq(n, _ => 0)
  }

  function AddressBytes(a: Address): seq<byte> {
    if a.V4? then [4] + a.octets + Zeros(12) else [6] + a.octets
  }

  function Encode(h: Header): seq<byte> {
    MAGIC + [h.kind] + Zeros(3) + h.sessionId + BigEndian(h.streamId, 8) + AddressBytes(h.address)
    + BigEndian(h.port, 2) + BigEndian(|h.hostname|, 2) + h.channelBinding + h.hostname
  }

  /** The widths of the fields. */
  predicate Shaped(h: Header) {
    && |h.sessionId| == 32 && h.streamId < Pow256(8)
    && |h.address.octets| == (if h.address.V4? then 4 else 16)
    && h.port < Pow256(2) && |h.channelBinding| == 32
  }

  predicate Validate(h: Header) {
    && ValidHostname(h.hostname)
    && h.sessionId != Zeros(32) && h.channelBinding != Zeros(32)
    && !(h.kind == KIND_SESSION && h.streamId != 0)
    && !(h.kind == KIND_STREAM && h.streamId == 0)
    && (h.kind == KIND_SESSION || h.kind == KIND_STREAM)
    && h.port != 0
  }

  function ReadAddress(s: seq<byte>): Option<Address>
    requires |s| == 17
  {
    if s[0] == 4 && s[5..] == Zeros(12) then Some(V4(s[1..5]))
    else if s[0] == 6 then Some(V6(s[1..]))
    else None
  }

  /** The header at the start of a stream that ends after s, and the number of bytes taken. */
  function Read(s: seq<byte>): Option<(Header, nat)> {
    if |s| < FIXED_BYTES then None
    else if s[..8] != MAGIC || s[9..12] != Zeros(3) then None
    else
      var address := ReadAddress(s[52..69]);
      var length := FromBigEndian(s[71..73]);
      if address.None? then None
      else if length == 0 || length > HOSTNAME_BYTES_MAX then None
      else if |s| < FIXED_BYTES + length then None
      else
        var h := Header(s[8], s[12..44], FromBigEndian(s[44..52]), address.value, FromBigEndian(s[69..71]),
                        s[105..105 + length], s[73..105]);
        if Validate(h) then Some((h, FIXED_BYTES + length)) else None
  }

  lemma AddressReads(a: Address)
    requires |a.octets| == if a.V4? then 4 else 16
    ensures |AddressBytes(a)| == 17 && ReadAddress(AddressBytes(a)) == Some(a)
  {
    var s := AddressBytes(a);
    if a.V4? {
      assert s[5..] == Zeros(12) && s[1..5] == a.octets;
    } else {
      assert s[1..] == a.octets;
    }
  }

  lemma AddressWrites(s: seq<byte>)
    requires |s| == 17 && ReadAddress(s).Some?
    ensures var a := ReadAddress(s).value; |a.octets| == (if a.V4? then 4 else 16) && AddressBytes(a) == s
  {
    if s[0] == 4 && s[5..] == Zeros(12) {
      assert s == [4] + s[1..5] + s[5..];
    } else {
      assert s == [6] + s[1..];
    }
  }

  lemma EncodeSize(h: Header)
    requires Shaped(h)
    ensures |Encode(h)| == FIXED_BYTES + |h.hostname|
  {
    AddressReads(h.address);
  }

  /** Where Encode puts each field. */
  lemma Layout(h: Header, s: seq<byte>)
    requires Shaped(h) && Encode(h) <= s
    ensures |s| >= FIXED_BYTES + |h.hostname|
    ensures s[..8] == MAGIC && s[8] == h.kind && s[9..12] == Zeros(3) && s[12..44] == h.sessionId
    ensures s[44..52] == BigEndian(h.streamId, 8) && s[52..69] == AddressBytes(h.address)
    ensures s[69..71] == BigEndian(h.port, 2) && s[71..73] == BigEndian(|h.hostname|, 2)
    ensures s[73..105] == h.channelBinding && s[105..105 + |h.hostname|] == h.hostname
  {
    AddressReads(h.address);
    hide BigEndian, AddressBytes;
    EncodeSize(h);
    assert s[..|Encode(h)|] == Encode(h);
  }

  /** A header read is valid, and its encoding is what was taken. */
  lemma ReadIsSound(s: seq<byte>)
    requires Read(s).Some?
    ensures var (h, n) := Read(s).value; Shaped(h) && Validate(h) && n <= |s| && Encode(h) == s[..n]
  {
    hide BigEndian, FromBigEndian, AddressBytes, ReadAddress, Pow256, Validate;
    var (h, n) := Read(s).value;
    AddressWrites(s[52..69]);
    BigEndianUndoes(s[44..52]);
    BigEndianUndoes(s[69..71]);
    BigEndianUndoes(s[71..73]);
    Rejoin(s, n);
  }

  lemma Rejoin(s: seq<byte>, n: nat)
    requires FIXED_BYTES <= n <= |s|
    ensures s[..n] == s[..8] + [s[8]] + s[9..12] + s[12..44] + s[44..52] + s[52..69] + s[69..71] + s[71..73]
                      + s[73..105] + s[105..n]
  {
  }

  /** Every valid header is read back from its encoding, whatever follows. */
  lemma ReadIsComplete(h: Header, s: seq<byte>)
    requires Shaped(h) && Validate(h) && Encode(h) <= s
    ensures Read(s) == Some((h, |Encode(h)|))
  {
    assert |h.hostname| < Pow256(2) by { assert Pow256(1) == 256 && Pow256(2) == 65536; }
    Layout(h, s);
    NumbersRead(h);
    hide BigEndian, FromBigEndian, Encode, AddressBytes, ReadAddress, Pow256;
  }

  lemma NumbersRead(h: Header)
    requires Shaped(h) && |h.hostname| < Pow256(2)
    ensures FromBigEndian(BigEndian(h.streamId, 8)) == h.streamId
    ensures FromBigEndian(BigEndian(h.port, 2)) == h.port
    ensures FromBigEndian(BigEndian(|h.hostname|, 2)) == |h.hostname|
    ensures |AddressBytes(h.address)| == 17 && ReadAddress(AddressBytes(h.address)) == Some(h.address)
    ensures |Encode(h)| == FIXED_BYTES + |h.hostname|
  {
    FromBigEndianUndoes(h.streamId, 8);
    FromBigEndianUndoes(h.port, 2);
    FromBigEndianUndoes(|h.hostname|, 2);
    AddressReads(h.address);
    EncodeSize(h);
  }

  /** The reader accepts exactly the encodings of valid headers. */
  lemma ReadExactly(s: seq<byte>, h: Header, n: nat)
    ensures Read(s) == Some((h, n)) <==>
            (Shaped(h) && Validate(h) && n <= |s| && s[..n] == Encode(h))
  {
    if Read(s) == Some((h, n)) {
      ReadIsSound(s);
    }
    if Shaped(h) && Validate(h) && n <= |s| && s[..n] == Encode(h) {
      ReadIsComplete(h, s);
    }
  }

  /** No encoding of a valid header begins another one's. */
  lemma EncodeIsPrefixFree(g: Header, h: Header)
    requires Shaped(g) && Validate(g) && Shaped(h) && Validate(h) && Encode(g) <= Encode(h)
    ensures g == h
  {
    ReadIsComplete(g, Encode(h));
    ReadIsComplete(h, Encode(h));
  }

  // What a canonical hostname looks like, without splitting it.

  predicate LetterOrDigit(b: byte) { Lower(b) || Digit(b) }

  /**
   * Lower case letters, digits, hyphens and dots; a letter or digit at both ends and on either
   * side of every dot; no 64 bytes in a row without a dot.
   */
  predicate Canonical(s: seq<byte>) {
    && s != [] && LetterOrDigit(s[0]) && LetterOrDigit(s[|s| - 1])
    && (forall i :: 0 <= i < |s| ==> s[i] == DOT || LabelByte(s[i]))
    && (forall i :: 0 < i < |s| - 1 && s[i] == DOT ==> LetterOrDigit(s[i - 1]) && LetterOrDigit(s[i + 1]))
    && ShortRuns(s)
  }

  predicate ShortRuns(s: seq<byte>) {
    forall i :: 0 <= i && i + LABEL_BYTES_MAX < |s| ==> DotFrom(s, i)
  }

  predicate DotFrom(s: seq<byte>, i: nat) {
    exists k :: i <= k <= i + LABEL_BYTES_MAX && k < |s| && s[k] == DOT
  }

  /** The first label ends at the first dot, and the rest of the labels follow it. */
  lemma {:induction false} SplitFirst(s: seq<byte>)
    ensures var k := |Split(s)[0]|;
            && k <= |s| && Split(s)[0] == s[..k] && (forall i :: 0 <= i < k ==> s[i] != DOT)
            && if k == |s| then Split(s) == [s] else s[k] == DOT && Split(s)[1..] == Split(s[k + 1..])
  {
    if s != [] && s[0] != DOT {
      SplitFirst(s[1..]);
      var k := |Split(s[1..])[0]|;
      assert s[..k + 1] == [s[0]] + s[1..][..k];
      if k + 1 < |s| { assert s[1..][k + 1..] == s[k + 2..]; } else { assert s[..k + 1] == s; }
    }
  }

  lemma ShortRunsSplit(s: seq<byte>, k: nat)
    requires k < |s| && s[k] == DOT && forall i :: 0 <= i < k ==> s[i] != DOT
    ensures ShortRuns(s) <==>
            (k <= LABEL_BYTES_MAX && ShortRuns(s[k + 1..]))
  {
    var rest := s[k + 1..];
    if ShortRuns(s) {
      assert k > LABEL_BYTES_MAX ==> DotFrom(s, 0);
      forall i | 0 <= i && i + LABEL_BYTES_MAX < |rest| ensures DotFrom(rest, i) {
        assert DotFrom(s, k + 1 + i);
        var d :| k + 1 + i <= d <= k + 1 + i + LABEL_BYTES_MAX && d < |s| && s[d] == DOT;
        assert rest[d - k - 1] == DOT;
      }
    }
    if k <= LABEL_BYTES_MAX && ShortRuns(rest) {
      forall i | 0 <= i && i + LABEL_BYTES_MAX < |s| ensures DotFrom(s, i) {
        if i > k {
          assert DotFrom(rest, i - k - 1);
          var d :| i - k - 1 <= d <= i - k - 1 + LABEL_BYTES_MAX && d < |rest| && rest[d] == DOT;
          assert s[d + k + 1] == DOT;
        }
      }
    }
  }

  lemma CanonicalSplit(s: seq<byte>, k: nat)
    requires k < |s| && s[k] == DOT && forall i :: 0 <= i < k ==> s[i] != DOT
    ensures Canonical(s) <==>
            (ValidLabel(s[..k]) && Canonical(s[k + 1..]))
  {
    hide ShortRuns;
    ShortRunsSplit(s, k);
    var rest := s[k + 1..];
    if Canonical(s) {
      assert 0 < k < |s| - 1;
    }
    if ValidLabel(s[..k]) && Canonical(rest) {
      assert s[|s| - 1] == rest[|rest| - 1] && s[k - 1] == s[..k][k - 1] && s[k + 1] == rest[0];
      forall i | 0 <= i < |s| ensures s[i] == DOT || LabelByte(s[i]) {
        if i < k { assert s[i] == s[..k][i]; } else if i > k { assert s[i] == rest[i - k - 1]; }
      }
      forall i | 0 < i < |s| - 1 && s[i] == DOT ensures LetterOrDigit(s[i - 1]) && LetterOrDigit(s[i + 1]) {
        if i > k { assert rest[i - k - 1] == DOT; }
      }
    }
  }

  lemma CanonicalAlone(s: seq<byte>)
    requires forall i :: 0 <= i < |s| ==> s[i] != DOT
    ensures Canonical(s) <==> ValidLabel(s)
  {
    assert ShortRuns(s) <==> |s| <= LABEL_BYTES_MAX by {
      if |s| > LABEL_BYTES_MAX { assert !DotFrom(s, 0); }
    }
  }

  lemma {:induction false} LabelsAreCanonical(s: seq<byte>)
    ensures ValidLabels(Split(s)) <==> Canonical(s)
    decreases |s|
  {
    hide Canonical, ValidLabel, Split;
    SplitFirst(s);
    var labels := Split(s);
    var k := |labels[0]|;
    if k == |s| {
      CanonicalAlone(s);
    } else {
      CanonicalSplit(s, k);
      LabelsAreCanonical(s[k + 1..]);
      AllSplit(labels);
    }
  }

  lemma AllSplit(labels: seq<seq<byte>>)
    requires labels != []
    ensures ValidLabels(labels) <==>
            (ValidLabel(labels[0]) && ValidLabels(labels[1..]))
  {
    hide ValidLabel;
    assert forall i :: 0 < i < |labels| ==> labels[i] == labels[1..][i - 1];
  }

  /** The hostnames accepted: canonical, at most 253 bytes and not a dotted address. */
  lemma HostnamesAreCanonical(s: seq<byte>)
    ensures ValidHostname(s) <==>
            (Canonical(s) && |s| <= HOSTNAME_BYTES_MAX && !IsAddressLiteral(s))
  {
    hide Split, IsAddressLiteral, ValidLabels, ShortRuns;
    LabelsAreCanonical(s);
  }

  // ---- Which bytes are read, offset by offset ----

  predicate AllZero(s: seq<byte>) {
    forall i :: 0 <= i < |s| ==> s[i] == 0
  }

  /** The bytes that begin with a header, in terms of the bytes alone. */
  predicate Wire(s: seq<byte>) {
    && |s| >= 105
    && s[0] == 0x44 && s[1] == 0x57 && s[2] == 0x4D && s[3] == 0x48
    && s[4] == 0x33 && s[5] == 0x42 && s[6] == 0x30 && s[7] == 0x32
    && (if AllZero(s[44..52]) then s[8] == 1 else s[8] == 2)
    && AllZero(s[9..12]) && !AllZero(s[12..44]) && !AllZero(s[73..105])
    && (s[52] == 6 || (s[52] == 4 && AllZero(s[57..69])))
    && !AllZero(s[69..71])
    && WireHostname(s)
  }

  predicate WireHostname(s: seq<byte>)
    requires |s| >= 105
  {
    var n := 256 * s[71] as nat + s[72] as nat;
    1 <= n <= 253 && |s| >= 105 + n && Canonical(s[105..105 + n]) && !IsAddressLiteral(s[105..105 + n])
  }

  lemma ZerosAre(s: seq<byte>)
    ensures s == Zeros(|s|) <==> AllZero(s)
  {
  }

  lemma {:induction false} ZeroIs(s: seq<byte>)
    ensures FromBigEndian(s) == 0 <==> AllZero(s)
  {
    if s != [] {
      var t := s[..|s| - 1];
      ZeroIs(t);
      assert AllZero(s) <==> AllZero(t) && s[|s| - 1] == 0;
    }
  }

  lemma PairIs(s: seq<byte>)
    requires |s| == 2
    ensures FromBigEndian(s) == 256 * s[0] as nat + s[1] as nat
  {
    var t := s[..1];
    assert t[..0] == [] && FromBigEndian([]) == 0;
    assert FromBigEndian(t) == s[0] as nat;
  }

  /** Eight bytes as a number, the highest first. */
  function Eight(s: seq<byte>): nat
    requires |s| == 8
  {
    0x100_0000_0000_0000 * s[0] as nat + 0x1_0000_0000_0000 * s[1] as nat + 0x100_0000_0000 * s[2] as nat
    + 0x1_0000_0000 * s[3] as nat + 0x100_0000 * s[4] as nat + 0x1_0000 * s[5] as nat + 0x100 * s[6] as nat
    + s[7] as nat
  }

  lemma NextByte(s: seq<byte>, k: nat)
    requires k < |s|
    ensures FromBigEndian(s[..k + 1]) == 256 * FromBigEndian(s[..k]) + s[k] as nat
  {
    assert s[..k + 1][..k] == s[..k];
  }

  lemma EightIs(s: seq<byte>)
    requires |s| == 8
    ensures FromBigEndian(s) == Eight(s)
  {
    hide FromBigEndian;
    assert FromBigEndian(s[..0]) == 0 by { NoBytes(); }
    NextByte(s, 0);
    NextByte(s, 1);
    NextByte(s, 2);
    NextByte(s, 3);
    NextByte(s, 4);
    NextByte(s, 5);
    NextByte(s, 6);
    NextByte(s, 7);
    assert s[..8] == s;
  }

  lemma NoBytes()
    ensures FromBigEndian([]) == 0
  {
  }

  /** Read accepts exactly those bytes, and takes every field from its place. */
  lemma ReadsWire(s: seq<byte>)
    ensures Read(s).Some? <==> Wire(s)
    ensures Read(s).Some? ==>
              var (h, n) := Read(s).value;
              && n == 105 + 256 * s[71] as nat + s[72] as nat && h.kind == s[8] && h.sessionId == s[12..44]
              && h.streamId == Eight(s[44..52]) && h.port == 256 * s[69] as nat + s[70] as nat
              && h.address == (if s[52] == 4 then V4(s[53..57]) else V6(s[53..69]))
              && h.channelBinding == s[73..105] && h.hostname == s[105..n]
  {
    hide FromBigEndian, Canonical, IsAddressLiteral, ValidHostname, Eight;
    if |s| >= 105 {
      EightIs(s[44..52]);
      WireNumbers(s);
      WireZeros(s);
      WireMagic(s);
      WireAddress(s[52..69]);
      assert s[52..69][5..] == s[57..69] && s[52..69][1..5] == s[53..57] && s[52..69][1..] == s[53..69];
      var n := 256 * s[71] as nat + s[72] as nat;
      if |s| >= 105 + n {
        HostnamesAreCanonical(s[105..105 + n]);
        NotEmpty(s[105..105 + n]);
      }
    }
  }

  lemma NotEmpty(s: seq<byte>)
    ensures ValidHostname(s) ==> 1 <= |s| <= 253
  {
  }

  lemma WireNumbers(s: seq<byte>)
    requires |s| >= 105
    ensures FromBigEndian(s[69..71]) == 256 * s[69] as nat + s[70] as nat
    ensures FromBigEndian(s[71..73]) == 256 * s[71] as nat + s[72] as nat
    ensures FromBigEndian(s[44..52]) == 0 <==> AllZero(s[44..52])
    ensures FromBigEndian(s[69..71]) == 0 <==> AllZero(s[69..71])
  {
    PairIs(s[69..71]);
    PairIs(s[71..73]);
    ZeroIs(s[44..52]);
    ZeroIs(s[69..71]);
  }

  lemma WireZeros(s: seq<byte>)
    requires |s| >= 105
    ensures s[9..12] == Zeros(3) <==> AllZero(s[9..12])
    ensures s[12..44] == Zeros(32) <==> AllZero(s[12..44])
    ensures s[73..105] == Zeros(32) <==> AllZero(s[73..105])
  {
    ZerosAre(s[9..12]);
    ZerosAre(s[12..44]);
    ZerosAre(s[73..105]);
  }

  lemma WireMagic(s: seq<byte>)
    requires |s| >= 105
    ensures s[..8] == MAGIC <==>
            (&& s[0] == 0x44 && s[1] == 0x57 && s[2] == 0x4D && s[3] == 0x48
             && s[4] == 0x33 && s[5] == 0x42 && s[6] == 0x30 && s[7] == 0x32)
  {
    assert s[..8] == [s[0], s[1], s[2], s[3], s[4], s[5], s[6], s[7]];
  }

  lemma WireAddress(s: seq<byte>)
    requires |s| == 17
    ensures ReadAddress(s).Some? <==> s[0] == 6 || (s[0] == 4 && AllZero(s[5..]))
    ensures ReadAddress(s).Some? ==> ReadAddress(s).value == if s[0] == 4 then V4(s[1..5]) else V6(s[1..])
  {
    ZerosAre(s[5..]);
  }

  // ---- Dotted addresses are printed numbers ----

  function Printed(n: nat): seq<byte> {
    if n < 10 then [(0x30 + n) as byte] else Printed(n / 10) + [(0x30 + n % 10) as byte]
  }

  lemma PrintedIsOctet(n: nat)
    requires n < 256
    ensures Octet(Printed(n)) && Decimal(Printed(n)) == n
  {
    assert Decimal([]) == 0;
    if n < 10 {
      assert Printed(n)[..0] == [];
    } else if n < 100 {
      TwoDigits(n);
    } else {
      ThreeDigits(n);
    }
  }

  lemma TwoDigits(n: nat)
    requires 10 <= n < 100
    ensures Printed(n) == [(0x30 + n / 10) as byte, (0x30 + n % 10) as byte]
    ensures Decimal(Printed(n)) == n
  {
    var p := Printed(n);
    assert p[..1] == [(0x30 + n / 10) as byte] && p[..1][..0] == [];
    assert Decimal(p[..1]) == n / 10;
  }

  lemma ThreeDigits(n: nat)
    requires 100 <= n < 1000
    ensures Printed(n) == [(0x30 + n / 100) as byte, (0x30 + n / 10 % 10) as byte, (0x30 + n % 10) as byte]
    ensures Decimal(Printed(n)) == n
  {
    TwoDigits(n / 10);
    var p := Printed(n);
    assert p[..2] == Printed(n / 10);
  }

  /** The numbers of an address are the usual decimals of 0 to 255. */
  lemma OctetIsPrinted(name: seq<byte>)
    requires Octet(name)
    ensures 0 <= Decimal(name) < 256 && name == Printed(Decimal(name))
  {
    assert Decimal([]) == 0;
    if |name| == 1 {
      assert name[..0] == [];
    } else if |name| == 2 {
      TwoRead(name);
    } else {
      ThreeRead(name);
    }
  }

  lemma TwoRead(name: seq<byte>)
    requires |name| == 2 && Octet(name)
    ensures 10 <= Decimal(name) < 100 && name == Printed(Decimal(name))
  {
    var a, b := name[0] as int - 0x30, name[1] as int - 0x30;
    assert Decimal([]) == 0 && name[..1][..0] == [];
    assert Decimal(name[..1]) == a;
    TwoDigits(10 * a + b);
  }

  lemma ThreeRead(name: seq<byte>)
    requires |name| == 3 && Octet(name)
    ensures 100 <= Decimal(name) < 256 && name == Printed(Decimal(name))
  {
    var a, b, c := name[0] as int - 0x30, name[1] as int - 0x30, name[2] as int - 0x30;
    ThreeAre(name);
    ThreeDigits(100 * a + 10 * b + c);
    DigitsOf(a, b, c);
  }

  lemma ThreeAre(name: seq<byte>)
    requires |name| == 3
    ensures Decimal(name) == 100 * (name[0] as int - 0x30) + 10 * (name[1] as int - 0x30) + (name[2] as int - 0x30)
  {
    assert Decimal([]) == 0 && name[..2][..1][..0] == [] && name[..2][..1] == name[..1];
    assert Decimal(name[..1]) == name[0] as int - 0x30;
    assert Decimal(name[..2]) == 10 * (name[0] as int - 0x30) + (name[1] as int - 0x30);
  }

  lemma DigitsOf(a: nat, b: nat, c: nat)
    requires b < 10 && c < 10
    ensures var d := 100 * a + 10 * b + c; d / 100 == a && d / 10 % 10 == b && d % 10 == c
  {
  }

  function Dotted(a: nat, b: nat, c: nat, d: nat): seq<byte> {
    Printed(a) + [DOT] + (Printed(b) + [DOT] + (Printed(c) + [DOT] + Printed(d)))
  }

  ghost predicate IsDotted(s: seq<byte>) {
    exists a, b, c, d :: 0 <= a < 256 && 0 <= b < 256 && 0 <= c < 256 && 0 <= d < 256 && s == Dotted(a, b, c, d)
  }

  lemma {:induction false} PrintedHasNoDot(n: nat)
    ensures DOT !in Printed(n)
  {
    if n >= 10 { PrintedHasNoDot(n / 10); }
  }

  lemma {:induction false} SplitsOff(name: seq<byte>, rest: seq<byte>)
    requires DOT !in name
    ensures Split(name + [DOT] + rest) == [name] + Split(rest) && Split(name) == [name]
  {
    var s := name + [DOT] + rest;
    if name == [] {
      assert s[0] == DOT && s[1..] == rest;
    } else {
      SplitsOff(name[1..], rest);
      assert s[0] == name[0] && s[1..] == name[1..] + [DOT] + rest;
      assert [name[0]] + name[1..] == name;
    }
  }

  /** The names refused as addresses are exactly four numbers of 0 to 255 with dots between them. */
  lemma AddressesAreDotted(s: seq<byte>)
    ensures IsAddressLiteral(s) <==> IsDotted(s)
  {
    hide Octet, Printed, Split;
    if IsAddressLiteral(s) {
      AddressIsDotted(s);
    }
    if a, b, c, d :| 0 <= a < 256 && 0 <= b < 256 && 0 <= c < 256 && 0 <= d < 256 && s == Dotted(a, b, c, d) {
      DottedIsAddress(a, b, c, d);
    }
  }

  lemma DottedIsAddress(a: nat, b: nat, c: nat, d: nat)
    requires a < 256 && b < 256 && c < 256 && d < 256
    ensures IsAddressLiteral(Dotted(a, b, c, d))
  {
    hide Octet, Printed, Split;
    PrintedHasNoDot(a);
    PrintedHasNoDot(b);
    PrintedHasNoDot(c);
    PrintedHasNoDot(d);
    var three := Printed(c) + [DOT] + Printed(d);
    SplitsOff(Printed(a), Printed(b) + [DOT] + three);
    SplitsOff(Printed(b), three);
    SplitsOff(Printed(c), Printed(d));
    SplitsOff(Printed(d), []);
    PrintedIsOctet(a);
    PrintedIsOctet(b);
    PrintedIsOctet(c);
    PrintedIsOctet(d);
  }

  lemma AddressIsDotted(s: seq<byte>)
    requires IsAddressLiteral(s)
    ensures IsDotted(s)
  {
    hide Octet, Printed, Split;
    var p := Split(s);
    var s1 := TailOf(s);
    var s2 := TailOf(s1);
    var s3 := TailOf(s2);
    SplitFirst(s3);
    OctetIsPrinted(p[0]);
    OctetIsPrinted(p[1]);
    OctetIsPrinted(p[2]);
    OctetIsPrinted(p[3]);
    assert s == Dotted(Decimal(p[0]), Decimal(p[1]), Decimal(p[2]), Decimal(p[3]));
  }

  lemma TailOf(s: seq<byte>) returns (rest: seq<byte>)
    requires |Split(s)| > 1
    ensures s == Split(s)[0] + [DOT] + rest && Split(rest) == Split(s)[1..]
  {
    SplitFirst(s);
    var k := |Split(s)[0]|;
    rest := s[k + 1..];
    assert s == s[..k] + [s[k]] + rest;
  }
}
