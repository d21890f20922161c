/** Bounds of the terminal's replay: history cache, replay composition and snapshot preamble. */
module RenderState {
  import opened Bytes
  import opened Utf8

  const HISTORY_RENDER_LINE_CAP: nat := 5_000
  const HISTORY_RENDER_BYTE_CAP: nat := 2 * 1024 * 1024
  const TERMINAL_WRITE_QUEUE_CAP: nat := 256 * 1024
  const TERMINAL_WRITE_QUEUE_CHUNK_CAP: nat := 256
  const TERMINAL_REPLAY_CAP: nat := 6 * 1024 * 1024
  const TERMINAL_REPLAY_ROW_CAP: nat := 4_096

  const CRLF := "\r\n"
  const HOME := "\U{1b}[H"

  /** The row counts for which a preamble exists; for any other the source throws. */
  predicate RowsSupported(rows: int) {
    0 < rows <= TERMINAL_REPLAY_ROW_CAP
  }

  lemma Supported(rows: int)
    ensures RowsSupported(rows) <==> 1 <= rows <= 4096
  {
  }

  function Repeat(text: string, times: nat): string {
    if times == 0 then [] else text + Repeat(text, times - 1)
  }

  /** One viewport of line breaks, then the home position. */
  function SnapshotReplayPreamble(rows: int): seq<byte>
    requires RowsSupported(rows)
  {
    EncodeText(Repeat(CRLF, rows) + HOME)
  }

  lemma {:induction false} EncodeTextSize(text: string)
    ensures |EncodeText(text)| <= 4 * |text|
  {
    if text != [] { EncodeTextSize(text[1..]); }
  }

  lemma {:induction false} EncodeTextAppend(a: string, b: string)
    ensures EncodeText(a + b) == EncodeText(a) + EncodeText(b)
  {
    if a == [] {
      assert a + b == b;
    } else {
      EncodeTextAppend(a[1..], b);
      assert (a + b)[1..] == a[1..] + b;
    }
  }

  lemma {:induction false} RepeatSize(text: string, times: nat)
    ensures |Repeat(text, times)| == times * |text|
  {
    if times > 0 { RepeatSize(text, times - 1); }
  }

  lemma PreambleFits(rows: int)
    requires RowsSupported(rows)
    ensures |SnapshotReplayPreamble(rows)| <= 4 * (2 * TERMINAL_REPLAY_ROW_CAP + 3)
  {
    hide EncodeText;
    EncodeTextSize(Repeat(CRLF, rows) + HOME);
    RepeatSize(CRLF, rows);
  }

  /** The bytes a list of lines is charged for: each line and the break after it. */
  function LineBytes(lines: seq<string>): nat {
    if lines == [] then 0 else |EncodeText(lines[0])| + 2 + LineBytes(lines[1..])
  }

  lemma {:induction false} LineBytesAppend(a: seq<string>, b: seq<string>)
    ensures LineBytes(a + b) == LineBytes(a) + LineBytes(b)
  {
    if a == [] {
      assert a + b == b;
    } else {
      LineBytesAppend(a[1..], b);
      assert (a + b)[1..] == a[1..] + b;
    }
  }

  function Max(a: int, b: int): int {
    if a < b then b else a
  }

  /** How many of the newest lines go before `lines` lines of `bytes` bytes. */
  function Room(lines: nat, bytes: nat, incoming: seq<string>, lineCap: nat, byteCap: nat): (n: nat)
    ensures n <= |incoming|
    decreases |incoming|
  {
    if incoming == [] || lines >= lineCap then 0
    else
      var more := bytes + |EncodeText(incoming[|incoming| - 1])| + 2;
      if more > byteCap then 0 else 1 + Room(lines + 1, more, incoming[..|incoming| - 1], lineCap, byteCap)
  }

  lemma RoomForLast(lines: nat, bytes: nat, incoming: seq<string>, last: string, lineCap: nat, byteCap: nat)
    ensures Room(lines, bytes, incoming + [last], lineCap, byteCap)
         == var more := bytes + |EncodeText(last)| + 2;
            if lines >= lineCap || more > byteCap then 0 else 1 + Room(lines + 1, more, incoming, lineCap, byteCap)
  {
    assert (incoming + [last])[..|incoming|] == incoming;
  }

  datatype BoundedHistory = BoundedHistory(lines: seq<string>, bytes: nat, acceptedAll: bool)

  /** Prepends the longest suffix of `incoming` that the two caps leave room for. */
  method PrependBoundedHistory(existing: seq<string>, existingBytes: nat, incoming: seq<string>,
                               lineCap: nat, byteCap: nat)
    returns (r: BoundedHistory)
    ensures |existing| <= |r.lines| <= |existing| + |incoming|
    ensures var cut := |existing| + |incoming| - |r.lines|;
            && r.lines == incoming[cut..] + existing
            && r.bytes == existingBytes + LineBytes(incoming[cut..])
            && (r.acceptedAll <==> cut == 0)
            && (cut > 0 ==> |r.lines| >= lineCap || existingBytes + LineBytes(incoming[cut - 1..]) > byteCap)
    ensures |r.lines| <= Max(|existing|, lineCap) && r.bytes <= Max(existingBytes, byteCap)
    ensures |r.lines| == |existing| + Room(|existing|, existingBytes, incoming, lineCap, byteCap)
  {
    hide EncodeText;
    var bytes := existingBytes;
    var remainingLines := Max(0, lineCap - |existing|);
    var accepted: seq<string> := [];
    var index := |incoming| - 1;
    assert incoming[..index + 1] == incoming;
    while index >= 0 && remainingLines > 0
      invariant -1 <= index < |incoming|
      invariant accepted == incoming[index + 1..]
      invariant 0 <= remainingLines == Max(0, lineCap - |existing|) - |accepted|
      invariant bytes == existingBytes + LineBytes(accepted) <= Max(existingBytes, byteCap)
      invariant Room(|existing|, existingBytes, incoming, lineCap, byteCap)
             == |accepted| + Room(|existing| + |accepted|, bytes, incoming[..index + 1], lineCap, byteCap)
    {
      var line := incoming[index];
      var lineBytes := |EncodeText(line)| + 2;
      assert incoming[index..] == [line] + accepted && incoming[..index + 1] == incoming[..index] + [line];
      RoomForLast(|existing| + |accepted|, bytes, incoming[..index], line, lineCap, byteCap);
      if bytes + lineBytes > byteCap { break; }
      accepted := [line] + accepted;
      bytes := bytes + lineBytes;
      remainingLines := remainingLines - 1;
      index := index - 1;
    }
    r := BoundedHistory(accepted + existing, bytes, |accepted| == |incoming|);
  }

  /** The parts as one buffer, or nothing when together they exceed the cap. */
  method ComposeBoundedReplay(parts: seq<seq<byte>>, cap: nat) returns (replay: Option<seq<byte>>)
    ensures replay == if |Flatten(parts)| <= cap then Some(Flatten(parts)) else None
  {
    var length := 0;
    for i := 0 to |parts|
      invariant length == |Flatten(parts[..i])| <= cap
    {
      SplitAt(parts, i);
      if |parts[i]| > cap - length {
        return None;
      }
      length := length + |parts[i]|;
    }
    assert parts[..|parts|] == parts;
    var buffer := new byte[length];
    var offset := 0;
    for i := 0 to |parts|
      invariant offset == |Flatten(parts[..i])| <= length == |Flatten(parts)|
      invariant buffer[..offset] == Flatten(parts[..i])
    {
      SplitAt(parts, i);
      var part := parts[i];
      ghost var done := buffer[..offset];
      forall k | 0 <= k < |part| {
        buffer[offset + k] := part[k];
      }
      assert buffer[..offset + |part|] == done + part;
      offset := offset + |part|;
    }
    assert parts[..|parts|] == parts;
    replay := Some(buffer[..offset]);
  }

  /** How the concatenation grows by the part at `i`, and stays within the whole. */
  lemma SplitAt(parts: seq<seq<byte>>, i: nat)
    requires i < |parts|
    ensures Flatten(parts[..i + 1]) == Flatten(parts[..i]) + parts[i]
    ensures |Flatten(parts[..i + 1])| <= |Flatten(parts)|
  {
    assert parts[..i + 1] == parts[..i] + [parts[i]];
    FlattenSnoc(parts[..i], parts[i]);
    assert parts == parts[..i + 1] + parts[i + 1..];
    FlattenAppend(parts[..i + 1], parts[i + 1..]);
  }
}
