/**
 * One shell tab's presentation pipeline: live bytes, replays, the bounded write queue and
 * the callbacks of xterm, which parses one write at a time.
 */
module TabPipeline {
  import opened Bytes
  import opened RenderState
  import opened Screen
  import opened TerminalOutput
  import opened Utf8

  const LIVE_BUFFER_CAP: nat := 2 * 1024 * 1024
  const LIVE_CHUNK_CAP: nat := 4_096

  const CLIENT_LIMIT_NOTE := "\U{2500}\U{2500} local history display limit reached \U{2500}\U{2500}"
  const START_NOTE := "\U{2500}\U{2500} start of retained history \U{2500}\U{2500}"
  const SCROLL_NOTE := "\U{2500}\U{2500} scroll up for older history \U{2500}\U{2500}"

  datatype LiveChunk = LiveChunk(sequence: nat, data: seq<byte>)

  /** A queued write; `promise` names the completion its producer waits for. */
  datatype QueuedWrite = QueuedWrite(data: seq<byte>, promise: nat)

  /** What xterm will call back: the end of a replay, with what it captured, or of one queued write. */
  datatype Callback = ReplayDone(generation: nat, coveredThrough: nat) | WriteDone(promise: nat)

  function LiveData(chunks: seq<LiveChunk>): seq<byte> {
    if chunks == [] then [] else chunks[0].data + LiveData(chunks[1..])
  }

  function QueueData(queue: seq<QueuedWrite>): seq<byte> {
    if queue == [] then [] else queue[0].data + QueueData(queue[1..])
  }

  lemma {:induction false} LiveDataSnoc(chunks: seq<LiveChunk>, c: LiveChunk)
    ensures LiveData(chunks + [c]) == LiveData(chunks) + c.data
  {
    if chunks == [] {
      assert LiveData([c]) == c.data + LiveData([]);
    } else {
      LiveDataSnoc(chunks[1..], c);
      assert (chunks + [c])[1..] == chunks[1..] + [c];
    }
  }

  lemma LiveDataGrows(chunks: seq<LiveChunk>, i: nat)
    requires i < |chunks|
    ensures |LiveData(chunks[..i + 1])| == |LiveData(chunks[..i])| + |chunks[i].data| <= |LiveData(chunks)|
    decreases |chunks| - i
  {
    assert chunks[..i + 1] == chunks[..i] + [chunks[i]];
    LiveDataSnoc(chunks[..i], chunks[i]);
    if i + 1 < |chunks| {
      LiveDataGrows(chunks, i + 1);
    } else {
      assert chunks[..i + 1] == chunks;
    }
  }

  lemma LiveDataNone(chunks: seq<LiveChunk>)
    requires chunks == []
    ensures LiveData(chunks) == []
  {
  }

  lemma {:induction false} QueueDataSnoc(queue: seq<QueuedWrite>, w: QueuedWrite)
    ensures QueueData(queue + [w]) == QueueData(queue) + w.data
  {
    if queue == [] {
      assert QueueData([w]) == w.data + QueueData([]);
    } else {
      QueueDataSnoc(queue[1..], w);
      assert (queue + [w])[1..] == queue[1..] + [w];
    }
  }

  /** Everything on its way to xterm: what the filter was fed, then what is queued. */
  function Sent(fed: seq<byte>, queue: seq<QueuedWrite>): seq<byte> {
    fed + QueueData(queue)
  }

  lemma NothingQueued(fed: seq<byte>, queue: seq<QueuedWrite>)
    requires queue == []
    ensures Sent(fed, queue) == fed
  {
  }

  lemma SendHead(fed: seq<byte>, queue: seq<QueuedWrite>)
    requires queue != []
    ensures Sent(fed + queue[0].data, queue[1..]) == Sent(fed, queue)
    ensures |QueueData(queue)| == |queue[0].data| + |QueueData(queue[1..])|
  {
    ConcatAssociates(fed, queue[0].data, QueueData(queue[1..]));
  }

  lemma SendLater(fed: seq<byte>, queue: seq<QueuedWrite>, w: QueuedWrite)
    ensures Sent(fed, queue + [w]) == Sent(fed, queue) + w.data
    ensures |QueueData(queue + [w])| == |QueueData(queue)| + |w.data|
  {
    QueueDataSnoc(queue, w);
    ConcatAssociates(fed, QueueData(queue), w.data);
  }

  /** The promises fulfilled so far, and whether one was fulfilled again. */
  datatype Ledger = Ledger(settled: set<nat>, twice: bool) {
    function Settle(p: nat): Ledger {
      Ledger(settled + {p}, twice || p in settled)
    }
  }

  /**
   * Of the first `issued` promises each is either queued, or with xterm, or fulfilled,
   * never two of these, and none was fulfilled twice.
   */
  ghost predicate Balanced(queue: seq<QueuedWrite>, flight: Option<nat>, issued: nat, ledger: Ledger) {
    && !ledger.twice
    && |queue| <= issued
    && (forall i :: 0 <= i < |queue| ==> queue[i].promise == issued - |queue| + i)
    && (flight.Some? ==> flight.value < issued - |queue|)
    && (forall p: nat :: p in ledger.settled <==> p < issued - |queue| && flight != Some(p))
  }

  lemma SettleHead(queue: seq<QueuedWrite>, flight: Option<nat>, issued: nat, ledger: Ledger)
    requires queue != [] && Balanced(queue, flight, issued, ledger)
    ensures Balanced(queue[1..], flight, issued, ledger.Settle(queue[0].promise))
  {
  }

  lemma SubmitHead(queue: seq<QueuedWrite>, issued: nat, ledger: Ledger)
    requires queue != [] && Balanced(queue, None, issued, ledger)
    ensures Balanced(queue[1..], Some(queue[0].promise), issued, ledger)
  {
  }

  lemma SettleFlight(queue: seq<QueuedWrite>, p: nat, issued: nat, ledger: Ledger)
    requires Balanced(queue, Some(p), issued, ledger)
    ensures Balanced(queue, None, issued, ledger.Settle(p))
  {
  }

  lemma Issue(queue: seq<QueuedWrite>, data: seq<byte>, flight: Option<nat>, issued: nat, ledger: Ledger)
    requires Balanced(queue, flight, issued, ledger)
    ensures Balanced(queue + [QueuedWrite(data, issued)], flight, issued + 1, ledger)
  {
  }

  /** Chunks that carry all of `data`, in order, carry its concatenation. */
  lemma {:induction false} LiveDataIsFlatten(chunks: seq<LiveChunk>, data: seq<seq<byte>>)
    requires |chunks| == |data| && forall i :: 0 <= i < |data| ==> chunks[i].data == data[i]
    ensures LiveData(chunks) == Flatten(data)
  {
    if chunks != [] {
      LiveDataIsFlatten(chunks[1..], data[1..]);
    }
  }

  /** `sent` is the header followed by the first `count` numbered chunks. */
  ghost predicate Covers(sent: seq<byte>, base: seq<byte>, numbered: seq<seq<byte>>, count: nat) {
    count <= |numbered| && sent == base + Flatten(numbered[..count])
  }

  lemma CoversNext(sent: seq<byte>, base: seq<byte>, numbered: seq<seq<byte>>, count: nat)
    requires Covers(sent, base, numbered, count) && count < |numbered|
    ensures Covers(sent + numbered[count], base, numbered, count + 1)
  {
    assert numbered[..count + 1] == numbered[..count] + [numbered[count]];
    FlattenSnoc(numbered[..count], numbered[count]);
    ConcatAssociates(base, Flatten(numbered[..count]), numbered[count]);
  }

  lemma CoversAll(sent: seq<byte>, base: seq<byte>, numbered: seq<seq<byte>>)
    ensures Covers(sent, base, numbered, |numbered|) <==> sent == base + Flatten(numbered)
  {
    assert numbered[..|numbered|] == numbered;
  }

  lemma CoversBound(sent: seq<byte>, base: seq<byte>, numbered: seq<seq<byte>>, count: nat)
    requires Covers(sent, base, numbered, count)
    ensures count <= |numbered|
  {
  }

  lemma CoversMore(sent: seq<byte>, base: seq<byte>, numbered: seq<seq<byte>>, count: nat, chunk: seq<byte>)
    requires Covers(sent, base, numbered, count)
    ensures Covers(sent, base, numbered + [chunk], count)
  {
    assert (numbered + [chunk])[..count] == numbered[..count];
  }

  /** The retained chunks are the newest of the numbered ones, with their numbers. */
  ghost predicate Newest(chunks: seq<LiveChunk>, sequence: nat, numbered: seq<seq<byte>>) {
    && |chunks| <= sequence == |numbered|
    && forall i :: 0 <= i < |chunks| ==>
         chunks[i] == LiveChunk(sequence - |chunks| + i + 1, numbered[sequence - |chunks| + i])
  }

  lemma NewestPush(chunks: seq<LiveChunk>, sequence: nat, numbered: seq<seq<byte>>, data: seq<byte>)
    requires Newest(chunks, sequence, numbered)
    ensures Newest(chunks + [LiveChunk(sequence + 1, data)], sequence + 1, numbered + [data])
    ensures |LiveData(chunks + [LiveChunk(sequence + 1, data)])| == |LiveData(chunks)| + |data|
    ensures Flatten(numbered + [data]) == Flatten(numbered) + data
  {
    LiveDataSnoc(chunks, LiveChunk(sequence + 1, data));
    FlattenSnoc(numbered, data);
  }

  lemma NewestShift(chunks: seq<LiveChunk>, sequence: nat, numbered: seq<seq<byte>>)
    requires Newest(chunks, sequence, numbered) && chunks != []
    ensures Newest(chunks[1..], sequence, numbered)
    ensures |LiveData(chunks)| == |chunks[0].data| + |LiveData(chunks[1..])|
  {
  }

  lemma NewestAll(chunks: seq<LiveChunk>, sequence: nat, numbered: seq<seq<byte>>)
    requires Newest(chunks, sequence, numbered) && |chunks| == sequence
    ensures LiveData(chunks) == Flatten(numbered)
    ensures forall i :: 0 <= i < |chunks| ==> chunks[i] == LiveChunk(i + 1, numbered[i])
  {
    hide LiveData, Flatten;
    assert forall i :: 0 <= i < |chunks| ==> chunks[i] == LiveChunk(sequence - |chunks| + i + 1, numbered[i]);
    LiveDataIsFlatten(chunks, numbered);
  }

  /** What a screen fed `fed` so far shows after one more chunk. */
  lemma ScreenGrows(fed: seq<byte>, data: seq<byte>)
    ensures var next := FilterOf(FilterOf(fed).rest + data);
            FilterOf(fed + data) == Filtered(FilterOf(fed).out + next.out, next.rest)
  {
    FilterResumes(fed, data);
  }

  /** The dimmed note and the history lines of a replay; nothing when there is no history. */
  function HistoryReplay(lines: seq<string>, clientTruncated: bool, exhausted: bool,
                         oldestFetched: nat, oldestAvailable: nat): seq<byte> {
    if lines == [] then []
    else
      var note := if clientTruncated then CLIENT_LIMIT_NOTE
                  else if exhausted || oldestFetched <= oldestAvailable then START_NOTE
                  else SCROLL_NOTE;
      EncodeText("\U{1b}[2m" + note + "\U{1b}[0m\r\n") + EncodeText(JoinLines(lines) + CRLF)
  }

  function JoinLines(lines: seq<string>): string
    requires lines != []
  {
    if |lines| == 1 then lines[0] else lines[0] + CRLF + JoinLines(lines[1..])
  }

  /** What a replay shows before the live bytes. */
  datatype Head = Head(
    lines: seq<string>,
    clientTruncated: bool,
    exhausted: bool,
    oldestFetched: nat,
    oldestAvailable: nat,
    rows: nat,
    snapshot: seq<byte>)

  function Written(h: Head): seq<byte>
    requires RowsSupported(h.rows)
  {
    HistoryReplay(h.lines, h.clientTruncated, h.exhausted, h.oldestFetched, h.oldestAvailable)
    + SnapshotReplayPreamble(h.rows) + h.snapshot
  }

  /** Joined by line breaks and ended by one, lines take the bytes they are charged for. */
  lemma {:induction false} JoinedSize(lines: seq<string>)
    requires lines != []
    ensures |EncodeText(JoinLines(lines) + CRLF)| == LineBytes(lines)
  {
    hide EncodeText;
    assert |EncodeText(CRLF)| == 2 by { CrlfSize(); }
    EncodeTextAppend(JoinLines(lines), CRLF);
    if |lines| == 1 {
      assert LineBytes(lines[1..]) == 0;
    } else {
      JoinedSize(lines[1..]);
      EncodeTextAppend(JoinLines(lines[1..]), CRLF);
      EncodeTextAppend(lines[0], CRLF);
      EncodeTextAppend(lines[0] + CRLF, JoinLines(lines[1..]));
    }
  }

  lemma CrlfSize()
    ensures |EncodeText(CRLF)| == 2
  {
    assert CRLF[1..] == ['\n'] && CRLF[1..][1..] == [];
  }

  lemma NoteSize(lines: seq<string>, clientTruncated: bool, exhausted: bool, fetched: nat, available: nat)
    ensures |HistoryReplay(lines, clientTruncated, exhausted, fetched, available)| <= LineBytes(lines) + 400
  {
    hide EncodeText;
    if lines != [] {
      JoinedSize(lines);
      var note := if clientTruncated then CLIENT_LIMIT_NOTE
                  else if exhausted || fetched <= available then START_NOTE
                  else SCROLL_NOTE;
      EncodeTextSize("\U{1b}[2m" + note + "\U{1b}[0m\r\n");
    }
  }

  /** A header with a full history leaves room for a full write queue, unless the snapshot is very large. */
  lemma HeaderFits(h: Head)
    requires RowsSupported(h.rows) && LineBytes(h.lines) <= HISTORY_RENDER_BYTE_CAP && |h.snapshot| <= SNAPSHOT_ROOM
    ensures |Written(h)| + TERMINAL_WRITE_QUEUE_CAP <= TERMINAL_REPLAY_CAP
  {
    hide HistoryReplay, SnapshotReplayPreamble;
    NoteSize(h.lines, h.clientTruncated, h.exhausted, h.oldestFetched, h.oldestAvailable);
    PreambleFits(h.rows);
  }

  // ---- What a header says, spelled out, and what it draws ----

  /** The dimmed line above the history: whether this is all that can be shown, all there is, or not all. */
  function NoteLine(h: Head): seq<byte> {
    EncodeText("\U{1b}[2m" + NoteText(h) + "\U{1b}[0m")
  }

  function NoteText(h: Head): string {
    if h.clientTruncated then "\U{2500}\U{2500} local history display limit reached \U{2500}\U{2500}"
    else if !h.exhausted && h.oldestFetched > h.oldestAvailable
    then "\U{2500}\U{2500} scroll up for older history \U{2500}\U{2500}"
    else "\U{2500}\U{2500} start of retained history \U{2500}\U{2500}"
  }

  /** The note and the history lines, oldest first; nothing without history. */
  function HeadLines(h: Head): seq<seq<byte>> {
    if h.lines == [] then [] else [NoteLine(h)] + Encoded(h.lines)
  }

  /** The lines, one viewport of line breaks, the home position, and the snapshot. */
  function Spelled(h: Head): seq<byte> {
    Lines(HeadLines(h)) + Lines(Blanks(h.rows)) + CURSOR_HOME + h.snapshot
  }

  lemma CrlfIs()
    ensures EncodeText(CRLF) == LINE_BREAK && EncodeText(HOME) == CURSOR_HOME
  {
    assert CRLF[1..] == ['\n'] && CRLF[1..][1..] == [];
    assert HOME[1..] == "[H" && HOME[1..][1..] == "H" && HOME[1..][1..][1..] == [];
  }

  lemma {:induction false} PreambleIs(rows: nat)
    ensures EncodeText(Repeat(CRLF, rows)) == Lines(Blanks(rows))
  {
    hide EncodeText;
    if rows == 0 {
      EmptyText();
    } else {
      PreambleIs(rows - 1);
      CrlfIs();
      EncodeTextAppend(CRLF, Repeat(CRLF, rows - 1));
      assert Blanks(rows)[1..] == Blanks(rows - 1);
      assert [] + LINE_BREAK == LINE_BREAK;
    }
  }

  lemma EmptyText()
    ensures EncodeText([]) == []
  {
  }

  function Encoded(lines: seq<string>): seq<seq<byte>> {
    seq(|lines|, i requires 0 <= i < |lines| => EncodeText(lines[i]))
  }

  lemma {:induction false} JoinedIs(lines: seq<string>)
    requires lines != []
    ensures EncodeText(JoinLines(lines) + CRLF) == Lines(Encoded(lines))
  {
    hide EncodeText;
    CrlfIs();
    EncodeTextAppend(JoinLines(lines), CRLF);
    assert Encoded(lines)[0] == EncodeText(lines[0]) && Encoded(lines)[1..] == Encoded(lines[1..]);
    if |lines| == 1 {
      assert Lines(Encoded(lines[1..])) == [];
    } else {
      JoinedIs(lines[1..]);
      EncodeTextAppend(JoinLines(lines[1..]), CRLF);
      EncodeTextAppend(lines[0], CRLF);
      EncodeTextAppend(lines[0] + CRLF, JoinLines(lines[1..]));
    }
  }

  lemma HistoryIs(h: Head)
    ensures HistoryReplay(h.lines, h.clientTruncated, h.exhausted, h.oldestFetched, h.oldestAvailable)
         == Lines(HeadLines(h))
  {
    hide EncodeText;
    if h.lines != [] {
      JoinedIs(h.lines);
      var note := if h.clientTruncated then CLIENT_LIMIT_NOTE
                  else if h.exhausted || h.oldestFetched <= h.oldestAvailable then START_NOTE
                  else SCROLL_NOTE;
      var line := "\U{1b}[2m" + note + "\U{1b}[0m";
      assert "\U{1b}[2m" + note + "\U{1b}[0m\r\n" == line + CRLF;
      EncodeTextAppend(line, CRLF);
      CrlfIs();
      assert note == NoteText(h);
      assert HeadLines(h)[1..] == Encoded(h.lines);
    }
  }

  /** The header that is written is the one spelled out. */
  lemma WrittenIsSpelled(h: Head)
    requires RowsSupported(h.rows)
    ensures Written(h) == Spelled(h)
  {
    hide EncodeText, HistoryReplay, HeadLines, Lines;
    HistoryIs(h);
    PreambleIs(h.rows);
    CrlfIs();
    EncodeTextAppend(Repeat(CRLF, h.rows), HOME);
  }

  /**
   * On an empty screen the header scrolls note and history off above a blank line, and the snapshot is drawn from
   * the top of an empty viewport. History lines must be lines: without line breaks or home positions in them.
   */
  lemma HeaderDraws(h: Head)
    requires RowsSupported(h.rows) && forall i :: 0 <= i < |h.lines| ==> Plain(EncodeText(h.lines[i]))
    ensures Draw(Blank(h.rows), Spelled(h)) == Draw(Screen(HeadLines(h) + [[]], Blanks(h.rows), 0), h.snapshot)
  {
    hide EncodeText, Draw, Lines, Plain;
    if h.lines != [] { NoteIsPlain(h); }
    DrawsBelow(HeadLines(h), h.rows, h.snapshot);
  }

  /** An ASCII byte of an encoding is a character of the text. */
  lemma {:induction false} AsciiComesFromText(text: string, b: byte)
    requires b < 128 && (b as char) !in text
    ensures b !in EncodeText(text)
  {
    if text != [] {
      assert text == [text[0]] + text[1..];
      AsciiComesFromText(text[1..], b);
      AsciiCharacter(text[0], b);
    }
  }

  lemma AsciiCharacter(c: char, b: byte)
    requires b < 128 && c != b as char
    ensures b !in Encode(c)
  {
  }

  lemma NoteIsPlain(h: Head)
    ensures Plain(NoteLine(h))
  {
    hide EncodeText;
    NoteIsFree(h);
    PlainWithout("\U{1b}[2m" + NoteText(h) + "\U{1b}[0m");
  }

  lemma NoteIsFree(h: Head)
    ensures '\r' !in NoteText(h) && 'H' !in NoteText(h)
  {
    LimitIsFree();
    ScrollIsFree();
    StartIsFree();
  }

  lemma LimitIsFree()
    ensures '\r' !in "\U{2500}\U{2500} local history display limit reached \U{2500}\U{2500}"
    ensures 'H' !in "\U{2500}\U{2500} local history display limit reached \U{2500}\U{2500}"
  {
  }

  lemma ScrollIsFree()
    ensures '\r' !in "\U{2500}\U{2500} scroll up for older history \U{2500}\U{2500}"
    ensures 'H' !in "\U{2500}\U{2500} scroll up for older history \U{2500}\U{2500}"
  {
  }

  lemma StartIsFree()
    ensures '\r' !in "\U{2500}\U{2500} start of retained history \U{2500}\U{2500}"
    ensures 'H' !in "\U{2500}\U{2500} start of retained history \U{2500}\U{2500}"
  {
  }

  lemma PlainWithout(text: string)
    requires '\r' !in text && 'H' !in text
    ensures Plain(EncodeText(text))
  {
    hide EncodeText;
    AsciiComesFromText(text, 13);
    AsciiComesFromText(text, 72);
    var bytes := EncodeText(text);
    forall i | 0 <= i < |bytes| ensures !(LINE_BREAK <= bytes[i..]) && !(CURSOR_HOME <= bytes[i..]) {
      assert bytes[i] != 13;
      assert i + 2 < |bytes| ==> bytes[i..][2] == bytes[i + 2] != 72;
    }
  }

  predicate IsSuffix(a: seq<string>, b: seq<string>) {
    |a| <= |b| && b[|b| - |a|..] == a
  }

  lemma SuffixGrows(a: seq<string>, b: seq<string>, more: seq<string>)
    requires IsSuffix(a, b)
    ensures IsSuffix(a, more + b)
  {
    assert (more + b)[|more + b| - |a|..] == b[|b| - |a|..];
  }

  /** xterm as the tab sees it: a byte sink that is reset or written, and calls back once per write. */
  class Xterm {
    /** All bytes written since the last reset. */
    var input: seq<byte>
    var outstanding: seq<Callback>
    /** Whether a reset or a write was ever issued while another write was outstanding. */
    ghost var overlapped: bool

    constructor ()
      ensures input == [] && outstanding == [] && !overlapped
    {
      input, outstanding, overlapped := [], [], false;
    }

    method Reset()
      modifies this
      ensures input == [] && outstanding == old(outstanding)
      ensures overlapped <==> old(overlapped) || old(outstanding) != []
    {
      overlapped := overlapped || outstanding != [];
      input := [];
    }

    method Write(data: seq<byte>, callback: Callback)
      modifies this
      ensures input == old(input) + data && outstanding == old(outstanding) + [callback]
      ensures overlapped <==> old(overlapped) || old(outstanding) != []
    {
      overlapped := overlapped || outstanding != [];
      input := input + data;
      outstanding := outstanding + [callback];
    }

    method Complete() returns (callback: Callback)
      requires outstanding != []
      modifies this
      ensures callback == old(outstanding)[0] && outstanding == old(outstanding)[1..]
      ensures input == old(input) && overlapped == old(overlapped)
    {
      callback := outstanding[0];
      outstanding := outstanding[1..];
    }
  }

  /** What can happen to a tab between two turns of the event loop. */
  datatype Event =
    | ChannelMessage(bytes: seq<byte>, generation: nat)
    | Notice(text: string)
    | PrependHistory(lines: seq<string>)
    | HistoryCursor(oldestFetched: nat, oldestAvailable: nat, exhausted: bool)
    | Reattach
    | Render
    | Resize(rows: nat)
    | XtermCallback
    | Microtask
    | BeginClose
    | CloseFailed
    | Dispose

  class Tab {
    const term: Xterm
    const outputFilter: TerminalOutputFilter

    var rows: nat
    var snapshot: seq<byte>
    var awaitingSnapshot: bool
    var historyLines: seq<string>
    var historyBytes: nat
    var historyClientTruncated: bool
    var oldestFetched: nat
    var oldestAvailable: nat
    var historyExhausted: bool
    var attachmentGeneration: nat
    var liveChunks: seq<LiveChunk>
    var liveBytes: nat
    var liveOverflowed: bool
    var liveSequence: nat
    var writeQueue: seq<QueuedWrite>
    var writeQueueBytes: nat
    var writeInFlight: bool
    var replayInFlight: bool
    var renderPending: bool
    var recoveryRequested: bool
    var presented: bool
    var closing: bool
    /** Pumps handed to queueMicrotask and not run yet. */
    var microtasks: nat

    /** Every live byte of the current attachment, kept or not. */
    ghost var live: seq<byte>
    /** In how many chunks they came. */
    ghost var chunks: nat
    /** The live chunks that were small enough to be numbered: chunk `k` has sequence `k + 1`. */
    ghost var numbered: seq<seq<byte>>
    /** Whether a live chunk of this attachment was too large to be numbered. */
    ghost var lost: bool
    /** History, preamble and snapshot of the last replay: what they were, and as bytes. */
    ghost var head: Head
    ghost var base: seq<byte>
    /** Whether the last replay was composed before the snapshot had come. */
    ghost var early: bool
    /** Whether a render of this attachment was asked for before its snapshot had come. */
    ghost var askedEarly: bool
    /** Whether an open tab was asked to render this attachment. */
    ghost var rendered: bool
    /** Raw bytes handed to the filter since the last terminal reset. */
    ghost var fed: seq<byte>
    /** Whether the tab was reset for a new attachment and has not started a replay since. */
    ghost var stale: bool
    /** Promises created so far; each has the number of those before it. */
    var issued: nat
    /** The promises already fulfilled. */
    ghost var ledger: Ledger
    /** How often the delegate was asked to recover this attachment. */
    ghost var recoveries: nat
    /** Whether the pending render was refused for its row count. */
    ghost var rowsRefused: bool
    /** Whether a render of this attachment was asked for. */
    ghost var wanted: bool
    /** Whether, since the last attach, something completed or was pumped while a close was under way. */
    ghost var stalled: bool
    /** Whether the tab is gone for good; a close that fails ends without this. */
    var disposed: bool

    // ---- What every run keeps ----

    /** At most one xterm write is outstanding, none overlapped another, and the flags say which. */
    ghost predicate FlightOk()
      reads this`writeInFlight, this`replayInFlight, term
    {
      && !term.overlapped
      && |term.outstanding| <= 1
      && (writeInFlight <==> term.outstanding != [] && term.outstanding[0].WriteDone?)
      && (replayInFlight <==> term.outstanding != [] && term.outstanding[0].ReplayDone?)
    }

    ghost function FlightPromise(): Option<nat>
      reads term
    {
      if |term.outstanding| > 0 && term.outstanding[0].WriteDone? then Some(term.outstanding[0].promise) else None
    }

    ghost predicate PromisesOk()
      reads this`writeQueue, this`issued, this`ledger, term
    {
      Balanced(writeQueue, FlightPromise(), issued, ledger)
    }

    /** The counters are the sums they stand for and stay within their caps. */
    ghost predicate QueueOk()
      reads this`writeQueue, this`writeQueueBytes
    {
      && writeQueueBytes == |QueueData(writeQueue)| <= TERMINAL_WRITE_QUEUE_CAP
      && |writeQueue| <= TERMINAL_WRITE_QUEUE_CHUNK_CAP
    }

    ghost predicate HistoryOk()
      reads this`historyLines, this`historyBytes
    {
      && historyBytes == LineBytes(historyLines) <= HISTORY_RENDER_BYTE_CAP
      && |historyLines| <= HISTORY_RENDER_LINE_CAP
    }

    /**
     * The last replay of this attachment began with the history shown then, which is the newest part of the
     * history shown now, and with the snapshot, or without one if it was composed before the snapshot had come.
     */
    ghost predicate HeadOk()
      reads this`snapshot, this`awaitingSnapshot, this`base, this`head, this`historyLines, this`early, this`askedEarly
    {
      && RowsSupported(head.rows) && base == Written(head)
      && head.snapshot == (if early then [] else snapshot)
      && (awaitingSnapshot ==> early) && (early ==> askedEarly)
      && IsSuffix(head.lines, historyLines)
    }

    ghost predicate ShownOk()
      reads this`historyLines, this`historyBytes, this`awaitingSnapshot, this`snapshot, this`stale, this`base, this`head
      reads this`early, this`askedEarly, this`wanted
    {
      && HistoryOk()
      && (awaitingSnapshot ==> snapshot == []) && (wanted && awaitingSnapshot ==> askedEarly)
      && (!stale ==> HeadOk())
    }

    /** The delegate is asked at most once per attachment. */
    ghost predicate RecoveryOk()
      reads this`recoveryRequested, this`recoveries
    {
      recoveries == if recoveryRequested then 1 else 0
    }

    /** The retained chunks are the newest numbered ones, all of them until something overflowed. */
    ghost predicate RetainedOk()
      reads this`liveChunks, this`liveBytes, this`liveSequence, this`liveOverflowed, this`numbered, this`lost, this`live
    {
      && liveBytes == |LiveData(liveChunks)|
      && |numbered| == liveSequence && Newest(liveChunks, liveSequence, numbered)
      && (!liveOverflowed ==> |liveChunks| == liveSequence)
      && (lost ==> liveOverflowed)
      && (!lost ==> live == Flatten(numbered))
    }

    ghost predicate LiveOk()
      reads this`liveChunks, this`liveBytes, this`liveSequence, this`liveOverflowed, this`numbered, this`lost, this`live
    {
      RetainedOk() && liveBytes <= LIVE_BUFFER_CAP && |liveChunks| <= LIVE_CHUNK_CAP
    }

    /** xterm holds the filtered form of what was fed, whatever the chunks were. */
    ghost predicate ScreenOk()
      reads this`stale, this`fed, term, outputFilter
    {
      && outputFilter.Valid()
      && (!stale ==> Filtered(term.input, outputFilter.pending) == FilterOf(fed))
    }

    /** What concerns the write queue, xterm and the filter only. */
    ghost predicate PipeOk()
      reads this`writeInFlight, this`replayInFlight, this`writeQueue, this`writeQueueBytes, this`issued, this`ledger
      reads this`stale, this`fed, term, outputFilter
    {
      FlightOk() && PromisesOk() && QueueOk() && ScreenOk()
    }

    /** A pending render, a queued write or a wanted presentation that nothing will ever attend to by itself. */
    ghost predicate Stuck()
      reads this`renderPending, this`writeInFlight, this`replayInFlight, this`rowsRefused, this`writeQueue
      reads this`microtasks, this`wanted, this`recoveryRequested, this`presented
    {
      RenderStuck() || (writeQueue != [] && !writeInFlight && microtasks == 0) || ViewStuck()
    }

    ghost predicate RenderStuck()
      reads this`renderPending, this`writeInFlight, this`replayInFlight, this`rowsRefused
    {
      renderPending && !writeInFlight && !replayInFlight && !rowsRefused
    }

    ghost predicate ViewStuck()
      reads this`wanted, this`recoveryRequested, this`presented, this`replayInFlight, this`renderPending
    {
      wanted && !recoveryRequested && !presented && !replayInFlight && !renderPending
    }

    /** Nothing is ever forgotten, unless something completed while a close was under way. */
    ghost predicate ProgressOk()
      reads this`renderPending, this`writeInFlight, this`replayInFlight, this`rowsRefused, this`writeQueue
      reads this`microtasks, this`wanted, this`recoveryRequested, this`presented, this`closing, this`stale
      reads this`stalled, this`disposed, this`attachmentGeneration, term
    {
      && (Stuck() ==> stalled || disposed)
      && Placed()
    }

    /** Where a pending render, a queued write and a presentation may occur together. */
    ghost predicate Placed()
      reads this`renderPending, this`replayInFlight, this`rowsRefused, this`writeQueue, this`wanted
      reads this`recoveryRequested, this`presented, this`closing, this`stale, this`disposed
      reads this`attachmentGeneration, term
    {
      && (disposed ==> closing)
      && (rowsRefused ==> renderPending) && (renderPending ==> wanted)
      && (writeQueue != [] ==> !renderPending && !replayInFlight && !stale && !disposed)
      && (presented ==> !renderPending && !replayInFlight && !stale)
      && (replayInFlight && wanted && !recoveryRequested && !renderPending ==> ReplayIsCurrent())
    }

    ghost predicate ReplayIsCurrent()
      reads this`attachmentGeneration, term
    {
      |term.outstanding| > 0 && term.outstanding[0].ReplayDone?
      && term.outstanding[0].generation == attachmentGeneration
    }

    /** A replay of the current attachment carries everything numbered when it started. */
    ghost predicate ReplayOk()
      reads this`attachmentGeneration, this`stale, this`numbered, this`liveOverflowed, this`fed, this`base, term
    {
      |term.outstanding| > 0 && term.outstanding[0].ReplayDone? ==>
        var r := term.outstanding[0];
        && r.generation <= attachmentGeneration
        && (r.generation == attachmentGeneration ==>
              && !stale
              && r.coveredThrough <= |numbered|
              && (!liveOverflowed ==> Covers(fed, base, numbered, r.coveredThrough)))
    }

    /** Fed bytes, then queued bytes, are the replay's header, then every live byte. */
    ghost predicate ExactOk()
      reads this`presented, this`recoveryRequested, this`disposed, this`lost
      reads this`fed, this`writeQueue, this`base, this`live
    {
      presented && !recoveryRequested && !disposed ==>
        && !lost
        && Sent(fed, writeQueue) == base + live
    }

    ghost predicate Valid()
      reads this, term, outputFilter
    {
      PipeOk() && ShownOk() && RecoveryOk() && LiveOk() && ReplayOk() && ProgressOk() && ExactOk()
    }

    constructor (rows: nat)
      ensures Valid() && fresh(term) && fresh(outputFilter)
      ensures live == [] && liveChunks == [] && snapshot == [] && historyLines == [] && attachmentGeneration == 0
      ensures this.rows == rows && awaitingSnapshot && !closing && !disposed && !presented && !stalled && !wanted
      ensures !rowsRefused && !recoveryRequested && !liveOverflowed && !writeInFlight && !replayInFlight
      ensures chunks == 0 && liveBytes == 0 && writeQueue == [] && writeQueueBytes == 0 && !askedEarly && !rendered
      ensures Paged() == PageOf(rows, []) && stale
    {
      hide FilterOf, Sent, Covers, Written, IsSuffix, RowsSupported;
      term := new Xterm();
      outputFilter := new TerminalOutputFilter();
      this.rows := rows;
      snapshot, awaitingSnapshot := [], true;
      historyLines, historyBytes, historyClientTruncated := [], 0, false;
      oldestFetched, oldestAvailable, historyExhausted := 0, 1, false;
      attachmentGeneration := 0;
      liveChunks, liveBytes, liveOverflowed, liveSequence := [], 0, false, 0;
      writeQueue, writeQueueBytes := [], 0;
      writeInFlight, replayInFlight, renderPending := false, false, false;
      recoveryRequested, presented, closing, microtasks := false, false, false, 0;
      live, numbered, lost, base, fed, stale := [], [], false, [], [], true;
      head, early, askedEarly, rendered, chunks := Head([], false, false, 0, 0, 0, []), false, false, false, 0;
      issued, ledger, recoveries, rowsRefused := 0, Ledger({}, false), 0, false;
      wanted, stalled, disposed := false, false, false;
    }

    /** What the invariant says to an observer. */
    lemma Shows()
      requires Valid()
      ensures presented && !recoveryRequested && !disposed ==> Sent(fed, writeQueue) == base + live && !stale
      ensures presented ==> !stale
      ensures presented ==>
                && RowsSupported(head.rows) && base == Written(head) && IsSuffix(head.lines, historyLines)
                && head.snapshot == (if early then [] else snapshot) && (early ==> askedEarly)
                && (awaitingSnapshot ==> early)
      ensures !stale ==> Filtered(term.input, outputFilter.pending) == FilterOf(fed)
      ensures Stuck() ==> stalled || disposed
      ensures AtRest() ==> writeQueue == []
      ensures disposed ==> closing
    {
      hide Balanced, FilterOf, Sent, LiveOk, HistoryOk, ReplayOk, Written;
    }

    /** What was asked to render is presented or on its way, unless the load is heavy or something went wrong. */
    lemma OnItsWay()
      requires Valid() && LoadOk() && rendered && !Heavy(Told()) && !stalled && !disposed && !rowsRefused
      ensures presented || replayInFlight || (renderPending && writeInFlight)
    {
      hide PipeOk, ShownOk, RecoveryOk, LiveOk, ReplayOk, ExactOk;
    }

    /** Presented, open, not given up, and nothing left to happen by itself. */
    ghost predicate AtRest()
      reads this, term
    {
      presented && !recoveryRequested && !closing && !stalled && term.outstanding == [] && microtasks == 0
    }

    // ---- The write queue ----

    method ClearWriteQueue()
      requires PromisesOk()
      modifies this`writeQueue, this`writeQueueBytes, this`ledger
      ensures PromisesOk() && QueueOk() && writeQueue == [] && writeQueueBytes == 0
    {
      hide Balanced;
      for i := 0 to |writeQueue|
        invariant Balanced(writeQueue[i..], FlightPromise(), issued, ledger)
      {
        SettleHead(writeQueue[i..], FlightPromise(), issued, ledger);
        assert writeQueue[i..][1..] == writeQueue[i + 1..];
        ledger := ledger.Settle(writeQueue[i].promise);
      }
      writeQueue := [];
      writeQueueBytes := 0;
    }

    method RequestRecovery()
      requires RecoveryOk()
      modifies this`recoveryRequested, this`recoveries
      ensures RecoveryOk()
      ensures recoveryRequested <==> old(recoveryRequested) || !closing
    {
      if recoveryRequested || closing { return; }
      recoveryRequested := true;
      recoveries := recoveries + 1;
    }

    predicate Busy()
      reads this`writeInFlight, this`replayInFlight, this`renderPending, this`closing
    {
      writeInFlight || replayInFlight || renderPending || closing
    }

    /** Hands the next queued write to xterm, unless something is already in flight. */
    method PumpWrites()
      requires PipeOk()
      requires writeQueue != [] ==> !stale && !renderPending && !replayInFlight
      modifies this`writeQueue, this`writeQueueBytes, this`writeInFlight, this`ledger
      modifies this`microtasks, this`fed, term, outputFilter
      ensures PipeOk()
      ensures writeQueue == if old(Busy() || writeQueue == []) then old(writeQueue) else old(writeQueue)[1..]
      ensures writeQueueBytes <= old(writeQueueBytes)
      ensures old(writeQueue) == [] ==>
                && writeQueue == [] && fed == old(fed)
                && writeInFlight == old(writeInFlight) && term.outstanding == old(term.outstanding)
      ensures closing ==> writeInFlight == old(writeInFlight) && microtasks == old(microtasks)
      ensures writeQueue != [] && !closing ==> writeInFlight || microtasks > 0
      ensures Sent(fed, writeQueue) == old(Sent(fed, writeQueue))
      ensures !replayInFlight ==> ReplayOk()
    {
      hide PipeOk, ReplayOk, Sent;
      if !replayInFlight { NoReplay(); }
      if writeInFlight || replayInFlight || renderPending || closing { return; }
      if writeQueue == [] { return; }
      PumpHead();
    }

    lemma NoReplay()
      requires PipeOk() && !replayInFlight
      ensures ReplayOk()
    {
    }

    method PumpHead()
      requires PipeOk() && writeQueue != [] && !stale && !Busy()
      modifies this`writeQueue, this`writeQueueBytes, this`writeInFlight, this`ledger
      modifies this`microtasks, this`fed, term, outputFilter
      ensures PipeOk() && ReplayOk() && (writeInFlight || microtasks > 0)
      ensures writeQueue == old(writeQueue)[1..] && writeQueueBytes <= old(writeQueueBytes)
      ensures Sent(fed, writeQueue) == old(Sent(fed, writeQueue))
    {
      hide FilterOf, Balanced, QueueData, Sent;
      var queued := writeQueue[0];
      SubmitHead(writeQueue, issued, ledger);
      SendHead(fed, writeQueue);
      writeQueue := writeQueue[1..];
      writeQueueBytes := writeQueueBytes - |queued.data|;
      writeInFlight := true;
      var filtered := outputFilter.Filter(queued.data);
      ScreenGrows(fed, queued.data);
      fed := fed + queued.data;
      if filtered == [] {
        writeInFlight := false;
        SettleFlight(writeQueue, queued.promise, issued, ledger);
        ledger := ledger.Settle(queued.promise);
        microtasks := microtasks + 1;
        return;
      }
      term.Write(filtered, WriteDone(queued.promise));
    }

    ghost predicate HasRoom(data: seq<byte>)
      reads this`writeQueue, this`writeQueueBytes
    {
      |data| <= TERMINAL_WRITE_QUEUE_CAP - writeQueueBytes && |writeQueue| < TERMINAL_WRITE_QUEUE_CHUNK_CAP
    }

    /** Queues one live chunk, or gives the presentation up when the queue has no room for it. */
    method EnqueueWrite(data: seq<byte>)
      requires PipeOk() && RecoveryOk()
      requires !stale && !closing && !renderPending && !replayInFlight
      modifies this`writeQueue, this`writeQueueBytes, this`writeInFlight, this`ledger
      modifies this`microtasks, this`fed, term, outputFilter
      modifies this`issued, this`presented, this`recoveryRequested, this`recoveries
      ensures PipeOk() && RecoveryOk() && ReplayOk()
      ensures writeQueue != [] ==> writeInFlight || microtasks > 0
      ensures presented <==> old(presented && HasRoom(data))
      ensures recoveryRequested <==> old(recoveryRequested || !HasRoom(data))
      ensures |writeQueue| <= |old(writeQueue)| + 1 && writeQueueBytes <= old(writeQueueBytes) + |data|
      ensures if old(HasRoom(data)) then Sent(fed, writeQueue) == old(Sent(fed, writeQueue)) + data
              else writeQueue == [] && fed == old(fed)
    {
      hide FilterOf, Balanced, QueueData, Sent;
      if |data| > TERMINAL_WRITE_QUEUE_CAP - writeQueueBytes || |writeQueue| >= TERMINAL_WRITE_QUEUE_CHUNK_CAP {
        GiveUp(data);
        NoReplay();
        return;
      }
      SendLater(fed, writeQueue, QueuedWrite(data, issued));
      Issue(writeQueue, data, FlightPromise(), issued, ledger);
      writeQueue := writeQueue + [QueuedWrite(data, issued)];
      issued := issued + 1;
      writeQueueBytes := writeQueueBytes + |data|;
      PumpWrites();
    }

    /** The queue is emptied, the chunk counts as consumed, and the delegate is asked for a fresh screen. */
    method GiveUp(data: seq<byte>)
      requires PipeOk() && RecoveryOk() && !closing
      modifies this`writeQueue, this`writeQueueBytes, this`ledger
      modifies this`issued, this`presented, this`recoveryRequested, this`recoveries
      ensures PipeOk() && RecoveryOk() && !presented && recoveryRequested && writeQueue == [] && writeQueueBytes == 0
    {
      hide FilterOf, Balanced, QueueData;
      ClearWriteQueue();
      presented := false;
      Issue([], data, FlightPromise(), issued, ledger);
      SettleHead([QueuedWrite(data, issued)], FlightPromise(), issued + 1, ledger);
      ledger := ledger.Settle(issued);
      issued := issued + 1;
      RequestRecovery();
    }

    // ---- Replays ----

    /** What a replay started now shows before the live bytes. */
    ghost function Header(): seq<byte>
      requires RowsSupported(rows)
      reads this`historyLines, this`historyClientTruncated, this`historyExhausted, this`oldestFetched
      reads this`oldestAvailable, this`rows, this`snapshot
    {
      Written(CurrentHead())
    }

    ghost function CurrentHead(): Head
      reads this`historyLines, this`historyClientTruncated, this`historyExhausted, this`oldestFetched
      reads this`oldestAvailable, this`rows, this`snapshot
    {
      Head(historyLines, historyClientTruncated, historyExhausted, oldestFetched, oldestAvailable, rows, snapshot)
    }

    method BuildReplay() returns (replay: Option<seq<byte>>)
      requires RowsSupported(rows)
      ensures replay == (if |Header() + LiveData(liveChunks)| <= TERMINAL_REPLAY_CAP
                         then Some(Header() + LiveData(liveChunks)) else None)
      ensures Header() == Spelled(CurrentHead())
    {
      hide EncodeText, SnapshotReplayPreamble, JoinLines, Flatten;
      var parts: seq<seq<byte>> := [];
      FlattenNone<byte>();
      if historyLines != [] {
        var note := if historyClientTruncated then CLIENT_LIMIT_NOTE
                    else if historyExhausted || oldestFetched <= oldestAvailable then START_NOTE
                    else SCROLL_NOTE;
        parts := [EncodeText("\U{1b}[2m" + note + "\U{1b}[0m\r\n"), EncodeText(JoinLines(historyLines) + CRLF)];
        FlattenPair(parts[0], parts[1]);
      }
      FlattenSnoc(parts, SnapshotReplayPreamble(rows));
      parts := parts + [SnapshotReplayPreamble(rows)];
      FlattenSnoc(parts, snapshot);
      parts := parts + [snapshot];
      assert Flatten(parts) == Header();
      for i := 0 to |liveChunks|
        invariant Flatten(parts) == Header() + LiveData(liveChunks[..i])
      {
        FlattenSnoc(parts, liveChunks[i].data);
        LiveDataSnoc(liveChunks[..i], liveChunks[i]);
        assert liveChunks[..i + 1] == liveChunks[..i] + [liveChunks[i]];
        ConcatAssociates(Header(), LiveData(liveChunks[..i]), liveChunks[i].data);
        parts := parts + [liveChunks[i].data];
      }
      assert liveChunks[..|liveChunks|] == liveChunks;
      WrittenIsSpelled(CurrentHead());
      replay := ComposeBoundedReplay(parts, TERMINAL_REPLAY_CAP);
    }

    /** Resets terminal and filter and writes the whole replay, remembering what it covers. */
    method BeginReplay(replay: seq<byte>)
      requires PipeOk() && ShownOk() && LiveOk() && !writeInFlight && !replayInFlight && wanted
      requires RowsSupported(rows) && replay == Header() + LiveData(liveChunks)
      modifies this`replayInFlight, this`base, this`head, this`early, this`fed, this`stale, term, outputFilter
      ensures PipeOk() && ShownOk() && ReplayOk() && replayInFlight && !stale
      ensures base == Header() && head == CurrentHead()
      ensures term.outstanding == [ReplayDone(attachmentGeneration, liveSequence)]
    {
      hide PipeOk, HistoryOk, HeadOk, Flatten, LiveData, Newest, Header, Covers;
      if !liveOverflowed {
        NewestAll(liveChunks, liveSequence, numbered);
        CoversAll(replay, Header(), numbered);
      }
      SetHead();
      ClearScreen();
      WriteReplay(replay);
    }

    ghost method SetHead()
      requires RowsSupported(rows) && (awaitingSnapshot ==> snapshot == [] && askedEarly)
      modifies this`base, this`head, this`early
      ensures HeadOk() && base == Header() && head == CurrentHead()
    {
      hide Written;
      head, base, early := CurrentHead(), Header(), awaitingSnapshot;
    }

    method ClearScreen()
      requires PipeOk() && !writeInFlight && !replayInFlight
      modifies this`fed, this`stale, term, outputFilter
      ensures PipeOk() && !stale && fed == [] && outputFilter.pending == []
    {
      hide Balanced, QueueOk, FilterOf;
      StaysPending([]);
      term.Reset();
      outputFilter.Reset();
      fed, stale := [], false;
    }

    method WriteReplay(replay: seq<byte>)
      requires PipeOk() && !writeInFlight && !replayInFlight && !stale && fed == [] && outputFilter.pending == []
      modifies this`replayInFlight, this`fed, term, outputFilter
      ensures PipeOk() && replayInFlight && fed == replay
      ensures term.outstanding == [ReplayDone(attachmentGeneration, liveSequence)]
    {
      hide FilterOf, Balanced, QueueOk;
      StaysPending([]);
      AfterNothing(replay);
      var filtered := outputFilter.Filter(replay);
      AfterNothing(filtered);
      fed := replay;
      replayInFlight := true;
      term.Write(filtered, ReplayDone(attachmentGeneration, liveSequence));
    }

    /** Starts the pending render when nothing is in flight; the terminal is reset only then. */
    method StartRenderIfIdle()
      requires PipeOk() && ShownOk() && RecoveryOk() && LiveOk() && ReplayOk()
      requires (rowsRefused ==> renderPending) && (renderPending ==> wanted)
      modifies this`renderPending, this`replayInFlight, this`recoveryRequested, this`recoveries
      modifies this`base, this`head, this`early, this`fed, this`stale, this`rowsRefused, term, outputFilter
      ensures PipeOk() && ShownOk() && RecoveryOk() && ReplayOk() && BaseIsHeader()
      ensures rowsRefused ==> renderPending && (old(rowsRefused) || !RowsSupported(rows))
      ensures if old(!renderPending || writeInFlight || replayInFlight || closing) then Untouched()
              else if !RowsSupported(rows)
              then rowsRefused && renderPending && !replayInFlight && recoveryRequested == old(recoveryRequested)
              else if |Header() + LiveData(liveChunks)| > TERMINAL_REPLAY_CAP
              then !renderPending && !replayInFlight && recoveryRequested
              else && recoveryRequested == old(recoveryRequested)
                   && !renderPending && replayInFlight && !stale && base == Header()
                   && term.outstanding == [ReplayDone(attachmentGeneration, liveSequence)]
      ensures old(recoveryRequested) ==> recoveryRequested
      ensures recoveryRequested && !old(recoveryRequested) ==> Overloaded()
      ensures !replayInFlight ==> stale == old(stale) && fed == old(fed)
    {
      hide PipeOk, ShownOk, LiveOk, ReplayOk, RecoveryOk, Header, LiveData, Spelled, CurrentHead;
      if !renderPending || writeInFlight || replayInFlight || closing { return; }
      if !RowsSupported(rows) {
        // The preamble throws a RangeError before anything has changed.
        rowsRefused := true;
        return;
      }
      rowsRefused := false;
      var replay := BuildReplay();
      if replay.None? {
        renderPending := false;
        RequestRecovery();
        return;
      }
      renderPending := false;
      BeginReplay(replay.value);
    }

    /** More than the queue or a replay can carry: what an attachment is given up for outside of `AppendLive`. */
    ghost predicate Overloaded()
      reads this`liveOverflowed, this`liveChunks, this`rows, this`snapshot, this`historyLines
      reads this`historyClientTruncated, this`historyExhausted, this`oldestFetched, this`oldestAvailable
    {
      || liveOverflowed
      || |LiveData(liveChunks)| > TERMINAL_WRITE_QUEUE_CAP
      || |liveChunks| > TERMINAL_WRITE_QUEUE_CHUNK_CAP
      || (RowsSupported(rows) && |Header() + LiveData(liveChunks)| > TERMINAL_REPLAY_CAP)
    }

    lemma OverflowOverloads()
      requires liveOverflowed
      ensures Overloaded()
    {
    }

    lemma BacklogOverloads()
      requires LiveOk()
      ensures liveBytes == |LiveData(liveChunks)|
      ensures |LiveData(liveChunks)| > TERMINAL_WRITE_QUEUE_CAP || |liveChunks| > TERMINAL_WRITE_QUEUE_CHUNK_CAP ==>
                Overloaded()
    {
    }

    /** Output queues no more than before or than the retained chunks, and asks for recovery only when overloaded. */
    twostate predicate Eased()
      reads this
    {
      && writeQueueBytes <= Max(old(writeQueueBytes), liveBytes)
      && |writeQueue| <= Max(|old(writeQueue)|, |liveChunks|)
      && (recoveryRequested && !old(recoveryRequested) ==> Overloaded())
      && (old(wanted) ==> wanted)
    }

    twostate lemma QueueOnlyShrank()
      requires writeQueueBytes <= old(writeQueueBytes) && |writeQueue| <= |old(writeQueue)| && (old(wanted) ==> wanted)
      requires recoveryRequested && !old(recoveryRequested) ==> Overloaded()
      ensures Eased()
    {
      hide Overloaded;
    }

    /** What a live chunk adds, and that recovery is asked for only if it is too large or finds no room. */
    twostate predicate Grown(data: seq<byte>)
      reads this
    {
      && writeQueueBytes <= old(writeQueueBytes) + |data| && |writeQueue| <= |old(writeQueue)| + 1
      && liveBytes <= old(liveBytes) + |data| && |liveChunks| <= |old(liveChunks)| + 1
      && (old(liveOverflowed) ==> liveOverflowed)
      && (liveOverflowed ==>
            || old(liveOverflowed) || old(liveBytes) + |data| > LIVE_BUFFER_CAP
            || |old(liveChunks)| + 1 > LIVE_CHUNK_CAP)
      && (recoveryRequested && !old(recoveryRequested) ==> |data| > LIVE_BUFFER_CAP || !old(HasRoom(data)))
    }

    /** The header of the last replay is the old one, or that of a replay started just now. */
    twostate predicate BaseIsHeader()
      reads this
    {
      || (base == old(base) && head == old(head) && (old(stale) ==> stale))
      || (RowsSupported(rows) && base == Header() && head == CurrentHead() && replayInFlight)
    }

    /** Nothing a render could change has changed. */
    twostate predicate Untouched()
      reads this, term, outputFilter
    {
      && unchanged(this`renderPending, this`replayInFlight, this`recoveryRequested, this`rowsRefused)
      && unchanged(this`base, this`head, this`fed, this`stale, term, outputFilter)
    }

    // ---- Events ----

    /** The first message of an attachment is its snapshot; every later one is live. */
    method OnChannelMessage(bytes: seq<byte>, generation: nat)
      requires Valid()
      modifies this`snapshot, this`awaitingSnapshot
      modifies this`live, this`lost, this`liveOverflowed, this`liveChunks, this`liveBytes, this`liveSequence
      modifies this`numbered, this`chunks
      modifies this`writeQueue, this`writeQueueBytes, this`writeInFlight, this`ledger
      modifies this`microtasks, this`fed, term, outputFilter
      modifies this`issued, this`presented, this`recoveryRequested, this`recoveries
      ensures Valid()
      ensures var taken := !closing && generation == attachmentGeneration;
              && (taken && old(awaitingSnapshot) ==>
                    && snapshot == bytes && !awaitingSnapshot && live == old(live) && chunks == old(chunks)
                    && unchanged(this`liveChunks, this`liveOverflowed, this`recoveryRequested, this`writeInFlight)
                    && presented == old(presented))
              && (taken && !old(awaitingSnapshot) ==>
                    && snapshot == old(snapshot) && !awaitingSnapshot && live == old(live) + bytes
                    && chunks == old(chunks) + 1)
              && (!taken ==>
                    && snapshot == old(snapshot) && awaitingSnapshot == old(awaitingSnapshot)
                    && live == old(live) && chunks == old(chunks)
                    && unchanged(this`presented, this`recoveryRequested))
      ensures (recoveryRequested && !old(recoveryRequested) ==> TooMuch(bytes)) && (old(LoadOk()) ==> LoadOk())
    {
      hide PipeOk, ShownOk, RecoveryOk, LiveOk, ReplayOk, ProgressOk, ExactOk, HasRoom, LoadOk;
      if closing || generation != attachmentGeneration { return; }
      if awaitingSnapshot {
        TakeSnapshot(bytes);
        return;
      }
      AppendLive(bytes);
    }

    method TakeSnapshot(bytes: seq<byte>)
      requires ShownOk() && awaitingSnapshot
      modifies this`snapshot, this`awaitingSnapshot
      ensures ShownOk() && snapshot == bytes && !awaitingSnapshot && (old(LoadOk()) ==> LoadOk())
    {
      hide HistoryOk, Written, IsSuffix, RowsSupported, Bearable;
      SnapshotKeepsLoad(Load(), Told(), bytes);
      awaitingSnapshot := false;
      snapshot := bytes;
    }

    /** Retains a live chunk for replays, evicting the oldest ones over the caps, and queues it when presented. */
    method AppendLive(data: seq<byte>)
      requires Valid()
      modifies this`live, this`lost, this`liveOverflowed, this`liveChunks, this`liveBytes, this`liveSequence
      modifies this`numbered, this`chunks
      modifies this`writeQueue, this`writeQueueBytes, this`writeInFlight, this`ledger
      modifies this`microtasks, this`fed, term, outputFilter
      modifies this`issued, this`presented, this`recoveryRequested, this`recoveries
      ensures Valid()
      ensures live == (if closing then old(live) else old(live) + data) && Grown(data)
      ensures chunks == old(chunks) + (if closing then 0 else 1) && (old(LoadOk()) ==> LoadOk())
      ensures recoveryRequested <==>
                old(recoveryRequested || (!closing && presented && (|data| > LIVE_BUFFER_CAP || !HasRoom(data))))
      ensures presented <==> old(presented) && (closing || |data| > LIVE_BUFFER_CAP || old(HasRoom(data)))
    {
      hide Valid, HasRoom, Grown, LoadOk;
      if closing {
        NothingGrew(data);
        return;
      }
      Append(data);
      GrownKeepsLoad(data);
    }

    twostate lemma NothingGrew(data: seq<byte>)
      requires unchanged(this`writeQueueBytes, this`writeQueue, this`liveBytes, this`liveChunks, this`liveOverflowed)
      requires unchanged(this`recoveryRequested)
      ensures Grown(data)
    {
    }

    twostate lemma GrownKeepsLoad(data: seq<byte>)
      requires Grown(data) && live == old(live) + data && chunks == old(chunks) + 1
      requires unchanged(this`snapshot, this`awaitingSnapshot, this`closing, this`disposed)
      requires unchanged(this`attachmentGeneration, this`askedEarly, this`rendered, this`wanted)
      ensures old(LoadOk()) ==> LoadOk()
    {
      hide Bearable;
      ChunkKeepsLoad(old(Load()), Load(), old(Told()), data);
    }

    method Append(data: seq<byte>)
      requires Valid() && !closing
      modifies this`live, this`lost, this`liveOverflowed, this`liveChunks, this`liveBytes, this`liveSequence
      modifies this`numbered, this`chunks
      modifies this`writeQueue, this`writeQueueBytes, this`writeInFlight, this`ledger
      modifies this`microtasks, this`fed, term, outputFilter
      modifies this`issued, this`presented, this`recoveryRequested, this`recoveries
      ensures Valid() && live == old(live) + data && Grown(data) && chunks == old(chunks) + 1
      ensures recoveryRequested <==>
                old(recoveryRequested || (presented && (|data| > LIVE_BUFFER_CAP || !HasRoom(data))))
      ensures presented <==> old(presented) && (|data| > LIVE_BUFFER_CAP || old(HasRoom(data)))
    {
      hide PipeOk, ShownOk, RecoveryOk, LiveOk, ReplayOk, ProgressOk, ExactOk, HasRoom;
      chunks := chunks + 1;
      if |data| > LIVE_BUFFER_CAP {
        AppendOversized(data);
      } else {
        AppendNumbered(data);
      }
    }

    method AppendOversized(data: seq<byte>)
      requires Valid() && !closing && |data| > LIVE_BUFFER_CAP
      modifies this`live, this`lost, this`liveOverflowed, this`recoveryRequested, this`recoveries
      ensures Valid() && live == old(live) + data && Grown(data)
      ensures recoveryRequested <==> old(recoveryRequested) || presented
    {
      hide PipeOk, ShownOk, RecoveryOk, LiveOk, ReplayOk, Sent;
      Lose(data);
      if presented { RequestRecovery(); }
    }

    method AppendNumbered(data: seq<byte>)
      requires Valid() && !closing && |data| <= LIVE_BUFFER_CAP
      modifies this`live, this`liveOverflowed, this`liveChunks, this`liveBytes, this`liveSequence, this`numbered
      modifies this`writeQueue, this`writeQueueBytes, this`writeInFlight, this`ledger
      modifies this`microtasks, this`fed, term, outputFilter
      modifies this`issued, this`presented, this`recoveryRequested, this`recoveries
      ensures Valid() && live == old(live) + data && Grown(data)
      ensures recoveryRequested <==> old(recoveryRequested || (presented && !HasRoom(data)))
      ensures presented <==> old(presented && HasRoom(data))
    {
      hide PipeOk, ShownOk, RecoveryOk, LiveOk, ReplayOk, Sent, HasRoom, ProgressOk, ExactOk;
      ClearWhenPresented();
      if presented && !replayInFlight && !renderPending {
        AppendSeen(data);
      } else {
        Retain(data);
        NotPresented();
      }
    }

    lemma ClearWhenPresented()
      requires ProgressOk()
      ensures presented ==> !replayInFlight && !renderPending && !stale
    {
    }

    method AppendSeen(data: seq<byte>)
      requires Valid() && !closing && |data| <= LIVE_BUFFER_CAP && presented && !replayInFlight && !renderPending
      modifies this`live, this`liveOverflowed, this`liveChunks, this`liveBytes, this`liveSequence, this`numbered
      modifies this`writeQueue, this`writeQueueBytes, this`writeInFlight, this`ledger
      modifies this`microtasks, this`fed, term, outputFilter
      modifies this`issued, this`presented, this`recoveryRequested, this`recoveries
      ensures Valid() && live == old(live) + data && Grown(data)
      ensures recoveryRequested <==> old(recoveryRequested || !HasRoom(data))
      ensures presented <==> old(HasRoom(data))
    {
      hide PipeOk, ShownOk, RecoveryOk, LiveOk, ReplayOk, Sent, HasRoom, ExactOk;
      ghost var sent := Sent(fed, writeQueue);
      SentSoFar(sent);
      Retain(data);
      EnqueueWrite(data);
      SentAlso(sent, old(live), data);
    }

    lemma SentSoFar(sent: seq<byte>)
      requires ExactOk() && sent == Sent(fed, writeQueue) && presented && !disposed
      ensures !recoveryRequested ==> !lost && sent == base + live
    {
      hide Sent;
    }

    lemma SentAlso(sent: seq<byte>, before: seq<byte>, data: seq<byte>)
      requires presented && !recoveryRequested ==>
                 !lost && sent == base + before && Sent(fed, writeQueue) == sent + data && live == before + data
      ensures ExactOk()
    {
      hide Sent;
      ConcatAssociates(base, before, data);
    }

    /** A chunk larger than the whole buffer is dropped; the tab remembers that it fell behind. */
    method Lose(data: seq<byte>)
      requires LiveOk() && ReplayOk()
      modifies this`live, this`lost, this`liveOverflowed
      ensures LiveOk() && ReplayOk() && lost && liveOverflowed && live == old(live) + data
    {
      hide LiveData, Newest, Flatten, Covers;
      liveOverflowed := true;
      live, lost := live + data, true;
    }

    /** Retains a numbered chunk for later replays, at the expense of the oldest ones. */
    method Retain(data: seq<byte>)
      requires LiveOk() && ReplayOk() && |data| <= LIVE_BUFFER_CAP
      modifies this`live, this`liveOverflowed, this`liveChunks, this`liveBytes, this`liveSequence, this`numbered
      ensures LiveOk() && ReplayOk() && live == old(live) + data
      ensures liveBytes <= old(liveBytes) + |data| && |liveChunks| <= |old(liveChunks)| + 1
      ensures old(liveOverflowed) ==> liveOverflowed
      ensures liveOverflowed ==>
                || old(liveOverflowed) || old(liveBytes) + |data| > LIVE_BUFFER_CAP
                || |old(liveChunks)| + 1 > LIVE_CHUNK_CAP
    {
      Number(data);
      Evict();
    }

    /** Appends a chunk under the next sequence number. */
    method Number(data: seq<byte>)
      requires LiveOk() && ReplayOk() && |data| <= LIVE_BUFFER_CAP
      modifies this`live, this`liveChunks, this`liveBytes, this`liveSequence, this`numbered
      ensures RetainedOk() && ReplayOk() && live == old(live) + data
      ensures liveBytes == old(liveBytes) + |data| && |liveChunks| == |old(liveChunks)| + 1
      ensures liveChunks != [] && |liveChunks[|liveChunks| - 1].data| <= LIVE_BUFFER_CAP
    {
      hide LiveData, Newest, Flatten, Covers;
      NewestPush(liveChunks, liveSequence, numbered, data);
      if |term.outstanding| > 0 && term.outstanding[0].ReplayDone?
         && Covers(fed, base, numbered, term.outstanding[0].coveredThrough) {
        CoversMore(fed, base, numbered, term.outstanding[0].coveredThrough, data);
      }
      live, numbered := live + data, numbered + [data];
      liveSequence := liveSequence + 1;
      liveChunks := liveChunks + [LiveChunk(liveSequence, data)];
      liveBytes := liveBytes + |data|;
    }

    /** Drops the oldest chunks until both caps hold; the newest one always fits. */
    method Evict()
      requires RetainedOk() && ReplayOk()
      requires liveChunks != [] && |liveChunks[|liveChunks| - 1].data| <= LIVE_BUFFER_CAP
      modifies this`liveOverflowed, this`liveChunks, this`liveBytes
      ensures LiveOk() && ReplayOk()
      ensures liveOverflowed <==> old(liveOverflowed) || |liveChunks| < |old(liveChunks)|
      ensures liveBytes <= old(liveBytes) && |liveChunks| <= |old(liveChunks)|
      ensures |liveChunks| < |old(liveChunks)| ==>
                old(liveBytes) > LIVE_BUFFER_CAP || |old(liveChunks)| > LIVE_CHUNK_CAP
    {
      hide LiveData, Newest, Flatten, Covers;
      while (liveBytes > LIVE_BUFFER_CAP || |liveChunks| > LIVE_CHUNK_CAP) && |liveChunks| > 1
        invariant liveChunks != [] && |liveChunks[|liveChunks| - 1].data| <= LIVE_BUFFER_CAP
        invariant RetainedOk() && ReplayOk() && |liveChunks| <= |old(liveChunks)| && liveBytes <= old(liveBytes)
        invariant |liveChunks| < |old(liveChunks)| ==>
                    old(liveBytes) > LIVE_BUFFER_CAP || |old(liveChunks)| > LIVE_CHUNK_CAP
        invariant liveOverflowed <==> old(liveOverflowed) || |liveChunks| < |old(liveChunks)|
        modifies this`liveOverflowed, this`liveChunks, this`liveBytes
        decreases |liveChunks|
      {
        NewestShift(liveChunks, liveSequence, numbered);
        liveBytes := liveBytes - |liveChunks[0].data|;
        liveChunks := liveChunks[1..];
        liveOverflowed := true;
      }
      if |liveChunks| == 1 {
        NewestShift(liveChunks, liveSequence, numbered);
        LiveDataNone(liveChunks[1..]);
      }
    }

    /** Puts older lines before the history shown so far, as many as the display cache takes. */
    method AddHistory(lines: seq<string>) returns (acceptedAll: bool)
      requires Valid()
      modifies this`historyLines, this`historyBytes, this`historyClientTruncated, this`historyExhausted
      ensures Valid()
      ensures |old(historyLines)| <= |historyLines| <= |old(historyLines)| + |lines|
      ensures var cut := |old(historyLines)| + |lines| - |historyLines|;
              && historyLines == lines[cut..] + old(historyLines) && (acceptedAll <==> cut == 0)
              && (cut > 0 ==>
                    || |historyLines| == HISTORY_RENDER_LINE_CAP
                    || LineBytes(lines[cut - 1..]) + old(historyBytes) > HISTORY_RENDER_BYTE_CAP)
      ensures historyClientTruncated <==> old(historyClientTruncated) || !acceptedAll
      ensures historyExhausted <==> old(historyExhausted) || !acceptedAll
      ensures Paged() == Turned(old(Paged()), PrependHistory(lines))
    {
      hide PipeOk, ShownOk, RecoveryOk, LiveOk, ReplayOk, ProgressOk, ExactOk, LineBytes, Turned;
      acceptedAll := PrependLines(lines);
    }

    method PrependLines(lines: seq<string>) returns (acceptedAll: bool)
      requires ShownOk()
      modifies this`historyLines, this`historyBytes, this`historyClientTruncated, this`historyExhausted
      ensures ShownOk()
      ensures |old(historyLines)| <= |historyLines| <= |old(historyLines)| + |lines|
      ensures var cut := |old(historyLines)| + |lines| - |historyLines|;
              && historyLines == lines[cut..] + old(historyLines) && (acceptedAll <==> cut == 0)
              && (cut > 0 ==>
                    || |historyLines| == HISTORY_RENDER_LINE_CAP
                    || LineBytes(lines[cut - 1..]) + old(historyBytes) > HISTORY_RENDER_BYTE_CAP)
      ensures historyClientTruncated <==> old(historyClientTruncated) || !acceptedAll
      ensures historyExhausted <==> old(historyExhausted) || !acceptedAll
      ensures Paged() == Turned(old(Paged()), PrependHistory(lines))
    {
      hide LineBytes, Written, IsSuffix, RowsSupported, Room, Turned;
      var bounded := PrependBoundedHistory(historyLines, historyBytes, lines,
                                           HISTORY_RENDER_LINE_CAP, HISTORY_RENDER_BYTE_CAP);
      var cut := |historyLines| + |lines| - |bounded.lines|;
      LineBytesAppend(lines[cut..], historyLines);
      PageGrows(Paged(), lines, cut);
      if !stale { SuffixGrows(head.lines, historyLines, lines[cut..]); }
      ShowMore(bounded.lines, bounded.bytes);
      if !bounded.acceptedAll {
        historyClientTruncated := true;
        historyExhausted := true;
      }
      acceptedAll := bounded.acceptedAll;
    }

    method ShowMore(lines: seq<string>, bytes: nat)
      requires ShownOk() && bytes == LineBytes(lines) <= HISTORY_RENDER_BYTE_CAP
      requires |lines| <= HISTORY_RENDER_LINE_CAP && (!stale ==> IsSuffix(head.lines, lines))
      modifies this`historyLines, this`historyBytes
      ensures ShownOk() && historyLines == lines && historyBytes == bytes
    {
      hide LineBytes, Written, IsSuffix, RowsSupported;
      historyLines, historyBytes := lines, bytes;
    }

    /** How far back the history shown so far reaches, and how far the daemon's does. */
    method SetCursor(fetched: nat, available: nat, exhausted: bool)
      requires Valid()
      modifies this`oldestFetched, this`oldestAvailable, this`historyExhausted
      ensures Valid() && oldestFetched == fetched && oldestAvailable == available && historyExhausted == exhausted
    {
      hide PipeOk, ShownOk, RecoveryOk, LiveOk, ReplayOk, ProgressOk, ExactOk;
      oldestFetched, oldestAvailable, historyExhausted := fetched, available, exhausted;
    }

    /** Forgets the previous attachment; a write or replay still with xterm stays in flight. */
    method ResetForAttach() returns (generation: nat)
      requires Valid()
      modifies this`attachmentGeneration, this`stale
      modifies this`liveChunks, this`liveBytes, this`liveOverflowed, this`liveSequence, this`live
      modifies this`numbered, this`lost, this`chunks
      modifies this`presented, this`awaitingSnapshot, this`snapshot
      modifies this`renderPending, this`rowsRefused, this`recoveryRequested, this`recoveries, this`wanted, this`stalled
      modifies this`askedEarly, this`rendered
      modifies this`historyLines, this`historyBytes, this`historyClientTruncated
      modifies this`oldestFetched, this`oldestAvailable, this`historyExhausted
      modifies this`writeQueue, this`writeQueueBytes, this`ledger, outputFilter
      ensures Valid() && BaseIsHeader()
      ensures generation == attachmentGeneration == old(attachmentGeneration) + 1
      ensures !presented && awaitingSnapshot && live == [] && snapshot == [] && historyLines == []
      ensures chunks == 0 && liveBytes == 0 && liveChunks == [] && writeQueue == [] && writeQueueBytes == 0
      ensures !askedEarly && !rendered && !recoveryRequested && !liveOverflowed
      ensures !renderPending && !stalled && !rowsRefused && stale
      ensures !historyClientTruncated && !historyExhausted && oldestFetched == 0 && oldestAvailable == 1
    {
      hide PipeOk, ShownOk, LiveOk, ReplayOk, RecoveryOk, ExactOk;
      NextAttachment();
      ForgetShown();
      NotPresented();
      generation := attachmentGeneration;
    }

    method ForgetShown()
      requires PipeOk() && stale
      modifies this`presented, this`awaitingSnapshot, this`snapshot
      modifies this`renderPending, this`rowsRefused, this`recoveryRequested, this`recoveries, this`wanted, this`stalled
      modifies this`askedEarly, this`rendered
      modifies this`historyLines, this`historyBytes, this`historyClientTruncated
      modifies this`oldestFetched, this`oldestAvailable, this`historyExhausted
      modifies this`writeQueue, this`writeQueueBytes, this`ledger, outputFilter
      ensures PipeOk() && ShownOk() && RecoveryOk() && writeQueue == []
      ensures !presented && awaitingSnapshot && snapshot == [] && historyLines == [] && !wanted && !stalled
      ensures !renderPending && !rowsRefused && !recoveryRequested && !askedEarly && !rendered && writeQueueBytes == 0
      ensures !historyClientTruncated && !historyExhausted && oldestFetched == 0 && oldestAvailable == 1
    {
      hide PipeOk, ShownOk, RecoveryOk;
      ForgetPresentation();
      ForgetHistory();
      ForgetOutput();
      NoBytesQueued();
    }

    method ForgetPresentation()
      modifies this`presented, this`awaitingSnapshot, this`snapshot
      modifies this`renderPending, this`rowsRefused, this`recoveryRequested, this`recoveries, this`wanted, this`stalled
      modifies this`askedEarly, this`rendered
      ensures !presented && awaitingSnapshot && snapshot == [] && !wanted && !stalled && !askedEarly && !rendered
      ensures !renderPending && !rowsRefused && !recoveryRequested && RecoveryOk()
    {
      presented, wanted, stalled, askedEarly, rendered := false, false, false, false, false;
      awaitingSnapshot := true;
      snapshot := [];
      renderPending, rowsRefused := false, false;
      recoveryRequested, recoveries := false, 0;
    }

    method ForgetHistory()
      requires stale && snapshot == [] && !wanted
      modifies this`historyLines, this`historyBytes, this`historyClientTruncated
      modifies this`oldestFetched, this`oldestAvailable, this`historyExhausted
      ensures ShownOk() && historyLines == [] && !historyClientTruncated && !historyExhausted
      ensures oldestFetched == 0 && oldestAvailable == 1
    {
      historyLines, historyBytes, historyClientTruncated := [], 0, false;
      oldestFetched, oldestAvailable, historyExhausted := 0, 1, false;
    }

    method NextAttachment()
      requires PipeOk() && ReplayOk()
      modifies this`attachmentGeneration, this`stale
      modifies this`liveChunks, this`liveBytes, this`liveOverflowed, this`liveSequence, this`live
      modifies this`numbered, this`lost, this`chunks
      ensures PipeOk() && ReplayOk() && LiveOk() && stale
      ensures attachmentGeneration == old(attachmentGeneration) + 1 && live == [] && !liveOverflowed
      ensures chunks == 0 && liveBytes == 0 && liveChunks == []
    {
      hide PipeOk, ReplayOk, LiveOk;
      NextGeneration();
      ForgetLive();
    }

    /** No replay in flight is one of the new attachment's own. */
    method NextGeneration()
      requires PipeOk() && ReplayOk()
      modifies this`attachmentGeneration, this`stale
      ensures PipeOk() && ReplayOk() && stale
      ensures attachmentGeneration == old(attachmentGeneration) + 1
    {
      hide PromisesOk, QueueOk, FilterOf, Covers;
      attachmentGeneration := attachmentGeneration + 1;
      stale := true;
    }

    method ForgetLive()
      requires ReplayOk() && stale
      modifies this`liveChunks, this`liveBytes, this`liveOverflowed, this`liveSequence, this`live
      modifies this`numbered, this`lost, this`chunks
      ensures ReplayOk() && LiveOk() && live == [] && liveSequence == 0 && !liveOverflowed
      ensures chunks == 0 && liveBytes == 0 && liveChunks == []
    {
      hide Covers;
      chunks := 0;
      liveChunks, liveBytes, liveOverflowed, liveSequence := [], 0, false, 0;
      live, numbered, lost := [], [], false;
    }

    /** Drops queued writes and the filter's pending bytes; nothing is fed until the next replay resets both. */
    method ForgetOutput()
      requires PipeOk() && stale
      modifies this`writeQueue, this`writeQueueBytes, this`ledger, outputFilter
      ensures PipeOk() && writeQueue == []
    {
      hide Balanced, FilterOf, QueueData;
      ClearWriteQueue();
      outputFilter.Reset();
    }

    /** Replaces what is shown by one replay of history, snapshot and retained live bytes. */
    method RenderAll()
      requires Valid()
      modifies this`askedEarly, this`rendered
      modifies this`writeQueue, this`writeQueueBytes, this`writeInFlight, this`ledger, this`microtasks, this`issued
      modifies this`renderPending, this`replayInFlight, this`presented, this`recoveryRequested, this`recoveries
      modifies this`base, this`head, this`early, this`fed, this`stale, this`rowsRefused, this`wanted, this`stalled
      modifies term, outputFilter
      ensures Valid() && BaseIsHeader() && (rowsRefused ==> old(rowsRefused) || !RowsSupported(rows)) && Eased()
      ensures !closing && !liveOverflowed ==> !presented && (renderPending || replayInFlight || recoveryRequested)
      ensures !closing && liveOverflowed && old(presented) ==> presented && writeQueue == old(writeQueue)
      ensures !closing && liveOverflowed && !old(presented) ==> recoveryRequested
      ensures stalled == old(stalled) && (askedEarly <==> old(askedEarly) || (!closing && awaitingSnapshot))
      ensures (rendered <==> old(rendered) || !closing) && (!closing && !liveOverflowed ==> wanted)
      ensures !closing && !liveOverflowed && old(!writeInFlight && !replayInFlight) && RowsSupported(rows)
              && |Header() + LiveData(liveChunks)| <= TERMINAL_REPLAY_CAP ==>
                && wanted && !renderPending && replayInFlight && !writeInFlight
                && recoveryRequested == old(recoveryRequested)
                && term.outstanding == [ReplayDone(attachmentGeneration, liveSequence)]
      ensures !closing && !liveOverflowed && old(!writeInFlight && !replayInFlight) && !RowsSupported(rows) ==>
                rowsRefused && renderPending && !writeInFlight && !replayInFlight
    {
      hide PipeOk, ShownOk, RecoveryOk, LiveOk, ReplayOk, ProgressOk, ExactOk;
      hide LiveData, Header, RowsSupported, Overloaded;
      if closing { return; }
      NoteRender();
      RenderNow();
    }

    method RenderNow()
      requires Valid() && !closing && (awaitingSnapshot ==> askedEarly)
      modifies this`writeQueue, this`writeQueueBytes, this`ledger
      modifies this`renderPending, this`replayInFlight, this`presented, this`recoveryRequested, this`recoveries
      modifies this`base, this`head, this`early, this`fed, this`stale, this`rowsRefused, this`wanted, term, outputFilter
      ensures Valid() && BaseIsHeader() && (rowsRefused ==> old(rowsRefused) || !RowsSupported(rows)) && Eased()
      ensures !liveOverflowed ==> wanted && !presented && (renderPending || replayInFlight || recoveryRequested)
      ensures liveOverflowed && old(presented) ==> presented && writeQueue == old(writeQueue)
      ensures liveOverflowed && !old(presented) ==> recoveryRequested
      ensures !liveOverflowed && old(!writeInFlight && !replayInFlight) && RowsSupported(rows)
              && |Header() + LiveData(liveChunks)| <= TERMINAL_REPLAY_CAP ==>
                && wanted && !renderPending && replayInFlight && !writeInFlight
                && recoveryRequested == old(recoveryRequested)
                && term.outstanding == [ReplayDone(attachmentGeneration, liveSequence)]
      ensures !liveOverflowed && old(!writeInFlight && !replayInFlight) && !RowsSupported(rows) ==>
                rowsRefused && renderPending && !writeInFlight && !replayInFlight
    {
      hide PipeOk, ShownOk, RecoveryOk, LiveOk, ReplayOk, Sent, LiveData, Header, RowsSupported, Overloaded, Eased;
      hide CurrentHead;
      if liveOverflowed {
        if presented && !replayInFlight && !renderPending {
          QueueOnlyShrank();
          return;
        }
        OverflowOverloads();
        RequestRecovery();
        QueueOnlyShrank();
        return;
      }
      Rerender();
    }

    ghost method NoteRender()
      requires ShownOk()
      modifies this`askedEarly, this`rendered
      ensures ShownOk() && (awaitingSnapshot ==> askedEarly)
      ensures (askedEarly <==> old(askedEarly) || awaitingSnapshot) && rendered
    {
      hide HistoryOk, Written, IsSuffix, RowsSupported;
      askedEarly, rendered := askedEarly || awaitingSnapshot, true;
    }

    /** The render proper: nothing is presented until its replay is on screen. */
    method Rerender()
      requires Valid() && !closing && !liveOverflowed && (awaitingSnapshot ==> askedEarly)
      modifies this`writeQueue, this`writeQueueBytes, this`ledger
      modifies this`renderPending, this`replayInFlight, this`presented, this`recoveryRequested, this`recoveries
      modifies this`base, this`head, this`early, this`fed, this`stale, this`rowsRefused, this`wanted, term, outputFilter
      ensures Valid() && BaseIsHeader() && (rowsRefused ==> old(rowsRefused) || !RowsSupported(rows)) && Eased()
      ensures !presented && wanted && (renderPending || replayInFlight || recoveryRequested)
      ensures old(!writeInFlight && !replayInFlight) && RowsSupported(rows)
              && |Header() + LiveData(liveChunks)| <= TERMINAL_REPLAY_CAP ==>
                && !renderPending && replayInFlight && recoveryRequested == old(recoveryRequested)
                && term.outstanding == [ReplayDone(attachmentGeneration, liveSequence)]
      ensures old(!writeInFlight && !replayInFlight) && !RowsSupported(rows) ==>
                rowsRefused && renderPending && !writeInFlight && !replayInFlight
    {
      hide PipeOk, ShownOk, RecoveryOk, LiveOk, ReplayOk, LiveData, Header, RowsSupported, ExactOk, Overloaded, Eased;
      hide CurrentHead;
      AskForReplay();
      NoBytesQueued();
      StartRenderIfIdle();
      NotPresented();
      QueueOnlyShrank();
    }

    method AskForReplay()
      requires PipeOk() && ShownOk() && Placed() && (awaitingSnapshot ==> askedEarly)
      modifies this`writeQueue, this`writeQueueBytes, this`ledger, this`presented, this`wanted, this`renderPending
      ensures PipeOk() && ShownOk() && Placed() && writeQueue == [] && !presented && wanted && renderPending
    {
      hide PipeOk, HistoryOk, HeadOk;
      presented, wanted := false, true;
      renderPending := true;
      ClearQueueForReplay();
    }

    lemma NotPresented()
      requires !presented
      ensures ExactOk()
    {
    }

    method ClearQueueForReplay()
      requires PipeOk()
      modifies this`writeQueue, this`writeQueueBytes, this`ledger
      ensures PipeOk() && writeQueue == [] && writeQueueBytes == 0
    {
      hide Balanced, FilterOf;
      ClearWriteQueue();
    }

    /** Something is to follow the completion of what is in flight. */
    ghost predicate WorkWaits()
      reads this`renderPending, this`rowsRefused, this`writeQueue, this`microtasks
      reads this`replayInFlight, this`wanted, this`recoveryRequested
    {
      || (renderPending && !rowsRefused)
      || (writeQueue != [] && microtasks == 0)
      || (replayInFlight && wanted && !recoveryRequested && !renderPending)
    }

    /** xterm finished its outstanding write. During a close what should follow does not, and is left behind. */
    method OnXtermCallback()
      requires Valid()
      modifies this`writeQueue, this`writeQueueBytes, this`writeInFlight, this`ledger, this`microtasks, this`issued
      modifies this`renderPending, this`replayInFlight, this`presented, this`recoveryRequested, this`recoveries
      modifies this`base, this`head, this`early, this`fed, this`stale, this`rowsRefused, this`wanted, this`stalled
      modifies term, outputFilter
      ensures Valid() && BaseIsHeader() && (rowsRefused ==> old(rowsRefused) || !RowsSupported(rows)) && Eased()
      ensures stalled <==> old(stalled) || (closing && old(term.outstanding) != [])
      ensures closing && !disposed && old(term.outstanding != [] && !Stuck()) ==>
                (Stuck() <==> old(WorkWaits()))
    {
      if term.outstanding == [] { return; }
      var callback := term.outstanding[0];
      match callback
      case ReplayDone(generation, coveredThrough) => OnReplayDone(generation, coveredThrough);
      case WriteDone(promise) => OnWriteDone(promise);
    }

    method OnWriteDone(promise: nat)
      requires Valid() && term.outstanding == [WriteDone(promise)]
      modifies this`writeQueue, this`writeQueueBytes, this`writeInFlight, this`ledger, this`microtasks, this`issued
      modifies this`renderPending, this`replayInFlight, this`presented, this`recoveryRequested, this`recoveries
      modifies this`base, this`head, this`early, this`fed, this`stale, this`rowsRefused, this`wanted, this`stalled
      modifies term, outputFilter
      ensures Valid() && BaseIsHeader() && (rowsRefused ==> old(rowsRefused) || !RowsSupported(rows)) && Eased()
      ensures writeQueue == if old(renderPending || closing || writeQueue == []) then old(writeQueue)
                            else old(writeQueue)[1..]
      ensures stalled <==> old(stalled) || closing
      ensures closing && !disposed && old(!Stuck()) ==> (Stuck() <==> old(WorkWaits()))
    {
      hide PipeOk, ShownOk, RecoveryOk, LiveOk, Sent, LiveData, Header, Covers, Overloaded;
      hide CurrentHead;
      FinishWrite(promise);
      stalled := stalled || closing;
      Continue();
    }

    /** After a write: the pending render or the next write starts, but during a close neither does. */
    method Continue()
      requires PipeOk() && ShownOk() && RecoveryOk() && LiveOk() && ReplayOk() && Placed() && ExactOk()
      requires !writeInFlight && !replayInFlight && (closing ==> stalled)
      requires ViewStuck() ==> stalled
      modifies this`writeQueue, this`writeQueueBytes, this`writeInFlight, this`ledger, this`microtasks
      modifies this`renderPending, this`replayInFlight, this`recoveryRequested, this`recoveries
      modifies this`base, this`head, this`early, this`fed, this`stale, this`rowsRefused, term, outputFilter
      ensures Valid() && BaseIsHeader() && (rowsRefused ==> old(rowsRefused) || !RowsSupported(rows)) && Eased()
      ensures writeQueue == if old(renderPending || closing || writeQueue == []) then old(writeQueue)
                            else old(writeQueue)[1..]
      ensures closing ==>
                && unchanged(this`renderPending, this`writeInFlight, this`replayInFlight, this`rowsRefused)
                && unchanged(this`microtasks, this`recoveryRequested)
    {
      hide PipeOk, ShownOk, RecoveryOk, LiveOk, ReplayOk, Sent, LiveData, Header, Overloaded;
      hide CurrentHead;
      if renderPending { StartRenderIfIdle(); } else { PumpWrites(); }
    }

    /** The in-flight write is over: its flag falls and its promise is fulfilled. */
    method FinishWrite(promise: nat)
      requires PipeOk() && term.outstanding == [WriteDone(promise)]
      modifies this`writeInFlight, this`ledger, term
      ensures PipeOk() && term.outstanding == [] && !writeInFlight && !replayInFlight
    {
      hide Balanced, FilterOf, QueueData;
      var _ := term.Complete();
      writeInFlight := false;
      SettleFlight(writeQueue, promise, issued, ledger);
      ledger := ledger.Settle(promise);
    }

    /** The replay is on screen: present it, and queue the live chunks that arrived meanwhile. */
    method OnReplayDone(generation: nat, coveredThrough: nat)
      requires Valid() && term.outstanding == [ReplayDone(generation, coveredThrough)]
      modifies this`writeQueue, this`writeQueueBytes, this`writeInFlight, this`ledger, this`microtasks, this`issued
      modifies this`renderPending, this`replayInFlight, this`presented, this`recoveryRequested, this`recoveries
      modifies this`base, this`head, this`early, this`fed, this`stale, this`rowsRefused, this`wanted, this`stalled
      modifies term, outputFilter
      ensures Valid() && BaseIsHeader() && (rowsRefused ==> old(rowsRefused) || !RowsSupported(rows)) && Eased()
      ensures stalled <==> old(stalled) || closing
      ensures closing && !disposed && old(!Stuck()) ==> (Stuck() <==> old(WorkWaits()))
      ensures closing || generation != attachmentGeneration || old(renderPending) ==>
                !presented && writeQueue == []
      ensures closing ==> recoveryRequested == old(recoveryRequested)
      ensures closing || !old(renderPending) ==> !replayInFlight
      ensures !closing && generation == attachmentGeneration && !old(renderPending) ==>
                && (presented || recoveryRequested) && (liveOverflowed ==> presented && recoveryRequested)
                && (recoveryRequested ==>
                      || old(recoveryRequested) || liveOverflowed
                      || |LiveData(liveChunks)| > TERMINAL_WRITE_QUEUE_CAP
                      || |liveChunks| > TERMINAL_WRITE_QUEUE_CHUNK_CAP)
    {
      hide PipeOk, ShownOk, RecoveryOk, LiveOk, Sent, LiveData, Header, Covers, Overloaded;
      FinishReplay();
      stalled := stalled || closing;
      AfterReplay(generation, coveredThrough);
    }

    /** A replay of the current attachment is presented; a later render or an older replay gives way. */
    method AfterReplay(generation: nat, coveredThrough: nat)
      requires PipeOk() && ShownOk() && RecoveryOk() && LiveOk() && ReplayOk() && Placed() && ExactOk()
      requires !writeInFlight && !replayInFlight && (closing ==> stalled) && !presented && writeQueue == []
      requires generation == attachmentGeneration ==>
                 !stale && (!liveOverflowed ==> Covers(fed, base, numbered, coveredThrough))
      requires wanted && !recoveryRequested && !renderPending && generation != attachmentGeneration ==> stalled
      modifies this`writeQueue, this`writeQueueBytes, this`writeInFlight, this`ledger, this`microtasks, this`issued
      modifies this`renderPending, this`replayInFlight, this`presented, this`recoveryRequested, this`recoveries
      modifies this`base, this`head, this`early, this`fed, this`stale, this`rowsRefused, term, outputFilter
      ensures Valid() && BaseIsHeader() && (rowsRefused ==> old(rowsRefused) || !RowsSupported(rows)) && Eased()
      ensures closing ==> unchanged(this`renderPending, this`writeInFlight, this`rowsRefused, this`microtasks)
                          && unchanged(this`recoveryRequested)
      ensures closing || generation != attachmentGeneration || old(renderPending) ==> !presented && writeQueue == []
      ensures closing || !old(renderPending) ==> !replayInFlight
      ensures !closing && generation == attachmentGeneration && !old(renderPending) ==>
                && (presented || recoveryRequested) && (liveOverflowed ==> presented && recoveryRequested)
                && (recoveryRequested ==>
                      || old(recoveryRequested) || liveOverflowed
                      || |LiveData(liveChunks)| > TERMINAL_WRITE_QUEUE_CAP
                      || |liveChunks| > TERMINAL_WRITE_QUEUE_CHUNK_CAP)
    {
      hide PipeOk, ShownOk, RecoveryOk, LiveOk, Sent, LiveData, Header, Covers, Overloaded;
      hide CurrentHead;
      if closing { return; }
      if generation != attachmentGeneration || renderPending {
        StartRenderIfIdle();
        return;
      }
      Present(coveredThrough);
    }

    method Present(coveredThrough: nat)
      requires disposed ==> closing
      requires PipeOk() && RecoveryOk() && LiveOk() && ReplayOk() && ShownOk()
      requires !stale && !closing && !renderPending && !rowsRefused && !replayInFlight && writeQueue == []
      requires !liveOverflowed ==> Covers(fed, base, numbered, coveredThrough)
      modifies this`writeQueue, this`writeQueueBytes, this`writeInFlight, this`ledger
      modifies this`microtasks, this`fed, term, outputFilter
      modifies this`issued, this`presented, this`recoveryRequested, this`recoveries
      ensures Valid() && (presented || recoveryRequested) && Eased()
      ensures liveOverflowed ==> presented && recoveryRequested
      ensures recoveryRequested ==>
                || old(recoveryRequested) || liveOverflowed
                || |LiveData(liveChunks)| > TERMINAL_WRITE_QUEUE_CAP
                || |liveChunks| > TERMINAL_WRITE_QUEUE_CHUNK_CAP
    {
      hide PipeOk, ShownOk, RecoveryOk, LiveOk, Sent, LiveData, Covers, Overloaded;
      presented := true;
      if liveOverflowed {
        OverflowOverloads();
        RequestRecovery();
        QueueOnlyShrank();
        return;
      }
      CatchUp(coveredThrough);
    }

    /** Sends what arrived while the replay was on its way. */
    method CatchUp(coveredThrough: nat)
      requires disposed ==> closing
      requires PipeOk() && RecoveryOk() && LiveOk() && ReplayOk() && ShownOk() && presented && !liveOverflowed
      requires !stale && !closing && !renderPending && !rowsRefused && !replayInFlight && writeQueue == []
      requires Covers(fed, base, numbered, coveredThrough)
      modifies this`writeQueue, this`writeQueueBytes, this`writeInFlight, this`ledger
      modifies this`microtasks, this`fed, term, outputFilter
      modifies this`issued, this`presented, this`recoveryRequested, this`recoveries
      ensures Valid() && (presented || recoveryRequested) && Eased()
      ensures recoveryRequested ==>
                || old(recoveryRequested)
                || |LiveData(liveChunks)| > TERMINAL_WRITE_QUEUE_CAP
                || |liveChunks| > TERMINAL_WRITE_QUEUE_CHUNK_CAP
    {
      hide PipeOk, ShownOk, RecoveryOk, LiveOk, Sent, LiveData, Covers, Overloaded;
      BacklogOverloads();
      EnqueueUncovered(coveredThrough);
      PumpNext();
    }

    method FinishReplay()
      requires PipeOk() && term.outstanding != [] && term.outstanding[0].ReplayDone?
      modifies this`replayInFlight, term
      ensures old(replayInFlight) && PipeOk() && ReplayOk()
      ensures term.outstanding == [] && !replayInFlight && !writeInFlight
    {
      hide Balanced, FilterOf, QueueData, Covers;
      var _ := term.Complete();
      replayInFlight := false;
    }

    lemma NoBytesQueued()
      requires PipeOk() && writeQueue == []
      ensures writeQueueBytes == 0
    {
    }

    /** Queues every retained chunk numbered after the replay was composed. */
    method EnqueueUncovered(coveredThrough: nat)
      requires PipeOk() && RecoveryOk() && LiveOk() && ReplayOk() && presented && !liveOverflowed
      requires !stale && !closing && !renderPending && !replayInFlight
      requires writeQueue == [] && Covers(fed, base, numbered, coveredThrough)
      modifies this`writeQueue, this`writeQueueBytes, this`writeInFlight, this`ledger
      modifies this`microtasks, this`fed, term, outputFilter
      modifies this`issued, this`presented, this`recoveryRequested, this`recoveries
      ensures PipeOk() && RecoveryOk() && ReplayOk()
      ensures writeQueue != [] ==> writeInFlight || microtasks > 0
      ensures old(recoveryRequested) ==> recoveryRequested
      ensures writeQueueBytes <= |LiveData(liveChunks)| && |writeQueue| <= |liveChunks|
      ensures recoveryRequested && !old(recoveryRequested) ==>
                |LiveData(liveChunks)| > TERMINAL_WRITE_QUEUE_CAP || |liveChunks| > TERMINAL_WRITE_QUEUE_CHUNK_CAP
      ensures !lost && (!recoveryRequested ==> presented && Sent(fed, writeQueue) == base + live)
    {
      hide PipeOk, RecoveryOk, Newest, LiveData, Covers, Sent, Flatten;
      NewestAll(liveChunks, liveSequence, numbered);
      NothingQueued(fed, writeQueue);
      NoBytesQueued();
      for i := 0 to |liveChunks|
        invariant PipeOk() && RecoveryOk() && ReplayOk()
        invariant writeQueue != [] ==> writeInFlight || microtasks > 0
        invariant old(recoveryRequested) ==> recoveryRequested
        invariant |writeQueue| <= i && writeQueueBytes <= |LiveData(liveChunks[..i])|
        invariant recoveryRequested && !old(recoveryRequested) ==>
                    |LiveData(liveChunks)| > TERMINAL_WRITE_QUEUE_CAP || |liveChunks| > TERMINAL_WRITE_QUEUE_CHUNK_CAP
        invariant !recoveryRequested ==>
                    presented && Covers(Sent(fed, writeQueue), base, numbered, Max(coveredThrough, i))
      {
        LiveDataGrows(liveChunks, i);
        if liveChunks[i].sequence > coveredThrough {
          if !recoveryRequested {
            CoversNext(Sent(fed, writeQueue), base, numbered, i);
          }
          EnqueueWrite(liveChunks[i].data);
        }
      }
      assert liveChunks[..|liveChunks|] == liveChunks;
      if !recoveryRequested {
        CoversBound(Sent(fed, writeQueue), base, numbered, Max(coveredThrough, liveSequence));
        CoversAll(Sent(fed, writeQueue), base, numbered);
      }
    }

    /** A scheduled pump runs. */
    method OnMicrotask()
      requires Valid()
      modifies this`writeQueue, this`writeQueueBytes, this`writeInFlight, this`ledger, this`microtasks, this`issued
      modifies this`renderPending, this`replayInFlight, this`presented, this`recoveryRequested, this`recoveries
      modifies this`base, this`head, this`early, this`fed, this`stale, this`rowsRefused, this`wanted, this`stalled
      modifies term, outputFilter
      ensures Valid() && BaseIsHeader() && (rowsRefused ==> old(rowsRefused) || !RowsSupported(rows)) && Eased()
      ensures writeQueue == if old(microtasks == 0 || Busy() || writeQueue == []) then old(writeQueue)
                            else old(writeQueue)[1..]
      ensures stalled <==> old(stalled) || (closing && old(microtasks) > 0)
    {
      hide PipeOk, ShownOk, RecoveryOk, LiveOk, Sent, Covers;
      hide Header, CurrentHead, LiveData, Overloaded;
      if microtasks == 0 { return; }
      microtasks := microtasks - 1;
      stalled := stalled || closing;
      PumpNext();
    }

    method PumpNext()
      requires PipeOk() && ShownOk() && RecoveryOk() && LiveOk() && ReplayOk() && Placed() && ExactOk()
      requires closing ==> stalled
      requires RenderStuck() || ViewStuck() ==> stalled || disposed
      modifies this`writeQueue, this`writeQueueBytes, this`writeInFlight, this`ledger, this`microtasks, this`fed
      modifies term, outputFilter
      ensures Valid()
      ensures writeQueue == if old(Busy() || writeQueue == []) then old(writeQueue) else old(writeQueue)[1..]
      ensures writeQueueBytes <= old(writeQueueBytes)
    {
      hide PipeOk, ShownOk, RecoveryOk, LiveOk, Sent;
      PumpWrites();
    }

    /** The window starts to close the tab: from here on the tab ignores what arrives and starts nothing. */
    method BeginClose()
      requires Valid()
      modifies this`closing
      ensures Valid() && closing
    {
      hide PipeOk, ShownOk, RecoveryOk, LiveOk, ReplayOk, ExactOk;
      closing := true;
    }

    /** The close failed and the tab is open again, with whatever it ignored meanwhile. */
    method CloseFailed()
      requires Valid()
      modifies this`closing
      ensures Valid() && (closing <==> disposed)
    {
      hide PipeOk, ShownOk, RecoveryOk, LiveOk, ReplayOk, ExactOk;
      closing := disposed;
    }

    method Close()
      requires Valid()
      modifies this`closing, this`disposed, this`writeQueue, this`writeQueueBytes, this`ledger
      ensures Valid() && closing && disposed && writeQueue == [] && writeQueueBytes == 0
    {
      hide PipeOk, ShownOk, RecoveryOk, LiveOk, ReplayOk, Sent;
      closing, disposed := true, true;
      ClearQueueForReplay();
    }

    // ---- Runs ----

    /** Recovery is newly asked for only when overloaded, or for a live chunk that is too large or finds no room. */
    twostate predicate Caused(event: Event)
      reads this
    {
      recoveryRequested && !old(recoveryRequested) ==>
        || Overloaded()
        || (event.ChannelMessage? && TooMuch(event.bytes))
        || (event.Notice? && TooMuch(EncodeText(event.text)))
    }

    twostate predicate TooMuch(data: seq<byte>)
      reads this
    {
      |data| > LIVE_BUFFER_CAP || !old(HasRoom(data))
    }

    /** One turn of the event loop. */
    method Step(event: Event)
      requires Valid()
      modifies this, term, outputFilter
      ensures Valid() && BaseIsHeader()
      ensures Told() == Continued(old(Told()), event) && Paged() == Turned(old(Paged()), event)
      ensures (head == old(head) && (old(stale) ==> stale)) || head == HeadOf(Paged(), snapshot)
      ensures (event.Reattach? ==> stale) && rows == if event.Resize? then event.rows else old(rows)
      ensures rowsRefused ==> old(rowsRefused) || !RowsSupported(rows)
      ensures Caused(event) && (old(LoadOk()) ==> LoadOk())
      ensures stalled <==>
                || (old(stalled) && !event.Reattach?)
                || old(closing && event.XtermCallback? && term.outstanding != [])
                || old(closing && event.Microtask? && microtasks > 0)
    {
      hide Valid, BaseIsHeader, RowsSupported, EncodeText, Header, Stuck, WorkWaits, LoadOk, Caused, Told, Continued;
      hide Paged, Turned;
      if event.Render? || event.XtermCallback? || event.Microtask? {
        StepOutput(event);
      } else if event.Reattach? {
        StepReattach();
      } else if event.Resize? || event.BeginClose? || event.CloseFailed? || event.Dispose? {
        StepWindow(event);
      } else {
        StepInput(event);
      }
      HeadIs();
    }

    method StepReattach()
      requires Valid()
      modifies this`attachmentGeneration, this`stale
      modifies this`liveChunks, this`liveBytes, this`liveOverflowed, this`liveSequence, this`live
      modifies this`numbered, this`lost, this`chunks
      modifies this`presented, this`awaitingSnapshot, this`snapshot
      modifies this`renderPending, this`rowsRefused, this`recoveryRequested, this`recoveries, this`wanted, this`stalled
      modifies this`askedEarly, this`rendered
      modifies this`historyLines, this`historyBytes, this`historyClientTruncated
      modifies this`oldestFetched, this`oldestAvailable, this`historyExhausted
      modifies this`writeQueue, this`writeQueueBytes, this`ledger, outputFilter
      ensures Valid() && BaseIsHeader() && Caused(Reattach) && LoadOk() && !stalled && !rowsRefused
      ensures Told() == Continued(old(Told()), Reattach) && Paged() == Turned(old(Paged()), Reattach) && stale
    {
      hide Valid, BaseIsHeader, LoadOk;
      var _ := ResetForAttach();
      NoLoad();
    }

    method StepInput(event: Event)
      requires Valid()
      requires event.ChannelMessage? || event.Notice? || event.PrependHistory? || event.HistoryCursor?
      modifies this`snapshot, this`awaitingSnapshot
      modifies this`live, this`lost, this`liveOverflowed, this`liveChunks, this`liveBytes, this`liveSequence
      modifies this`numbered, this`chunks
      modifies this`writeQueue, this`writeQueueBytes, this`writeInFlight, this`ledger
      modifies this`microtasks, this`fed, term, outputFilter
      modifies this`issued, this`presented, this`recoveryRequested, this`recoveries
      modifies this`historyLines, this`historyBytes, this`historyClientTruncated
      modifies this`oldestFetched, this`oldestAvailable, this`historyExhausted
      ensures Valid() && BaseIsHeader() && (old(LoadOk()) ==> LoadOk())
      ensures Told() == Continued(old(Told()), event) && Paged() == Turned(old(Paged()), event)
      ensures Caused(event)
    {
      hide Valid, BaseIsHeader, EncodeText, LoadOk, Caused, Told, Continued, Turned;
      if event.ChannelMessage? || event.Notice? { SamePage(event); }
      match event
      case ChannelMessage(bytes, generation) => StepMessage(bytes, generation);
      case Notice(text) => StepNotice(text);
      case PrependHistory(_) => StepHistory(event);
      case HistoryCursor(_, _, _) => StepHistory(event);
    }

    method StepMessage(bytes: seq<byte>, generation: nat)
      requires Valid()
      modifies this`snapshot, this`awaitingSnapshot
      modifies this`live, this`lost, this`liveOverflowed, this`liveChunks, this`liveBytes, this`liveSequence
      modifies this`numbered, this`chunks
      modifies this`writeQueue, this`writeQueueBytes, this`writeInFlight, this`ledger
      modifies this`microtasks, this`fed, term, outputFilter
      modifies this`issued, this`presented, this`recoveryRequested, this`recoveries
      ensures Valid() && BaseIsHeader() && (old(LoadOk()) ==> LoadOk())
      ensures var event := ChannelMessage(bytes, generation); Told() == Continued(old(Told()), event) && Caused(event)
    {
      hide Valid, Header, HasRoom, RowsSupported, LoadOk, Overloaded, TooMuch;
      OnChannelMessage(bytes, generation);
    }

    method StepNotice(text: string)
      requires Valid()
      modifies this`live, this`lost, this`liveOverflowed, this`liveChunks, this`liveBytes, this`liveSequence
      modifies this`numbered, this`chunks
      modifies this`writeQueue, this`writeQueueBytes, this`writeInFlight, this`ledger
      modifies this`microtasks, this`fed, term, outputFilter
      modifies this`issued, this`presented, this`recoveryRequested, this`recoveries
      ensures Valid() && BaseIsHeader() && (old(LoadOk()) ==> LoadOk())
      ensures Told() == Continued(old(Told()), Notice(text)) && Caused(Notice(text))
    {
      hide Valid, EncodeText, Header, HasRoom, RowsSupported, LoadOk, Overloaded;
      AppendLive(EncodeText(text));
    }

    method StepHistory(event: Event)
      requires Valid() && (event.PrependHistory? || event.HistoryCursor?)
      modifies this`historyLines, this`historyBytes, this`historyClientTruncated
      modifies this`oldestFetched, this`oldestAvailable, this`historyExhausted
      ensures Valid() && BaseIsHeader() && (old(LoadOk()) ==> LoadOk())
      ensures Told() == Continued(old(Told()), event) && Caused(event) && Paged() == Turned(old(Paged()), event)
    {
      hide Valid, Header, RowsSupported, LineBytes, LoadOk, Overloaded, Room;
      match event
      case PrependHistory(lines) => var _ := AddHistory(lines);
      case HistoryCursor(fetched, available, exhausted) => SetCursor(fetched, available, exhausted);
    }

    method StepOutput(event: Event)
      requires Valid() && (event.Render? || event.XtermCallback? || event.Microtask?)
      modifies this`askedEarly, this`rendered
      modifies this`writeQueue, this`writeQueueBytes, this`writeInFlight, this`ledger, this`microtasks, this`issued
      modifies this`renderPending, this`replayInFlight, this`presented, this`recoveryRequested, this`recoveries
      modifies this`base, this`head, this`early, this`fed, this`stale, this`rowsRefused, this`wanted, this`stalled
      modifies term, outputFilter
      ensures Valid() && BaseIsHeader() && (rowsRefused ==> old(rowsRefused) || !RowsSupported(rows))
      ensures Told() == Continued(old(Told()), event) && Caused(event) && (old(LoadOk()) ==> LoadOk())
      ensures Paged() == Turned(old(Paged()), event)
      ensures stalled <==>
                || old(stalled)
                || (closing && event.XtermCallback? && old(term.outstanding) != [])
                || (closing && event.Microtask? && old(microtasks) > 0)
    {
      hide Valid, BaseIsHeader, RowsSupported, Told, Continued, Caused, LoadOk, Turned;
      SamePage(event);
      match event
      case Render => StepRender();
      case XtermCallback => StepCallback();
      case Microtask => StepPump();
    }

    lemma SamePage(event: Event)
      requires !event.PrependHistory? && !event.HistoryCursor? && !event.Reattach? && !event.Resize?
      ensures Turned(Paged(), event) == Paged()
    {
    }

    twostate lemma ToldNothing(event: Event)
      requires event.XtermCallback? || event.Microtask?
      requires unchanged(this`live, this`snapshot, this`awaitingSnapshot, this`closing, this`disposed)
      requires unchanged(this`attachmentGeneration, this`chunks, this`askedEarly, this`rendered)
      ensures Told() == Continued(old(Told()), event)
    {
    }

    method StepRender()
      requires Valid()
      modifies this`askedEarly, this`rendered
      modifies this`writeQueue, this`writeQueueBytes, this`writeInFlight, this`ledger, this`microtasks, this`issued
      modifies this`renderPending, this`replayInFlight, this`presented, this`recoveryRequested, this`recoveries
      modifies this`base, this`head, this`early, this`fed, this`stale, this`rowsRefused, this`wanted, this`stalled
      modifies term, outputFilter
      ensures Valid() && BaseIsHeader() && (rowsRefused ==> old(rowsRefused) || !RowsSupported(rows))
      ensures Told() == Continued(old(Told()), Render) && Caused(Render) && (old(LoadOk()) ==> LoadOk())
      ensures stalled == old(stalled)
    {
      hide Valid, BaseIsHeader, RowsSupported, Header, Stuck, WorkWaits, LiveData, Overloaded, LoadOk, Eased, Caused;
      RenderAll();
      EasedKeepsLoad(Render);
    }

    method StepCallback()
      requires Valid()
      modifies this`writeQueue, this`writeQueueBytes, this`writeInFlight, this`ledger, this`microtasks, this`issued
      modifies this`renderPending, this`replayInFlight, this`presented, this`recoveryRequested, this`recoveries
      modifies this`base, this`head, this`early, this`fed, this`stale, this`rowsRefused, this`wanted, this`stalled
      modifies term, outputFilter
      ensures Valid() && BaseIsHeader() && (rowsRefused ==> old(rowsRefused) || !RowsSupported(rows))
      ensures Told() == Continued(old(Told()), XtermCallback) && Caused(XtermCallback) && (old(LoadOk()) ==> LoadOk())
      ensures stalled <==> old(stalled) || (closing && old(term.outstanding) != [])
    {
      hide Valid, BaseIsHeader, RowsSupported, Header, Stuck, WorkWaits, LiveData, Overloaded, LoadOk, Eased, Caused;
      hide Told, Continued;
      OnXtermCallback();
      ToldNothing(XtermCallback);
      EasedKeepsLoad(XtermCallback);
    }

    method StepPump()
      requires Valid()
      modifies this`writeQueue, this`writeQueueBytes, this`writeInFlight, this`ledger, this`microtasks, this`issued
      modifies this`renderPending, this`replayInFlight, this`presented, this`recoveryRequested, this`recoveries
      modifies this`base, this`head, this`early, this`fed, this`stale, this`rowsRefused, this`wanted, this`stalled
      modifies term, outputFilter
      ensures Valid() && BaseIsHeader() && (rowsRefused ==> old(rowsRefused) || !RowsSupported(rows))
      ensures Told() == Continued(old(Told()), Microtask) && Caused(Microtask) && (old(LoadOk()) ==> LoadOk())
      ensures stalled <==> old(stalled) || (closing && old(microtasks) > 0)
    {
      hide Valid, BaseIsHeader, RowsSupported, Header, Stuck, WorkWaits, LiveData, Overloaded, LoadOk, Eased, Caused;
      hide Told, Continued;
      OnMicrotask();
      ToldNothing(Microtask);
      EasedKeepsLoad(Microtask);
    }

    /** The figures that the load of an attachment shows in. */
    ghost function Load(): Figures
      reads this`liveBytes, this`liveChunks, this`writeQueueBytes, this`writeQueue, this`liveOverflowed
      reads this`recoveryRequested, this`wanted
    {
      Figures(liveBytes, |liveChunks|, writeQueueBytes, |writeQueue|, liveOverflowed, recoveryRequested, wanted)
    }

    /** Buffers hold no more than came, and nothing overflowed or was given up for less than a heavy load. */
    ghost predicate LoadOk()
      reads this`liveBytes, this`liveChunks, this`writeQueueBytes, this`writeQueue, this`liveOverflowed
      reads this`recoveryRequested, this`wanted, this`rendered
      reads this`live, this`snapshot, this`awaitingSnapshot, this`closing, this`disposed, this`attachmentGeneration
      reads this`chunks, this`askedEarly
    {
      Bearable(Load(), Told())
    }

    lemma TellsLive()
      ensures Told().live == live && Told().closing == closing && Told().disposed == disposed
    {
    }

    lemma LoadShows()
      requires LoadOk()
      ensures recoveryRequested ==> Heavy(Told())
    {
    }

    lemma NoLoad()
      requires liveBytes == 0 && liveChunks == [] && writeQueue == [] && writeQueueBytes == 0
      requires !liveOverflowed && !recoveryRequested && !rendered
      ensures LoadOk()
    {
    }

    /** Output alone never makes a load heavy. */
    twostate lemma EasedKeepsLoad(event: Event)
      requires Valid() && Eased()
      requires unchanged(this`liveBytes, this`liveChunks, this`liveOverflowed, this`live, this`chunks, this`snapshot)
      requires rendered && !liveOverflowed ==> old(rendered) || wanted
      ensures (old(LoadOk()) ==> LoadOk()) && Caused(event)
    {
      hide Valid, Overloaded;
      if Overloaded() && old(LoadOk()) { OverloadIsHeavy(); }
    }

    lemma OverloadIsHeavy()
      requires Valid() && Overloaded() && liveBytes <= |live| && |liveChunks| <= chunks
      requires liveOverflowed ==> |live| > LIVE_BUFFER_CAP || chunks > LIVE_CHUNK_CAP
      ensures Heavy(Told())
    {
      hide PipeOk, RecoveryOk, ReplayOk, ProgressOk, ExactOk, Written, LiveData, HeadOk, Newest;
      if RowsSupported(rows) && |snapshot| <= SNAPSHOT_ROOM {
        HeaderFits(CurrentHead());
      }
    }

    method StepWindow(event: Event)
      requires Valid() && (event.Resize? || event.BeginClose? || event.CloseFailed? || event.Dispose?)
      modifies this`rows, this`closing, this`disposed, this`writeQueue, this`writeQueueBytes, this`ledger
      ensures Valid() && BaseIsHeader() && rows == if event.Resize? then event.rows else old(rows)
      ensures Told() == Continued(old(Told()), event) && Caused(event) && (old(LoadOk()) ==> LoadOk())
      ensures Paged() == Turned(old(Paged()), event)
    {
      hide Valid, BaseIsHeader, Told, Continued, Caused, LoadOk, Turned;
      match event
      case Resize(n) => StepResize(n);
      case BeginClose => StepClosing(event);
      case CloseFailed => StepClosing(event);
      case Dispose => StepClosing(event);
    }

    method StepResize(n: nat)
      requires Valid()
      modifies this`rows
      ensures Valid() && BaseIsHeader() && rows == n && Caused(Resize(n)) && (old(LoadOk()) ==> LoadOk())
      ensures Told() == Continued(old(Told()), Resize(n)) && Paged() == Turned(old(Paged()), Resize(n))
    {
      hide Valid, Header, RowsSupported, Overloaded, EncodeText, Room, LineBytes, Bearable, LiveData;
      SetRows(n);
    }

    method StepClosing(event: Event)
      requires Valid() && (event.BeginClose? || event.CloseFailed? || event.Dispose?)
      modifies this`closing, this`disposed, this`writeQueue, this`writeQueueBytes, this`ledger
      ensures Valid() && BaseIsHeader() && Caused(event) && (old(LoadOk()) ==> LoadOk())
      ensures Told() == Continued(old(Told()), event) && Paged() == Turned(old(Paged()), event)
    {
      hide Valid, Header, RowsSupported, Overloaded, EncodeText, Turned, LoadOk, Caused, Eased;
      SamePage(event);
      match event {
        case BeginClose => BeginClose();
        case CloseFailed => CloseFailed();
        case Dispose => Close();
      }
      QueueOnlyShrank();
      EasedKeepsLoad(event);
    }

    method SetRows(n: nat)
      requires Valid()
      modifies this`rows
      ensures Valid() && rows == n
    {
      hide PipeOk, ShownOk, RecoveryOk, LiveOk, ReplayOk, ProgressOk, ExactOk;
      rows := n;
    }

    ghost function Paged(): Page
      reads this`historyLines, this`historyClientTruncated, this`historyExhausted, this`oldestFetched
      reads this`oldestAvailable, this`rows
    {
      Page(historyLines, historyClientTruncated, historyExhausted, oldestFetched, oldestAvailable, rows)
    }

    /** The last header stays as it was, or it is the one of now. */
    twostate lemma HeadIs()
      requires BaseIsHeader()
      ensures (head == old(head) && (old(stale) ==> stale)) || head == HeadOf(Paged(), snapshot)
    {
    }

    ghost function Told(): Story
      reads this`live, this`snapshot, this`awaitingSnapshot, this`closing, this`disposed, this`attachmentGeneration
      reads this`chunks, this`askedEarly, this`rendered
    {
      Story(live, snapshot, awaitingSnapshot, closing, disposed, attachmentGeneration, chunks, askedEarly, rendered)
    }
  }

  lemma ChunkKeepsLoad(f: Figures, g: Figures, s: Story, data: seq<byte>)
    requires g.liveBytes <= f.liveBytes + |data| && g.liveChunks <= f.liveChunks + 1
    requires g.queueBytes <= f.queueBytes + |data| && g.queued <= f.queued + 1
    requires g.liveOverflowed ==>
               f.liveOverflowed || f.liveBytes + |data| > LIVE_BUFFER_CAP || f.liveChunks + 1 > LIVE_CHUNK_CAP
    requires (f.liveOverflowed ==> g.liveOverflowed) && f.wanted == g.wanted
    requires g.recoveryRequested && !f.recoveryRequested ==>
               || |data| > LIVE_BUFFER_CAP || |data| > TERMINAL_WRITE_QUEUE_CAP - f.queueBytes
               || f.queued >= TERMINAL_WRITE_QUEUE_CHUNK_CAP
    ensures Bearable(f, s) ==> Bearable(g, s.(live := s.live + data, chunks := s.chunks + 1))
  {
  }

  lemma SnapshotKeepsLoad(f: Figures, s: Story, bytes: seq<byte>)
    requires s.snapshot == []
    ensures Bearable(f, s) ==> Bearable(f, s.(awaitingSnapshot := false, snapshot := bytes))
  {
  }

  /** What a header would show apart from the snapshot: also decided by the events alone. */
  datatype Page = Page(
    lines: seq<string>,
    clientTruncated: bool,
    exhausted: bool,
    oldestFetched: nat,
    oldestAvailable: nat,
    rows: nat)

  function Turned(p: Page, event: Event): Page {
    match event
    case PrependHistory(lines) =>
      var cut :=
        |lines| - Room(|p.lines|, LineBytes(p.lines), lines, HISTORY_RENDER_LINE_CAP, HISTORY_RENDER_BYTE_CAP);
      p.(lines := lines[cut..] + p.lines,
         clientTruncated := p.clientTruncated || cut > 0,
         exhausted := p.exhausted || cut > 0)
    case HistoryCursor(fetched, available, exhausted) =>
      p.(oldestFetched := fetched, oldestAvailable := available, exhausted := exhausted)
    case Reattach => Page([], false, false, 0, 1, p.rows)
    case Resize(rows) => p.(rows := rows)
    case _ => p
  }

  lemma PageGrows(p: Page, lines: seq<string>, cut: nat)
    requires cut <= |lines|
    requires |lines| - cut
          == Room(|p.lines|, LineBytes(p.lines), lines, HISTORY_RENDER_LINE_CAP, HISTORY_RENDER_BYTE_CAP)
    ensures Turned(p, PrependHistory(lines))
         == Page(lines[cut..] + p.lines, p.clientTruncated || cut > 0, p.exhausted || cut > 0,
                 p.oldestFetched, p.oldestAvailable, p.rows)
  {
    hide Room, LineBytes;
  }

  function PageOf(rows: nat, events: seq<Event>): Page {
    if events == [] then Page([], false, false, 0, 1, rows)
    else Turned(PageOf(rows, events[..|events| - 1]), events[|events| - 1])
  }

  function HeadOf(p: Page, snapshot: seq<byte>): Head {
    Head(p.lines, p.clientTruncated, p.exhausted, p.oldestFetched, p.oldestAvailable, p.rows, snapshot)
  }

  /** The header a replay started after `count` events has. */
  function HeadAfter(rows: nat, events: seq<Event>, count: nat): Head
    requires count <= |events|
  {
    HeadOf(PageOf(rows, events[..count]), StoryOf(events[..count]).snapshot)
  }

  /** The header is that of a replay started at some point of the current attachment. */
  ghost predicate HeadSince(rows: nat, events: seq<Event>, h: Head) {
    exists k: nat :: k <= |events| && h == HeadAfter(rows, events, k) && NoReattach(events[k..])
  }

  predicate NoReattach(events: seq<Event>) {
    forall i :: 0 <= i < |events| ==> !events[i].Reattach?
  }

  lemma HeadStays(rows: nat, before: seq<Event>, event: Event, h: Head)
    requires HeadSince(rows, before, h) && !event.Reattach?
    ensures HeadSince(rows, before + [event], h)
  {
    var events := before + [event];
    var k: nat :| k <= |before| && h == HeadAfter(rows, before, k) && NoReattach(before[k..]);
    assert events[..k] == before[..k] && events[k..] == before[k..] + [event];
    assert h == HeadAfter(rows, events, k);
  }

  lemma HeadNow(rows: nat, events: seq<Event>)
    ensures HeadSince(rows, events, HeadOf(PageOf(rows, events), StoryOf(events).snapshot))
  {
    assert events[..|events|] == events && events[|events|..] == [];
    assert HeadOf(PageOf(rows, events), StoryOf(events).snapshot) == HeadAfter(rows, events, |events|);
  }

  /** The last header stays that of a point of the current attachment. */
  lemma HeadFollows(rows: nat, before: seq<Event>, event: Event, was: Head, wasStale: bool, now: Head, stale: bool)
    requires var events := before + [event];
             || (now == was && (wasStale ==> stale))
             || now == HeadOf(PageOf(rows, events), StoryOf(events).snapshot)
    requires (wasStale || HeadSince(rows, before, was)) && (event.Reattach? ==> stale)
    ensures stale || HeadSince(rows, before + [event], now)
  {
    hide HeadSince, PageOf, StoryOf;
    HeadNow(rows, before + [event]);
    if !stale && !wasStale { HeadStays(rows, before, event, was); }
  }

  /** What a tab was told: the part of its state that the events alone decide. */
  datatype Story = Story(
    live: seq<byte>,
    snapshot: seq<byte>,
    awaitingSnapshot: bool,
    closing: bool,
    disposed: bool,
    generation: nat,
    chunks: nat,
    askedEarly: bool,
    rendered: bool)

  /** The snapshot size up to which a replay with a full history and a full write queue always fits. */
  const SNAPSHOT_ROOM: nat := 3 * 1024 * 1024

  /** More live bytes or chunks than the write queue holds, or a very large snapshot. */
  predicate Heavy(s: Story) {
    || |s.live| > TERMINAL_WRITE_QUEUE_CAP || s.chunks > TERMINAL_WRITE_QUEUE_CHUNK_CAP
    || |s.snapshot| > SNAPSHOT_ROOM
  }

  datatype Figures = Figures(
    liveBytes: nat,
    liveChunks: nat,
    queueBytes: nat,
    queued: nat,
    liveOverflowed: bool,
    recoveryRequested: bool,
    wanted: bool)

  predicate Bearable(f: Figures, s: Story) {
    && f.liveBytes <= |s.live| && f.liveChunks <= s.chunks && f.queueBytes <= |s.live| && f.queued <= s.chunks
    && (f.liveOverflowed ==> |s.live| > LIVE_BUFFER_CAP || s.chunks > LIVE_CHUNK_CAP)
    && (f.recoveryRequested ==> Heavy(s))
    && (s.rendered && !f.liveOverflowed ==> f.wanted)
  }

  function Continued(s: Story, event: Event): Story {
    match event
    case ChannelMessage(bytes, g) =>
      if s.closing || g != s.generation then s
      else if s.awaitingSnapshot then s.(awaitingSnapshot := false, snapshot := bytes)
      else s.(live := s.live + bytes, chunks := s.chunks + 1)
    case Notice(text) =>
      if s.closing then s else s.(live := s.live + EncodeText(text), chunks := s.chunks + 1)
    case Render =>
      if s.closing then s else s.(askedEarly := s.askedEarly || s.awaitingSnapshot, rendered := true)
    case Reattach => Story([], [], true, s.closing, s.disposed, s.generation + 1, 0, false, false)
    case BeginClose => s.(closing := true)
    case CloseFailed => s.(closing := s.disposed)
    case Dispose => s.(closing := true, disposed := true)
    case _ => s
  }

  const START := Story([], [], true, false, false, 0, 0, false, false)

  function StoryOf(events: seq<Event>): Story {
    if events == [] then START else Continued(StoryOf(events[..|events| - 1]), events[|events| - 1])
  }

  /** What reached the tab in the current attachment, ignored during a close or not: the snapshot, then live bytes. */
  datatype Arrivals = Arrivals(awaitingSnapshot: bool, snapshot: seq<byte>, live: seq<byte>, generation: nat)

  function Arrived(a: Arrivals, event: Event): Arrivals {
    match event
    case ChannelMessage(bytes, g) =>
      if g != a.generation then a
      else if a.awaitingSnapshot then a.(awaitingSnapshot := false, snapshot := bytes)
      else a.(live := a.live + bytes)
    case Notice(text) => a.(live := a.live + EncodeText(text))
    case Reattach => Arrivals(true, [], [], a.generation + 1)
    case _ => a
  }

  function ArrivalsOf(events: seq<Event>): Arrivals {
    if events == [] then Arrivals(true, [], [], 0)
    else Arrived(ArrivalsOf(events[..|events| - 1]), events[|events| - 1])
  }

  /** The bytes an event brings to the current attachment. */
  function Brought(generation: nat, e: Event): seq<byte> {
    match e
    case ChannelMessage(bytes, g) => if g == generation then bytes else []
    case Notice(text) => EncodeText(text)
    case _ => []
  }

  /** How many bytes of the current attachment came while a close was under way. */
  function Missed(events: seq<Event>): nat {
    if events == [] then 0
    else
      var before, e := events[..|events| - 1], events[|events| - 1];
      if e.Reattach? then 0
      else Missed(before) + if StoryOf(before).closing then |Brought(StoryOf(before).generation, e)| else 0
  }

  /** Whether an empty snapshot came while a close was under way, so that a later message is taken for it. */
  predicate MissedEmptySnapshot(events: seq<Event>) {
    events != [] &&
    (var before, e := events[..|events| - 1], events[|events| - 1];
     var a := ArrivalsOf(before);
     && !e.Reattach?
     && (|| MissedEmptySnapshot(before)
         || (StoryOf(before).closing && e == ChannelMessage([], a.generation) && a.awaitingSnapshot)))
  }

  /** The tab took what arrived, as what it was. */
  ghost predicate TookAll(s: Story, a: Arrivals) {
    s.awaitingSnapshot == a.awaitingSnapshot && s.snapshot == a.snapshot && s.live == a.live
  }

  /** What the tab took and what it missed make up what arrived. */
  ghost predicate Missing(s: Story, a: Arrivals, missed: nat, emptySnapshot: bool) {
    && s.generation == a.generation
    && (s.awaitingSnapshot ==> s.snapshot == []) && (a.awaitingSnapshot ==> a.snapshot == [])
    && |s.snapshot| + |s.live| + missed == |a.snapshot| + |a.live|
    && (missed == 0 && !emptySnapshot ==> TookAll(s, a))
  }

  lemma EventMissed(s: Story, a: Arrivals, missed: nat, emptySnapshot: bool, e: Event)
    requires Missing(s, a, missed, emptySnapshot) && !e.Reattach?
    ensures Missing(Continued(s, e), Arrived(a, e),
                    missed + if s.closing then |Brought(s.generation, e)| else 0,
                    emptySnapshot || (s.closing && e == ChannelMessage([], a.generation) && a.awaitingSnapshot))
  {
    hide EncodeText;
  }

  lemma {:induction false} MissedIsMissing(events: seq<Event>)
    ensures Missing(StoryOf(events), ArrivalsOf(events), Missed(events), MissedEmptySnapshot(events))
  {
    hide Missing, Continued, Arrived, Brought;
    if events == [] {
      NothingMissing();
    } else {
      var before, e := events[..|events| - 1], events[|events| - 1];
      MissedIsMissing(before);
      if e.Reattach? {
        ReattachMissed(StoryOf(before), ArrivalsOf(before), Missed(before), MissedEmptySnapshot(before));
      } else {
        EventMissed(StoryOf(before), ArrivalsOf(before), Missed(before), MissedEmptySnapshot(before), e);
      }
    }
  }

  lemma NothingMissing()
    ensures Missing(START, Arrivals(true, [], [], 0), 0, false)
  {
  }

  lemma ReattachMissed(s: Story, a: Arrivals, missed: nat, emptySnapshot: bool)
    requires Missing(s, a, missed, emptySnapshot)
    ensures Missing(Continued(s, Reattach), Arrived(a, Reattach), 0, false)
  {
  }

  /** Unless an empty snapshot was ignored, the tab took what arrived exactly when no byte came during a close. */
  lemma TookAllUnlessMissed(events: seq<Event>)
    ensures Missed(events) > 0 ==> !TookAll(StoryOf(events), ArrivalsOf(events))
    ensures !MissedEmptySnapshot(events) ==>
              (TookAll(StoryOf(events), ArrivalsOf(events)) <==> Missed(events) == 0)
  {
    hide StoryOf, ArrivalsOf, Missed, MissedEmptySnapshot;
    MissedIsMissing(events);
  }

  /** Nothing arrives, completes or is pumped while a close is under way. */
  predicate QuietWhileClosing(events: seq<Event>) {
    events == [] ||
    (var before, e := events[..|events| - 1], events[|events| - 1];
     && QuietWhileClosing(before)
     && (StoryOf(before).closing && !StoryOf(before).disposed ==>
           !e.ChannelMessage? && !e.Notice? && !e.XtermCallback? && !e.Microtask?))
  }

  /** In such a run only a disposed tab may have ignored a completion. */
  lemma StaysQuiet(before: seq<Event>, e: Event, was: bool, now: bool)
    requires QuietWhileClosing(before + [e])
    requires QuietWhileClosing(before) && was ==> StoryOf(before).disposed
    requires now ==> (was && !e.Reattach?) || (StoryOf(before).closing && (e.XtermCallback? || e.Microtask?))
    ensures now ==> StoryOf(before + [e]).disposed
  {
    assert (before + [e])[..|before|] == before;
  }

  /** All row counts of a run are ones the preamble supports. */
  predicate RowsStaySupported(rows: nat, events: seq<Event>) {
    1 <= rows <= 4096 && forall i :: 0 <= i < |events| && events[i].Resize? ==> 1 <= events[i].rows <= 4096
  }

  /** All events, one after the other. */
  method Follow(rows: nat, events: seq<Event>) returns (tab: Tab)
    ensures tab.Valid() && fresh(tab) && tab.Told() == StoryOf(events) && tab.LoadOk()
    ensures tab.Paged() == PageOf(rows, events) && (tab.stale || HeadSince(rows, events, tab.head))
    ensures RowsStaySupported(rows, events) ==> RowsSupported(tab.rows) && !tab.rowsRefused
    ensures QuietWhileClosing(events) ==> tab.stalled ==> tab.disposed
  {
    hide Tab.Valid, Tab.LoadOk, Tab.Stuck, RowsSupported, Continued, QuietWhileClosing, Tab.Caused;
    hide HeadSince, HeadOf, Tab.Paged, Turned, Tab.BaseIsHeader;
    tab := new Tab(rows);
    Supported(rows);
    tab.NoLoad();
    for i := 0 to |events|
      invariant tab.Valid() && fresh(tab) && fresh(tab.term) && fresh(tab.outputFilter)
      invariant tab.Told() == StoryOf(events[..i]) && tab.LoadOk()
      invariant tab.Paged() == PageOf(rows, events[..i]) && (tab.stale || HeadSince(rows, events[..i], tab.head))
      invariant RowsStaySupported(rows, events) ==> RowsSupported(tab.rows) && !tab.rowsRefused
      invariant QuietWhileClosing(events[..i]) ==> tab.stalled ==> tab.disposed
    {
      assert events[..i + 1][..i] == events[..i];
      assert events[..i + 1] == events[..i] + [events[i]];
      ghost var head, stale, stalled := tab.head, tab.stale, tab.stalled;
      tab.Step(events[i]);
      Supported(tab.rows);
      if QuietWhileClosing(events[..i + 1]) { StaysQuiet(events[..i], events[i], stalled, tab.stalled); }
      HeadFollows(rows, events[..i], events[i], head, stale, tab.head, tab.stale);
    }
    assert events[..|events|] == events;
  }

  /**
   * Every run, whatever the events and their order. While the tab is presented, open and has not
   * asked for recovery, what went to the filter and what is queued are the last replay's header and
   * every live byte the tab took. What it took is what arrived exactly when no byte came during a close,
   * an ignored empty snapshot apart.
   * xterm holds the filtered form of what went to the filter. Nothing is ever stuck unless something
   * completed or was pumped during a close, no render is refused while all row counts are supported, and
   * recovery is never asked for unless the attachment's load is heavy. So, all that given, an attachment that
   * was asked to render is presented or on its way to be.
   */
  method Run(rows: nat, events: seq<Event>) returns (tab: Tab)
    ensures fresh(tab) && tab.Valid() && tab.Told() == StoryOf(events)
    ensures tab.presented ==>
              && RowsSupported(tab.head.rows) && tab.base == Spelled(tab.head)
              && IsSuffix(tab.head.lines, tab.historyLines)
              && tab.head.snapshot == (if tab.early then [] else StoryOf(events).snapshot)
              && (tab.early ==> StoryOf(events).askedEarly)
    ensures tab.Paged() == PageOf(rows, events) && (tab.presented ==> HeadSince(rows, events, tab.head))
    ensures tab.recoveryRequested ==> Heavy(StoryOf(events))
    ensures StoryOf(events).rendered && !Heavy(StoryOf(events)) && RowsStaySupported(rows, events)
            && QuietWhileClosing(events) && !tab.disposed ==>
              tab.presented || tab.replayInFlight || (tab.renderPending && tab.writeInFlight)
    ensures tab.presented && !tab.recoveryRequested && !tab.disposed ==>
              && Sent(tab.fed, tab.writeQueue) == tab.base + StoryOf(events).live
              && Filtered(tab.term.input, tab.outputFilter.pending) == FilterOf(tab.fed)
    ensures Missed(events) > 0 ==> !TookAll(StoryOf(events), ArrivalsOf(events))
    ensures !MissedEmptySnapshot(events) ==>
              (TookAll(StoryOf(events), ArrivalsOf(events)) <==> Missed(events) == 0)
    ensures tab.AtRest() ==> Filtered(tab.term.input, tab.outputFilter.pending) == FilterOf(tab.base + tab.live)
    ensures forall text :: tab.AtRest() && tab.base + tab.live == EncodeText(text) ==>
              tab.term.input == EncodeText(StripBidiIsolates(text))
    ensures RowsStaySupported(rows, events) ==> !tab.rowsRefused
    ensures QuietWhileClosing(events) && !tab.disposed ==> !tab.Stuck()
  {
    hide Tab.Valid, Tab.LoadOk, Tab.Stuck, Heavy, RowsSupported, Written, Spelled, FilterOf, Sent;
    hide Missed, MissedEmptySnapshot, ArrivalsOf, HeadSince, Tab.Paged, PageOf;
    tab := Follow(rows, events);
    TookAllUnlessMissed(events);
    tab.Shows();
    if tab.presented { WrittenIsSpelled(tab.head); }
    tab.LoadShows();
    if StoryOf(events).rendered && !Heavy(StoryOf(events)) && RowsStaySupported(rows, events)
       && QuietWhileClosing(events) && !tab.disposed {
      tab.OnItsWay();
    }
    if tab.presented && !tab.recoveryRequested && !tab.closing && tab.writeQueue == [] {
      NothingQueued(tab.fed, tab.writeQueue);
    }
    forall text | tab.AtRest() && tab.base + tab.live == EncodeText(text)
      ensures tab.term.input == EncodeText(StripBidiIsolates(text))
    {
      FilterStripsIsolates(text);
    }
  }

  /** A replay of one snapshot alone fits for every supported row count. */
  lemma SnapshotFits(tab: Tab)
    requires RowsSupported(tab.rows) && tab.historyLines == [] && tab.snapshot == [] && tab.liveChunks == []
    ensures |tab.Header() + LiveData(tab.liveChunks)| <= TERMINAL_REPLAY_CAP
  {
    hide SnapshotReplayPreamble;
    PreambleFits(tab.rows);
    LiveDataNone(tab.liveChunks);
  }

  /** What a tab was told that got an empty snapshot and was asked to render it. */
  const OPEN := START.(awaitingSnapshot := false, rendered := true)

  /** A tab with an empty snapshot and its first replay in flight. */
  method FirstReplay(rows: nat) returns (tab: Tab)
    requires RowsSupported(rows)
    ensures fresh(tab) && fresh(tab.term) && fresh(tab.outputFilter) && tab.Valid()
    ensures tab.Told() == OPEN && tab.liveChunks == []
    ensures tab.wanted && tab.replayInFlight
    ensures tab.term.outstanding == [ReplayDone(0, tab.liveSequence)] && !tab.renderPending
    ensures !tab.liveOverflowed && !tab.recoveryRequested && !tab.presented && !tab.Stuck()
  {
    hide RowsSupported, Tab.Valid, Tab.Header, Tab.Stuck, LiveData, Written, IsSuffix, Tab.BaseIsHeader, Tab.Eased;
    hide FilterOf, Sent, Tab.AtRest;
    tab := FirstSnapshot(rows);
    SnapshotFits(tab);
    tab.RenderAll();
    tab.Shows();
  }

  method FirstSnapshot(rows: nat) returns (tab: Tab)
    ensures fresh(tab) && fresh(tab.term) && fresh(tab.outputFilter) && tab.Valid() && tab.rows == rows
    ensures tab.Told() == START.(awaitingSnapshot := false)
    ensures tab.liveChunks == [] && tab.historyLines == []
    ensures !tab.liveOverflowed && !tab.recoveryRequested && !tab.writeInFlight && !tab.replayInFlight && !tab.stalled
  {
    hide RowsSupported, Tab.Valid;
    tab := new Tab(rows);
    tab.OnChannelMessage([], 0);
  }

  /** The same tab with the replay on screen. */
  method FirstPresentation(rows: nat) returns (tab: Tab)
    requires RowsSupported(rows)
    ensures fresh(tab) && fresh(tab.term) && fresh(tab.outputFilter) && tab.Valid()
    ensures tab.Told() == OPEN && tab.presented && !tab.recoveryRequested && !tab.closing && !tab.disposed
  {
    hide RowsSupported, Tab.Valid, Tab.Stuck, Tab.WorkWaits, LiveData;
    tab := FirstReplay(rows);
    LiveDataNone(tab.liveChunks);
    tab.OnReplayDone(0, tab.liveSequence);
  }

  /** A tab presented before its snapshot came. */
  method EarlyPresentation(rows: nat) returns (tab: Tab)
    requires RowsSupported(rows)
    ensures fresh(tab) && fresh(tab.term) && fresh(tab.outputFilter) && tab.Valid()
    ensures tab.presented && tab.early && !tab.recoveryRequested
    ensures tab.Told() == START.(askedEarly := true, rendered := true)
  {
    hide RowsSupported, Tab.Valid, Tab.Stuck, Tab.WorkWaits, Tab.LoadOk, LiveData, Written, IsSuffix;
    tab := EarlyReplay(rows);
    LiveDataNone(tab.liveChunks);
    tab.OnReplayDone(0, tab.liveSequence);
    tab.Shows();
  }

  method EarlyReplay(rows: nat) returns (tab: Tab)
    requires RowsSupported(rows)
    ensures fresh(tab) && fresh(tab.term) && fresh(tab.outputFilter) && tab.Valid()
    ensures tab.term.outstanding == [ReplayDone(0, tab.liveSequence)] && !tab.renderPending && tab.liveChunks == []
    ensures tab.Told() == START.(askedEarly := true, rendered := true) && !tab.recoveryRequested && !tab.liveOverflowed
  {
    hide RowsSupported, Tab.Valid, Tab.Header, Tab.LoadOk, LiveData, Written, IsSuffix;
    tab := new Tab(rows);
    SnapshotFits(tab);
    tab.RenderAll();
  }

  /** A render asked for before the snapshot came shows none, also after it has come, until the next render. */
  method EarlyRenderOmitsSnapshot(rows: nat) returns (tab: Tab)
    requires RowsSupported(rows)
    ensures tab.Valid() && tab.presented && !tab.recoveryRequested && !tab.closing
    ensures tab.snapshot == [65] && tab.early && tab.head.snapshot == []
  {
    hide RowsSupported, Tab.Valid, Tab.LoadOk, Written, IsSuffix;
    tab := EarlyPresentation(rows);
    tab.OnChannelMessage([65], 0);
    tab.Shows();
  }

  const LOSING: seq<Event> :=
    [ChannelMessage([], 0), Render, XtermCallback, BeginClose, ChannelMessage([65], 0), CloseFailed]

  /**
   * A close that fails can lose live bytes: the tab is presented, open and asks for no recovery, and a byte
   * that arrived is neither on screen nor queued.
   */
  method FailedCloseLosesBytes(rows: nat) returns (tab: Tab)
    requires RowsSupported(rows)
    ensures tab.Valid() && tab.presented && !tab.closing && !tab.recoveryRequested && tab.Told() == StoryOf(LOSING)
    ensures Missed(LOSING) == 1 && Sent(tab.fed, tab.writeQueue) != tab.base + ArrivalsOf(LOSING).live
  {
    hide RowsSupported, Tab.Valid, Tab.Stuck, Tab.Told, Sent, StoryOf, Missed, ArrivalsOf;
    tab := FirstPresentation(rows);
    IgnoreDuringClose(tab, [65]);
    LosingStory();
    tab.Shows();
    tab.TellsLive();
  }

  /** A message that comes while a close is under way, and the close fails. */
  method IgnoreDuringClose(tab: Tab, bytes: seq<byte>)
    requires tab.Valid() && !tab.closing && !tab.disposed
    modifies tab, tab.term, tab.outputFilter
    ensures tab.Valid() && tab.Told() == old(tab.Told()) && !tab.closing && !tab.disposed
    ensures tab.presented == old(tab.presented) && tab.recoveryRequested == old(tab.recoveryRequested)
  {
    hide Tab.Valid, Tab.LoadOk;
    tab.BeginClose();
    tab.OnChannelMessage(bytes, tab.attachmentGeneration);
    tab.CloseFailed();
  }

  lemma LosingStory()
    ensures StoryOf(LOSING) == OPEN
    ensures Missed(LOSING) == 1 && ArrivalsOf(LOSING).live == [65]
  {
    var open := OPEN;
    LosingStart();
    assert LOSING[..4][..3] == LOSING[..3] && StoryOf(LOSING[..4]) == open.(closing := true);
    assert LOSING[..5][..4] == LOSING[..4] && StoryOf(LOSING[..5]) == open.(closing := true);
    assert Missed(LOSING[..4]) == 0 && Missed(LOSING[..5]) == 1;
    assert ArrivalsOf(LOSING[..5]).live == [] + [65];
  }

  lemma LosingStart()
    ensures StoryOf(LOSING[..3]) == OPEN
    ensures ArrivalsOf(LOSING[..3]) == Arrivals(false, [], [], 0) && Missed(LOSING[..3]) == 0
  {
    assert LOSING[..1] == [ChannelMessage([], 0)] && LOSING[..1][..0] == [];
    assert LOSING[..2][..1] == LOSING[..1] && LOSING[..3][..2] == LOSING[..2];
    assert StoryOf(LOSING[..1]) == START.(awaitingSnapshot := false) && StoryOf(LOSING[..2]) == OPEN;
    assert ArrivalsOf(LOSING[..1]) == Arrivals(false, [], [], 0) == ArrivalsOf(LOSING[..2]);
    assert Missed(LOSING[..1]) == 0 && Missed(LOSING[..2]) == 0;
  }

  /** A close that fails can also leave the tab blank for good: the end of its replay was ignored. */
  method FailedCloseStalls(rows: nat) returns (tab: Tab)
    requires RowsSupported(rows)
    ensures tab.Valid() && !tab.closing && !tab.disposed && !tab.recoveryRequested && tab.Stuck()
  {
    hide RowsSupported, Tab.Valid, LiveData;
    tab := FirstReplay(rows);
    tab.BeginClose();
    tab.OnReplayDone(0, tab.liveSequence);
    tab.CloseFailed();
  }

  /** For every row count that is not supported the first render stays pending with nothing in flight. */
  method UnsupportedRowsStall(rows: nat) returns (tab: Tab)
    requires rows < 1 || rows > 4096
    ensures tab.Valid() && tab.rowsRefused && tab.renderPending && !tab.writeInFlight && !tab.replayInFlight
  {
    hide RowsSupported, Tab.Valid, LiveData;
    Supported(rows);
    tab := new Tab(rows);
    tab.RenderAll();
  }
}
