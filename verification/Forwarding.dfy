/**
 * One TCP forwarding channel: the peer's frames, gated by two atomic flags and two one-slot
 * channels, against the actor's upstream and downstream loops. Every method is one atomic step;
 * a step that is not enabled does nothing.
 */
module Forwarding {
  import opened Bytes

  const FORWARD_DATA_BYTES_MAX: nat := 8 * 1024

  datatype Frame = Data(bytes: seq<byte>) | Eof

  /** What the actor sends to the peer. */
  datatype Message = Opened | Frame(frame: Frame) | Ack

  /** The connection task inside `message`: between taking the flag and filling the slot. */
  datatype PeerCall = NoCall | GotInput(frame: Frame) | GotAck

  datatype Upstream =
    | Connecting
    | Opening
    | Receiving
    | Writing(frame: Frame, written: nat)
    | Acking(eof: bool)
    | UpDone

  datatype Downstream =
    | NotStarted
    | Reading
    | Holding(frame: Frame)
    | Sending(frame: Frame)
    | Awaiting(eof: bool)
    | DownDone

  function Payload(frames: seq<Frame>): seq<byte> {
    if frames == [] then [] else (if frames[0].Data? then frames[0].bytes else []) + Payload(frames[1..])
  }

  lemma {:induction false} PayloadSnoc(frames: seq<Frame>, f: Frame)
    ensures Payload(frames + [f]) == Payload(frames) + if f.Data? then f.bytes else []
  {
    if frames == [] {
      assert Payload([f]) == (if f.Data? then f.bytes else []) + Payload([]);
    } else {
      PayloadSnoc(frames[1..], f);
      assert (frames + [f])[1..] == frames[1..] + [f];
    }
  }

  /** Data frames hold between one and `FORWARD_DATA_BYTES_MAX` bytes. */
  predicate WellSized(f: Frame) {
    f.Data? ==> 0 < |f.bytes| <= FORWARD_DATA_BYTES_MAX
  }

  /** Every frame is well sized, and an end of file, if there is one, comes last. */
  ghost predicate EndsOnce(frames: seq<Frame>) {
    && (forall i :: 0 <= i < |frames| ==> WellSized(frames[i]))
    && (forall i :: 0 <= i < |frames| - 1 ==> frames[i].Data?)
  }

  predicate Ended(frames: seq<Frame>) {
    frames != [] && frames[|frames| - 1].Eof?
  }

  /** What the writer still has to give to the socket. */
  function Unwritten(up: Upstream): seq<byte> {
    if up.Writing? && up.frame.Data? && up.written <= |up.frame.bytes| then up.frame.bytes[up.written..] else []
  }

  /** The socket's write side has been shut down, as far as the writer knows. */
  predicate Closed(up: Upstream) {
    (up.Writing? && up.frame.Eof? && up.written > 0) || up == Acking(true) || up.UpDone?
  }

  /**
   * The accepted data is with the socket, with the writer or in the slot, in this order; the slot or
   * the writer holds the latest frame.
   */
  ghost predicate Carried(accepted: seq<Frame>, socket: seq<byte>, up: Upstream, input: seq<Frame>) {
    && EndsOnce(accepted)
    && Payload(accepted) == socket + Unwritten(up) + Payload(input)
    && |input| <= 1
    && (input != [] ==> accepted != [] && input[0] == accepted[|accepted| - 1] && !Closed(up) && !up.Writing?)
    && (up.Writing? ==> accepted != [] && up.frame == accepted[|accepted| - 1])
    && (up.Writing? && up.frame.Data? ==> up.written <= |up.frame.bytes|)
    && (Closed(up) ==> Ended(accepted))
    && (Ended(accepted) ==> input != [] || (up.Writing? && up.frame.Eof?) || Closed(up))
    && (up.Connecting? ==> accepted == [])
  }

  lemma CarryFill(accepted: seq<Frame>, socket: seq<byte>, up: Upstream, frame: Frame)
    requires Carried(accepted, socket, up, []) && WellSized(frame)
    requires !up.Connecting? && !up.Writing? && !Closed(up)
    ensures Carried(accepted + [frame], socket, up, [frame])
  {
    PayloadSnoc(accepted, frame);
    PayloadSnoc([], frame);
    assert [] + [frame] == [frame];
    ConcatAssociates(socket, [], Payload([]));
  }

  lemma CarryReceive(accepted: seq<Frame>, socket: seq<byte>, up: Upstream, input: seq<Frame>)
    requires Carried(accepted, socket, up, input) && input != []
    ensures Carried(accepted, socket, Writing(input[0], 0), [])
  {
    PayloadSnoc([], input[0]);
    assert input == [] + [input[0]];
    if input[0].Data? {
      assert input[0].bytes[0..] == input[0].bytes;
    }
  }

  lemma CarryWrite(accepted: seq<Frame>, socket: seq<byte>, up: Upstream, next: nat)
    requires Carried(accepted, socket, up, []) && up.Writing? && up.frame.Data?
    requires up.written <= next <= |up.frame.bytes|
    ensures Carried(accepted, socket + up.frame.bytes[up.written..next], Writing(up.frame, next), [])
  {
    var b := up.frame.bytes;
    assert b[up.written..] == b[up.written..next] + b[next..];
    ConcatAssociates(socket, b[up.written..next], b[next..]);
  }

  lemma CarryShutdown(accepted: seq<Frame>, socket: seq<byte>, up: Upstream)
    requires Carried(accepted, socket, up, []) && up.Writing? && up.frame.Eof?
    ensures Carried(accepted, socket, Writing(up.frame, 1), [])
  {
  }

  lemma CarriedPrefix(accepted: seq<Frame>, socket: seq<byte>, up: Upstream, input: seq<Frame>)
    requires Carried(accepted, socket, up, input)
    ensures socket <= Payload(accepted) && EndsOnce(accepted)
    ensures Closed(up) ==> socket == Payload(accepted) && input == []
  {
    if Closed(up) {
      assert Payload(accepted) == socket + [] + [];
    }
  }

  function Held(down: Downstream): seq<byte> {
    if (down.Holding? || down.Sending?) && down.frame.Data? then down.frame.bytes else []
  }

  /** What was read went out in frames, in order, or is held in the frame about to go. */
  ghost predicate Relayed(sent: seq<Frame>, read: seq<byte>, down: Downstream) {
    && EndsOnce(sent)
    && read == Payload(sent) + Held(down)
    && (down.Holding? || down.Sending? ==> WellSized(down.frame))
    && (Ended(sent) <==> down == Awaiting(true) || down.DownDone?)
  }

  lemma RelayRead(sent: seq<Frame>, read: seq<byte>, bytes: seq<byte>)
    requires Relayed(sent, read, Reading) && |bytes| <= FORWARD_DATA_BYTES_MAX
    ensures Relayed(sent, read + bytes, Holding(if bytes == [] then Eof else Data(bytes)))
  {
  }

  lemma RelaySend(sent: seq<Frame>, read: seq<byte>, frame: Frame)
    requires Relayed(sent, read, Sending(frame))
    ensures Relayed(sent + [frame], read, Awaiting(frame.Eof?))
  {
    PayloadSnoc(sent, frame);
  }

  datatype Event =
    | PeerSends(frame: Frame)
    | PeerAcks
    | PeerFills
    | Connected
    | OpenedSent
    | Receive
    | Write(count: nat)
    | WriteDone
    | SendAck
    | Read(bytes: seq<byte>)
    | ExpectAck
    | SendFrame
    | TakeAck
    | Abort

  // ---- The channel as one specification ----

  /** Everything of a channel: flags, slots, the two sides, and the logs of what they took and gave. */
  datatype State = State(
    inputReady: bool,
    ackExpected: bool,
    input: seq<Frame>,
    acks: nat,
    call: PeerCall,
    up: Upstream,
    down: Downstream,
    running: bool,
    socket: seq<byte>,
    shutdown: bool,
    out: seq<Message>,
    accepted: seq<Frame>,
    acked: nat,
    polite: bool,
    read: seq<byte>,
    sent: seq<Frame>,
    ackTaken: nat)

  const INITIAL :=
    State(false, false, [], 0, NoCall, Connecting, NotStarted, true, [], false, [], [], 0, true, [], [], 0)

  /** One atomic step; a step that is not enabled changes nothing. */
  function Next(s: State, e: Event): State {
    match e
    case PeerSends(frame) =>
      if !s.call.NoCall? then s
      else if WellSized(frame) && s.inputReady then s.(inputReady := false, call := GotInput(frame))
      else s.(running := false)
    case PeerAcks =>
      if !s.call.NoCall? then s
      else if s.ackExpected then s.(ackExpected := false, call := GotAck)
      else s.(running := false)
    case PeerFills => Filled(s)
    case Connected => if s.running && s.up.Connecting? then s.(inputReady := true, up := Opening) else s
    case OpenedSent =>
      if s.running && s.up.Opening? && s.down.NotStarted?
      then s.(up := Receiving, down := Reading, out := s.out + [Opened]) else s
    case Receive =>
      if s.running && s.up.Receiving? && s.input != [] then s.(up := Writing(s.input[0], 0), input := []) else s
    case Write(count) => Written(s, count)
    case WriteDone =>
      if s.running && s.up.Writing? && AllWritten(s.up)
      then s.(inputReady := s.inputReady || s.up.frame.Data?, up := Acking(s.up.frame.Eof?)) else s
    case SendAck =>
      if s.running && s.up.Acking?
      then s.(out := s.out + [Ack], acked := s.acked + 1, up := if s.up.eof then UpDone else Receiving,
              running := !(s.up.eof && s.down.DownDone?)) else s
    case Read(bytes) =>
      if s.running && s.down.Reading?
      then s.(down := Holding(FrameOf(Taken(bytes))), read := s.read + Taken(bytes)) else s
    case ExpectAck =>
      if s.running && s.down.Holding? then s.(ackExpected := true, down := Sending(s.down.frame)) else s
    case SendFrame =>
      if s.running && s.down.Sending?
      then s.(out := s.out + [Message.Frame(s.down.frame)], sent := s.sent + [s.down.frame],
              down := Awaiting(s.down.frame.Eof?)) else s
    case TakeAck =>
      if s.running && s.down.Awaiting? && s.acks > 0
      then s.(acks := s.acks - 1, ackTaken := s.ackTaken + 1, down := if s.down.eof then DownDone else Reading,
              running := !(s.down.eof && s.up.UpDone?)) else s
    case Abort => s.(running := false)
  }

  /** The connection task puts what it was admitted with into the slot. */
  function Filled(s: State): State {
    match s.call
    case NoCall => s
    case GotInput(frame) =>
      if !s.running then s.(call := NoCall)
      else s.(call := NoCall, input := [frame], accepted := s.accepted + [frame],
              polite := s.polite && |s.accepted| == s.acked)
    case GotAck => s.(call := NoCall, acks := if s.running then 1 else s.acks)
  }

  /** Some more bytes of the frame are with the socket, or its write side is shut down. */
  function Written(s: State, count: nat): State {
    if !s.running || !s.up.Writing? then s
    else if s.up.frame.Eof? then s.(shutdown := true, up := Writing(Eof, 1))
    else
      var bytes, from := s.up.frame.bytes, s.up.written;
      if from > |bytes| then s
      else
        var to := if from + count <= |bytes| then from + count else |bytes|;
        s.(socket := s.socket + bytes[from..to], up := Writing(s.up.frame, to))
  }

  predicate AllWritten(up: Upstream)
    requires up.Writing?
  {
    if up.frame.Data? then up.written >= |up.frame.bytes| else up.written > 0
  }

  /** What one read takes of the bytes the socket has. */
  function Taken(bytes: seq<byte>): seq<byte> {
    if |bytes| <= FORWARD_DATA_BYTES_MAX then bytes else bytes[..FORWARD_DATA_BYTES_MAX]
  }

  function FrameOf(bytes: seq<byte>): Frame {
    if bytes == [] then Eof else Data(bytes)
  }

  function StateOf(events: seq<Event>): State {
    if events == [] then INITIAL else Next(StateOf(events[..|events| - 1]), events[|events| - 1])
  }

  // ---- What the log says ----

  /** The bytes the socket delivered to the reader: at most 8192 at a time, only while it reads. */
  function DeliveredOf(events: seq<Event>): seq<byte> {
    if events == [] then []
    else
      var before, e := events[..|events| - 1], events[|events| - 1];
      DeliveredOf(before) +
      if e.Read? && StateOf(before).running && StateOf(before).down.Reading?
      then e.bytes[..if |e.bytes| < 8192 then |e.bytes| else 8192] else []
  }

  /** The frames of the peer that were admitted: well sized, with the flag up and no call under way. */
  function AdmittedOf(events: seq<Event>): seq<Frame> {
    if events == [] then []
    else
      var before, e := events[..|events| - 1], events[|events| - 1];
      var s := StateOf(before);
      AdmittedOf(before) +
      if e.PeerSends? && s.call.NoCall? && s.inputReady && (e.frame.Eof? || 1 <= |e.frame.bytes| <= 8192)
      then [e.frame] else []
  }

  /** What the actor said to the peer, in the order of the events: the opening, its frames and its acknowledgements. */
  function SaidOf(events: seq<Event>): seq<Message> {
    if events == [] then []
    else
      var before, e := events[..|events| - 1], events[|events| - 1];
      var s := StateOf(before);
      SaidOf(before) +
      if s.running && e.OpenedSent? && s.up.Opening? && s.down.NotStarted? then [Opened]
      else if s.running && e.SendFrame? && s.down.Sending? then [Message.Frame(s.down.frame)]
      else if s.running && e.SendAck? && s.up.Acking? then [Ack]
      else []
  }

  /** One step of the three logs. */
  lemma StepAgrees(s: State, e: Event, delivered: seq<byte>, said: seq<Message>)
    requires s.read == delivered && s.out == said
    ensures Next(s, e).read == delivered +
              if e.Read? && s.running && s.down.Reading?
              then e.bytes[..if |e.bytes| < 8192 then |e.bytes| else 8192] else []
    ensures Next(s, e).out == said +
              if s.running && e.OpenedSent? && s.up.Opening? && s.down.NotStarted? then [Opened]
              else if s.running && e.SendFrame? && s.down.Sending? then [Message.Frame(s.down.frame)]
              else if s.running && e.SendAck? && s.up.Acking? then [Ack]
              else []
  {
    if e.Read? { assert e.bytes[..|e.bytes|] == e.bytes; }
  }

  /** Frames accepted, and the one that a call is about to put into the slot. */
  function WithCall(s: State): seq<Frame> {
    s.accepted + if s.call.GotInput? then [s.call.frame] else []
  }

  lemma StepAdmits(s: State, e: Event, admitted: seq<Frame>)
    requires s.accepted <= admitted && (s.running ==> WithCall(s) == admitted)
    ensures var a := if e.PeerSends? && s.call.NoCall? && s.inputReady && (e.frame.Eof? || 1 <= |e.frame.bytes| <= 8192)
                     then [e.frame] else [];
            && Next(s, e).accepted <= admitted + a && (Next(s, e).running ==> WithCall(Next(s, e)) == admitted + a)
  {
    hide Next;
    if e.PeerFills? || e.PeerSends? || e.PeerAcks? {
      PeerAdmits(s, e, admitted);
    } else {
      ActorAdmitsNone(s, e);
      assert admitted + [] == admitted;
    }
  }

  lemma ActorAdmitsNone(s: State, e: Event)
    requires !e.PeerFills? && !e.PeerSends? && !e.PeerAcks?
    ensures Next(s, e).accepted == s.accepted && Next(s, e).call == s.call && (Next(s, e).running ==> s.running)
  {
  }

  lemma PeerAdmits(s: State, e: Event, admitted: seq<Frame>)
    requires e.PeerFills? || e.PeerSends? || e.PeerAcks?
    requires s.accepted <= admitted && (s.running ==> WithCall(s) == admitted)
    ensures var a := if e.PeerSends? && s.call.NoCall? && s.inputReady && (e.frame.Eof? || 1 <= |e.frame.bytes| <= 8192)
                     then [e.frame] else [];
            && Next(s, e).accepted <= admitted + a && (Next(s, e).running ==> WithCall(Next(s, e)) == admitted + a)
  {
  }

  /** What was read, accepted and said is what the events brought and asked for. */
  lemma {:induction false} LogsAgree(events: seq<Event>)
    ensures var s := StateOf(events);
            && s.read == DeliveredOf(events) && s.out == SaidOf(events)
            && s.accepted <= AdmittedOf(events) && (s.running ==> WithCall(s) == AdmittedOf(events))
  {
    hide Next, WithCall;
    if events == [] {
      NothingAdmitted();
    } else {
      var before, e := events[..|events| - 1], events[|events| - 1];
      LogsAgree(before);
      StepAgrees(StateOf(before), e, DeliveredOf(before), SaidOf(before));
      StepAdmits(StateOf(before), e, AdmittedOf(before));
    }
  }

  lemma NothingAdmitted()
    ensures WithCall(INITIAL) == []
  {
  }

  // ---- What every step keeps ----

  /**
   * The right to put one frame into the slot exists once: with the flag, the peer's call, the slot,
   * or the writer, which keeps it for good after an end of file.
   */
  function InputRights(s: State): nat {
    (if s.inputReady then 1 else 0) + (if s.call.GotInput? then 1 else 0) + |s.input|
    + (if s.up.Connecting? || s.up.Writing? || Closed(s.up) then 1 else 0)
  }

  /** The right to acknowledge exists exactly while a frame is being sent or awaits its acknowledgement. */
  function AckRights(s: State): nat {
    (if s.ackExpected then 1 else 0) + (if s.call.GotAck? then 1 else 0) + s.acks
  }

  /** While the actor runs no right is lost, and none is ever duplicated. */
  ghost predicate RightsOk(s: State) {
    && InputRights(s) <= 1 && (s.running ==> InputRights(s) == 1)
    && AckRights(s) <= (if s.down.Sending? || s.down.Awaiting? then 1 else 0)
    && (s.running && (s.down.Sending? || s.down.Awaiting?) ==> AckRights(s) == 1)
    && (s.call.GotInput? ==> WellSized(s.call.frame))
    && (s.running ==> !(s.up.UpDone? && s.down.DownDone?))
  }

  ghost predicate UpstreamOk(s: State) {
    Carried(s.accepted, s.socket, s.up, s.input) && (s.shutdown <==> Closed(s.up))
  }

  /** An accepted frame is acknowledged, in the slot, or with the writer. */
  ghost predicate AckedOk(s: State) {
    && |s.accepted| == s.acked + |s.input| + (if s.up.Writing? || s.up.Acking? then 1 else 0)
    && (s.polite ==> |s.accepted| <= s.acked + 1)
  }

  ghost predicate DownstreamOk(s: State) {
    Relayed(s.sent, s.read, s.down) && |s.sent| == s.ackTaken + if s.down.Awaiting? then 1 else 0
  }

  function FramesIn(out: seq<Message>): seq<Frame> {
    if out == [] then []
    else FramesIn(out[..|out| - 1]) + if out[|out| - 1].Frame? then [out[|out| - 1].frame] else []
  }

  function AcksIn(out: seq<Message>): nat {
    if out == [] then 0 else AcksIn(out[..|out| - 1]) + if out[|out| - 1].Ack? then 1 else 0
  }

  /** The peer was told of the opening first and once, then of exactly the frames sent and acknowledgements given. */
  ghost predicate OutOk(s: State) {
    && (s.down.NotStarted? <==> s.up.Connecting? || s.up.Opening?)
    && (s.out == [] <==> s.down.NotStarted?)
    && (s.out != [] ==> s.out[0] == Opened) && (forall i :: 0 < i < |s.out| ==> !s.out[i].Opened?)
    && FramesIn(s.out) == s.sent && AcksIn(s.out) == s.acked
  }

  ghost predicate Good(s: State) {
    RightsOk(s) && UpstreamOk(s) && AckedOk(s) && DownstreamOk(s) && OutOk(s)
  }

  lemma Says(out: seq<Message>, m: Message)
    ensures FramesIn(out + [m]) == FramesIn(out) + if m.Frame? then [m.frame] else []
    ensures AcksIn(out + [m]) == AcksIn(out) + if m.Ack? then 1 else 0
  {
    assert (out + [m])[..|out|] == out;
  }

  lemma RightsStay(s: State, e: Event)
    requires RightsOk(s) && UpstreamOk(s)
    ensures RightsOk(Next(s, e))
  {
    hide Payload;
  }

  lemma UpstreamStays(s: State, e: Event)
    requires RightsOk(s) && UpstreamOk(s)
    ensures UpstreamOk(Next(s, e))
  {
    hide Carried;
    match e
    case PeerFills =>
      if s.running && s.call.GotInput? {
        SlotIsFree(s);
        CarryFill(s.accepted, s.socket, s.up, s.call.frame);
      }
    case Receive =>
      if s.running && s.up.Receiving? && s.input != [] { CarryReceive(s.accepted, s.socket, s.up, s.input); }
    case Write(count) => WriteStays(s, count);
    case _ => SidesStay(s, e);
  }

  lemma SlotIsFree(s: State)
    requires RightsOk(s)
    ensures s.running && s.call.GotInput? ==>
              && s.input == [] && !s.up.Connecting? && !s.up.Writing? && !Closed(s.up) && WellSized(s.call.frame)
    ensures s.running && s.call.GotAck? ==> s.acks == 0
    ensures s.running && s.down.Reading? ==> s.acks == 0
    ensures s.up.Writing? || Closed(s.up) ==> s.input == []
  {
  }

  lemma WriteStays(s: State, count: nat)
    requires RightsOk(s) && UpstreamOk(s)
    ensures UpstreamOk(Written(s, count))
  {
    hide Carried;
    if s.running && s.up.Writing? {
      SlotIsFree(s);
      if s.up.frame.Eof? {
        CarryShutdown(s.accepted, s.socket, s.up);
      } else {
        var bytes, from := s.up.frame.bytes, s.up.written;
        if from <= |bytes| {
          CarryWrite(s.accepted, s.socket, s.up, if from + count <= |bytes| then from + count else |bytes|);
        }
      }
    }
  }

  /** The steps that move the writer without touching the socket. */
  lemma SidesStay(s: State, e: Event)
    requires UpstreamOk(s) && !e.PeerFills? && !e.Receive? && !e.Write?
    ensures UpstreamOk(Next(s, e))
  {
    hide Payload;
  }

  lemma AckedStays(s: State, e: Event)
    requires RightsOk(s) && UpstreamOk(s) && AckedOk(s)
    ensures AckedOk(Next(s, e))
  {
    hide Payload, EndsOnce;
  }

  lemma DownstreamStays(s: State, e: Event)
    requires DownstreamOk(s)
    ensures DownstreamOk(Next(s, e))
  {
    hide Relayed;
    if e.Read? && s.running && s.down.Reading? {
      RelayRead(s.sent, s.read, Taken(e.bytes));
    } else if e.SendFrame? && s.running && s.down.Sending? {
      RelaySend(s.sent, s.read, s.down.frame);
    } else {
      ReaderStays(s, e);
    }
  }

  lemma ReaderStays(s: State, e: Event)
    requires DownstreamOk(s) && !(e.Read? && s.running && s.down.Reading?)
    requires !(e.SendFrame? && s.running && s.down.Sending?)
    ensures DownstreamOk(Next(s, e))
  {
    hide Next;
    if e.OpenedSent? || e.ExpectAck? || e.TakeAck? {
      ReaderTurns(s, e);
    } else {
      ReaderUnmoved(s, e);
    }
  }

  lemma ReaderTurns(s: State, e: Event)
    requires DownstreamOk(s) && (e.OpenedSent? || e.ExpectAck? || e.TakeAck?)
    ensures DownstreamOk(Next(s, e))
  {
    hide Payload, EndsOnce;
  }

  lemma ReaderUnmoved(s: State, e: Event)
    requires !e.OpenedSent? && !e.ExpectAck? && !e.TakeAck?
    requires !(e.Read? && s.running && s.down.Reading?) && !(e.SendFrame? && s.running && s.down.Sending?)
    ensures var n := Next(s, e); n.down == s.down && n.read == s.read && n.sent == s.sent && n.ackTaken == s.ackTaken
  {
    hide Next;
    if e.PeerSends? || e.PeerAcks? || e.PeerFills? || e.Abort? {
      PeerLeavesReader(s, e);
    } else {
      WriterLeavesReader(s, e);
    }
  }

  lemma PeerLeavesReader(s: State, e: Event)
    requires e.PeerSends? || e.PeerAcks? || e.PeerFills? || e.Abort?
    ensures var n := Next(s, e); n.down == s.down && n.read == s.read && n.sent == s.sent && n.ackTaken == s.ackTaken
  {
  }

  lemma WriterLeavesReader(s: State, e: Event)
    requires || e.Connected? || e.Receive? || e.Write? || e.WriteDone? || e.SendAck?
             || (e.Read? && !(s.running && s.down.Reading?)) || (e.SendFrame? && !(s.running && s.down.Sending?))
    ensures var n := Next(s, e); n.down == s.down && n.read == s.read && n.sent == s.sent && n.ackTaken == s.ackTaken
  {
  }

  lemma OutStays(s: State, e: Event)
    requires OutOk(s)
    ensures OutOk(Next(s, e))
  {
    hide FramesIn, AcksIn, Next;
    if e.OpenedSent? || e.SendAck? || e.SendFrame? {
      SayingStays(s, e);
    } else {
      SaysNothing(s, e);
    }
  }

  lemma SaysNothing(s: State, e: Event)
    requires !e.OpenedSent? && !e.SendAck? && !e.SendFrame?
    ensures var n := Next(s, e);
            && n.out == s.out && n.sent == s.sent && n.acked == s.acked
            && (n.down.NotStarted? <==> s.down.NotStarted?)
            && (n.up.Connecting? || n.up.Opening? <==> s.up.Connecting? || s.up.Opening?)
  {
    hide Next;
    if e.PeerSends? || e.PeerAcks? || e.PeerFills? || e.Abort? {
      PeerSaysNothing(s, e);
    } else if e.Connected? || e.Receive? || e.Write? || e.WriteDone? {
      WriterSaysNothing(s, e);
    } else {
      ReaderSaysNothing(s, e);
    }
  }

  lemma PeerSaysNothing(s: State, e: Event)
    requires e.PeerSends? || e.PeerAcks? || e.PeerFills? || e.Abort?
    ensures var n := Next(s, e);
            && n.out == s.out && n.sent == s.sent && n.acked == s.acked
            && (n.down.NotStarted? <==> s.down.NotStarted?)
            && (n.up.Connecting? || n.up.Opening? <==> s.up.Connecting? || s.up.Opening?)
  {
  }

  lemma WriterSaysNothing(s: State, e: Event)
    requires e.Connected? || e.Receive? || e.Write? || e.WriteDone?
    ensures var n := Next(s, e);
            && n.out == s.out && n.sent == s.sent && n.acked == s.acked
            && (n.down.NotStarted? <==> s.down.NotStarted?)
            && (n.up.Connecting? || n.up.Opening? <==> s.up.Connecting? || s.up.Opening?)
  {
  }

  lemma ReaderSaysNothing(s: State, e: Event)
    requires e.Read? || e.ExpectAck? || e.TakeAck?
    ensures var n := Next(s, e);
            && n.out == s.out && n.sent == s.sent && n.acked == s.acked
            && (n.down.NotStarted? <==> s.down.NotStarted?)
            && (n.up.Connecting? || n.up.Opening? <==> s.up.Connecting? || s.up.Opening?)
  {
  }

  lemma SayingStays(s: State, e: Event)
    requires OutOk(s) && (e.OpenedSent? || e.SendAck? || e.SendFrame?)
    ensures OutOk(Next(s, e))
  {
    hide FramesIn, AcksIn;
    match e
    case OpenedSent => Says(s.out, Opened);
    case SendAck => Says(s.out, Ack);
    case SendFrame => if s.down.Sending? { Says(s.out, Message.Frame(s.down.frame)); }
  }

  lemma StepIsGood(s: State, e: Event)
    requires Good(s)
    ensures Good(Next(s, e))
  {
    hide RightsOk, UpstreamOk, AckedOk, DownstreamOk, OutOk, Next;
    RightsStay(s, e);
    UpstreamStays(s, e);
    AckedStays(s, e);
    DownstreamStays(s, e);
    OutStays(s, e);
  }

  // ---- The actor and the connection task as they run ----

  class Forward {
    var inputReady: bool
    var ackExpected: bool
    var input: seq<Frame>
    var acks: nat
    var call: PeerCall
    var up: Upstream
    var down: Downstream
    /** False once the actor has been aborted, has failed or has finished. */
    var running: bool

    /** What the socket was given, and whether its write side was shut down. */
    var socket: seq<byte>
    var shutdown: bool
    /** What went out to the peer. */
    var out: seq<Message>

    /** Peer frames that were put into the input slot, and how many of them were acknowledged. */
    ghost var accepted: seq<Frame>
    ghost var acked: nat
    /** Whether each accepted frame found all earlier ones acknowledged. */
    ghost var polite: bool
    /** Bytes read from the socket, frames sent to the peer, and acknowledgements taken for them. */
    ghost var read: seq<byte>
    ghost var sent: seq<Frame>
    ghost var ackTaken: nat

    ghost function Now(): State
      reads this
    {
      State(inputReady, ackExpected, input, acks, call, up, down, running, socket, shutdown, out,
            accepted, acked, polite, read, sent, ackTaken)
    }

    ghost predicate Valid()
      reads this
    {
      Good(Now())
    }

    constructor ()
      ensures Valid() && Now() == INITIAL
    {
      inputReady, ackExpected, input, acks, call := false, false, [], 0, NoCall;
      up, down, running := Connecting, NotStarted, true;
      socket, shutdown, out := [], false, [];
      accepted, acked, polite, read, sent, ackTaken := [], 0, true, [], [], 0;
    }

    // ---- The peer ----

    /** `message`, first half: an ill-formed frame or a missing flag aborts the binding. */
    method OnPeerFrame(frame: Frame)
      requires Valid()
      modifies this`inputReady, this`call, this`running
      ensures Valid() && Now() == Next(old(Now()), PeerSends(frame))
      ensures old(call).NoCall? ==>
                if WellSized(frame) && old(inputReady) then call == GotInput(frame) && running == old(running)
                else call == NoCall && !running
    {
      hide Good;
      StepIsGood(Now(), PeerSends(frame));
      if !call.NoCall? { return; }
      if !WellSized(frame) {
        running := false;
        return;
      }
      var ready := inputReady;
      inputReady := false;
      if ready { call := GotInput(frame); } else { running := false; }
    }

    method OnPeerAck()
      requires Valid()
      modifies this`ackExpected, this`call, this`running
      ensures Valid() && Now() == Next(old(Now()), PeerAcks)
      ensures old(call).NoCall? ==>
                if old(ackExpected) then call == GotAck && running == old(running) else call == NoCall && !running
    {
      hide Good;
      StepIsGood(Now(), PeerAcks);
      if !call.NoCall? { return; }
      var expected := ackExpected;
      ackExpected := false;
      if expected { call := GotAck; } else { running := false; }
    }

    /** `message`, second half: the slot it has the right to fill is always free. */
    method OnPeerFill()
      requires Valid()
      modifies this`input, this`acks, this`call, this`accepted, this`polite
      ensures Valid() && Now() == Next(old(Now()), PeerFills)
      ensures running && old(call).GotInput? ==>
                call == NoCall && input == [old(call).frame] && accepted == old(accepted) + [old(call).frame]
      ensures running && old(call).GotAck? ==> acks == 1
    {
      hide Good, RightsOk;
      StepIsGood(Now(), PeerFills);
      HasRoom(Now());
      match call
      case GotInput(frame) =>
        if !running {
          call := NoCall;
        } else if |input| == 1 {
          // The slot is full: impossible, the call holds the right to fill it.
          assert false;
        } else {
          polite := polite && |accepted| == acked;
          accepted := accepted + [frame];
          input := [frame];
          call := NoCall;
        }
      case GotAck =>
        if running && acks == 1 {
          assert false;
        } else {
          acks := if running then 1 else acks;
          call := NoCall;
        }
      case NoCall =>
    }

    // ---- The actor ----

    method OnConnected()
      requires Valid()
      modifies this`inputReady, this`up
      ensures Valid() && Now() == Next(old(Now()), Connected)
      ensures running && old(up).Connecting? ==> inputReady && up == Opening
    {
      hide Good;
      StepIsGood(Now(), Connected);
      if !running || !up.Connecting? { return; }
      inputReady := true;
      up := Opening;
    }

    method OnOpenedSent()
      requires Valid()
      modifies this`up, this`down, this`out
      ensures Valid() && Now() == Next(old(Now()), OpenedSent)
      ensures running && old(up).Opening? && old(down).NotStarted? ==>
                up == Receiving && down == Reading && out == old(out) + [Opened]
    {
      hide Good;
      StepIsGood(Now(), OpenedSent);
      if !running || !up.Opening? || !down.NotStarted? { return; }
      out := out + [Opened];
      up, down := Receiving, Reading;
    }

    method OnReceive()
      requires Valid()
      modifies this`up, this`input
      ensures Valid() && Now() == Next(old(Now()), Receive)
      ensures running && old(up).Receiving? && old(input) != [] ==> up == Writing(old(input)[0], 0) && input == []
    {
      hide Good;
      StepIsGood(Now(), Receive);
      if !running || !up.Receiving? || input == [] { return; }
      up := Writing(input[0], 0);
      input := [];
    }

    /** `write_all` hands over some more bytes, or `shutdown` closes the write side. */
    method OnWrite(count: nat)
      requires Valid()
      modifies this`up, this`socket, this`shutdown
      ensures Valid() && Now() == Next(old(Now()), Write(count))
      ensures old(socket) <= socket && (old(shutdown) ==> socket == old(socket))
      ensures running && old(up).Writing? && old(up).frame.Eof? ==> shutdown
      ensures running && old(up).Writing? && old(up).frame.Data? ==>
                && up.Writing? && up.frame == old(up).frame
                && socket == old(socket) + up.frame.bytes[old(up).written..up.written]
                && (up.written == old(up).written + count || up.written == |up.frame.bytes|)
    {
      hide Good;
      StepIsGood(Now(), Write(count));
      WriterIsWithin(Now());
      if !running || !up.Writing? { return; }
      match up.frame
      case Data(bytes) =>
        var next := if up.written + count <= |bytes| then up.written + count else |bytes|;
        socket := socket + bytes[up.written..next];
        up := Writing(up.frame, next);
      case Eof =>
        shutdown := true;
        up := Writing(up.frame, 1);
    }

    /** The frame is with the socket: data makes the slot available again before it is acknowledged. */
    method OnWriteDone()
      requires Valid()
      modifies this`up, this`inputReady
      ensures Valid() && Now() == Next(old(Now()), WriteDone)
      ensures running && old(up).Writing? && AllWritten(old(up)) ==>
                up == Acking(old(up).frame.Eof?) && (old(up).frame.Data? ==> inputReady)
    {
      hide Good;
      StepIsGood(Now(), WriteDone);
      if !running || !up.Writing? { return; }
      if up.frame.Data? && up.written < |up.frame.bytes| { return; }
      if up.frame.Eof? && up.written == 0 { return; }
      var eof := up.frame.Eof?;
      if !eof { inputReady := true; }
      up := Acking(eof);
    }

    method OnSendAck()
      requires Valid()
      modifies this`up, this`out, this`acked, this`running
      ensures Valid() && Now() == Next(old(Now()), SendAck)
      ensures running <==> old(running) && !(up.UpDone? && down.DownDone?)
      ensures if old(running && up.Acking?) then out == old(out) + [Ack] && acked == old(acked) + 1 && !up.Acking?
              else acked == old(acked)
    {
      hide Good;
      StepIsGood(Now(), SendAck);
      HasRoom(Now());
      if !running || !up.Acking? { return; }
      out := out + [Ack];
      acked := acked + 1;
      if !up.eof { up := Receiving; return; }
      if input != [] {
        // "data after EOF": impossible, the writer keeps the right to the slot.
        assert false;
      }
      up := UpDone;
      if down.DownDone? { running := false; }
    }

    /** The socket delivered bytes, or its end; an acknowledgement at this point would be unsolicited. */
    method OnRead(bytes: seq<byte>)
      requires Valid()
      modifies this`down, this`read
      ensures Valid() && Now() == Next(old(Now()), Read(bytes))
      ensures var n := if |bytes| < 8192 then |bytes| else 8192;
              if running && old(down).Reading?
              then read == old(read) + bytes[..n] && down == Holding(if n == 0 then Eof else Data(bytes[..n]))
              else read == old(read) && down == old(down)
    {
      hide Good;
      StepIsGood(Now(), Read(bytes));
      HasRoom(Now());
      if !running || !down.Reading? { return; }
      if acks > 0 {
        // "unsolicited forward acknowledgement": impossible, none can have been admitted.
        assert false;
      }
      var n := if |bytes| <= FORWARD_DATA_BYTES_MAX then |bytes| else FORWARD_DATA_BYTES_MAX;
      assert bytes[..|bytes|] == bytes;
      down := Holding(if n == 0 then Eof else Data(bytes[..n]));
      read := read + bytes[..n];
    }

    method OnExpectAck()
      requires Valid()
      modifies this`down, this`ackExpected
      ensures Valid() && Now() == Next(old(Now()), ExpectAck)
      ensures running && old(down).Holding? ==> ackExpected && down == Sending(old(down).frame)
    {
      hide Good;
      StepIsGood(Now(), ExpectAck);
      if !running || !down.Holding? { return; }
      ackExpected := true;
      down := Sending(down.frame);
    }

    method OnSendFrame()
      requires Valid()
      modifies this`down, this`out, this`sent
      ensures Valid() && Now() == Next(old(Now()), SendFrame)
      ensures if running && old(down).Sending?
              then sent == old(sent) + [old(down).frame] && out == old(out) + [Message.Frame(old(down).frame)]
              else sent == old(sent)
    {
      hide Good;
      StepIsGood(Now(), SendFrame);
      if !running || !down.Sending? { return; }
      out := out + [Message.Frame(down.frame)];
      sent := sent + [down.frame];
      down := Awaiting(down.frame.Eof?);
    }

    method OnTakeAck()
      requires Valid()
      modifies this`down, this`acks, this`ackTaken, this`running
      ensures Valid() && Now() == Next(old(Now()), TakeAck)
      ensures running <==> old(running) && !(up.UpDone? && down.DownDone?)
      ensures if old(running && down.Awaiting? && acks > 0)
              then ackTaken == old(ackTaken) + 1 && down == if old(down).eof then DownDone else Reading
              else ackTaken == old(ackTaken)
    {
      hide Good;
      StepIsGood(Now(), TakeAck);
      HasRoom(Now());
      if !running || !down.Awaiting? || acks == 0 { return; }
      acks := acks - 1;
      ackTaken := ackTaken + 1;
      down := if down.eof then DownDone else Reading;
      if down.DownDone? && up.UpDone? { running := false; }
    }

    /** A timeout, an I/O error or the end of the connection. */
    method OnAbort()
      requires Valid()
      modifies this`running
      ensures Valid() && Now() == Next(old(Now()), Abort) && !running
    {
      hide Good;
      StepIsGood(Now(), Abort);
      running := false;
    }

    /** One step. The actor ends only when aborted, finished, or for a frame or acknowledgement it did not admit. */
    method Step(event: Event)
      requires Valid()
      modifies this
      ensures Valid() && Now() == Next(old(Now()), event)
    {
      hide Good, Next;
      match event
      case PeerSends(frame) => OnPeerFrame(frame);
      case PeerAcks => OnPeerAck();
      case PeerFills => OnPeerFill();
      case Connected => OnConnected();
      case OpenedSent => OnOpenedSent();
      case Receive => OnReceive();
      case Write(count) => OnWrite(count);
      case WriteDone => OnWriteDone();
      case SendAck => OnSendAck();
      case Read(bytes) => OnRead(bytes);
      case ExpectAck => OnExpectAck();
      case SendFrame => OnSendFrame();
      case TakeAck => OnTakeAck();
      case Abort => OnAbort();
    }
  }

  /** An admitted frame or acknowledgement finds its slot free, and neither is pending where it must not be. */
  lemma HasRoom(s: State)
    requires Good(s)
    ensures s.running && s.call.GotInput? ==> s.input == []
    ensures s.running && s.call.GotAck? ==> s.acks == 0
    ensures s.running && s.down.Reading? ==> s.acks == 0
    ensures s.up == Acking(true) ==> s.input == []
    ensures s.running ==> !(s.up.UpDone? && s.down.DownDone?)
  {
    SlotIsFree(s);
  }

  lemma WriterIsWithin(s: State)
    requires Good(s)
    ensures s.up.Writing? && s.up.frame.Data? ==> s.up.written <= |s.up.frame.bytes|
    ensures s.shutdown ==> !(s.up.Writing? && s.up.frame.Data?)
  {
  }

  lemma StopsFor(s: State, e: Event)
    ensures !s.running ==> !Next(s, e).running
    ensures s.running && !Next(s, e).running ==>
              || e.Abort? || (Next(s, e).up.UpDone? && Next(s, e).down.DownDone?)
              || (e.PeerSends? && !(s.inputReady && (e.frame.Eof? || 1 <= |e.frame.bytes| <= 8192)))
              || (e.PeerAcks? && !s.ackExpected)
  {
  }

  /**
   * Every interleaving. The state is what the specification makes of the events. The flags imply free slots, so
   * an admitted frame always fits; the socket has been given a prefix of the accepted data, all of it once shut
   * down; frames end at most once; the bytes read are those the socket delivered and go out in frames, in order;
   * the peer was told of the opening, the frames and the acknowledgements in the order of their events, and never
   * owes more than one acknowledgement; the actor owes two only while it sends the first of them.
   */
  method Run(events: seq<Event>) returns (f: Forward)
    ensures fresh(f) && f.Valid() && f.Now() == StateOf(events)
    ensures f.inputReady ==> f.input == []
    ensures f.ackExpected ==> f.acks == 0
    ensures f.accepted <= AdmittedOf(events) && (f.running ==> WithCall(f.Now()) == AdmittedOf(events))
    ensures f.socket <= Payload(f.accepted) && (f.shutdown ==> f.socket == Payload(f.accepted))
    ensures EndsOnce(f.accepted) && EndsOnce(f.sent)
    ensures f.read == DeliveredOf(events) && Payload(f.sent) <= f.read && |f.sent| <= f.ackTaken + 1
    ensures f.out == SaidOf(events) && FramesIn(f.out) == f.sent && AcksIn(f.out) == f.acked
    ensures (f.out != [] ==> f.out[0] == Opened) && forall i :: 0 < i < |f.out| ==> !f.out[i].Opened?
    ensures |f.accepted| <= f.acked + 2 && (|f.accepted| == f.acked + 2 <==> f.up.Acking? && f.input != [])
    ensures f.polite ==> |f.accepted| <= f.acked + 1
    ensures f.running ==> !(f.up.UpDone? && f.down.DownDone?)
  {
    hide Next, Good;
    f := new Forward();
    for i := 0 to |events|
      invariant fresh(f) && f.Valid() && f.Now() == StateOf(events[..i])
    {
      assert events[..i + 1][..i] == events[..i];
      f.Step(events[i]);
    }
    assert events[..|events|] == events;
    LogsAgree(events);
    Consequences(f.Now());
  }

  lemma Consequences(s: State)
    requires Good(s)
    ensures (s.inputReady ==> s.input == []) && (s.ackExpected ==> s.acks == 0)
    ensures s.socket <= Payload(s.accepted) && (s.shutdown ==> s.socket == Payload(s.accepted))
    ensures EndsOnce(s.accepted) && EndsOnce(s.sent)
    ensures Payload(s.sent) <= s.read && |s.sent| <= s.ackTaken + 1
    ensures FramesIn(s.out) == s.sent && AcksIn(s.out) == s.acked
    ensures (s.out != [] ==> s.out[0] == Opened) && forall i :: 0 < i < |s.out| ==> !s.out[i].Opened?
    ensures |s.accepted| <= s.acked + 2 && (|s.accepted| == s.acked + 2 <==> s.up.Acking? && s.input != [])
    ensures s.polite ==> |s.accepted| <= s.acked + 1
    ensures s.running ==> !(s.up.UpDone? && s.down.DownDone?)
  {
    hide Payload, EndsOnce;
    CarriedPrefix(s.accepted, s.socket, s.up, s.input);
  }

  /** Two unacknowledged frames do occur: the slot is offered again before the acknowledgement leaves. */
  method ImpolitePeer() returns (f: Forward)
    ensures f.Valid() && f.running && |f.accepted| == f.acked + 2 && !f.polite
  {
    hide Good, Next;
    f := OneFrameWritten();
    f.OnPeerFrame(Data([2]));
    f.OnPeerFill();
    Consequences(f.Now());
  }

  method OneFrameWritten() returns (f: Forward)
    ensures fresh(f) && f.Valid() && f.running && f.call == NoCall && f.up == Acking(false) && f.inputReady
  {
    hide Good, Next;
    f := OneFrameReceived();
    f.OnWrite(1);
    f.OnWriteDone();
  }

  method OneFrameReceived() returns (f: Forward)
    ensures fresh(f) && f.Valid() && f.running && f.call == NoCall && f.up == Writing(Data([1]), 0)
  {
    hide Good, Next;
    f := new Forward();
    f.OnConnected();
    f.OnOpenedSent();
    f.OnPeerFrame(Data([1]));
    f.OnPeerFill();
    f.OnReceive();
  }
}
