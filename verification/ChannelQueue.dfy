/** The bounded writer queue of one stream: many producers push, one writer task takes. */
module ChannelQueue {
  import opened Bytes

  const WT_CHANNEL_QUEUE_MESSAGES: nat := 128
  const WT_CHANNEL_QUEUE_BYTES: nat := 1024 * 1024

  type Frame = seq<byte>

  /** The writer inside `next`: before it looks at the queue, before it awaits, or parked until notified. */
  datatype Writer = Looking | Awaiting | Parked | Finished

  /** A producer releases the lock before it notifies, so anything may happen in between. */
  datatype Event = Push(frame: Frame) | Close | Notify | Look | Await

  function Size(frames: seq<Frame>): nat {
    |Flatten(frames)|
  }

  lemma SizeSnoc(frames: seq<Frame>, f: Frame)
    ensures Size(frames + [f]) == Size(frames) + |f|
  {
    FlattenSnoc(frames, f);
  }

  /**
   * What the stream has and will be given: everything accepted, in order, or a prefix of it followed by
   * the one overload frame.
   */
  ghost predicate Faithful(delivered: seq<Frame>, frames: seq<Frame>, accepted: seq<Frame>, overload: Frame,
                           cut: Option<nat>) {
    match cut
    case None => delivered + frames == accepted
    case Some(n) => n <= |accepted| && delivered + frames == accepted[..n] + [overload]
  }

  // ---- What a run makes of the queue ----

  /** The queue, the notifications still owed, the stored permit, and where the writer is. */
  datatype View = View(
    frames: seq<Frame>,
    closing: bool,
    owed: nat,
    permit: bool,
    writer: Writer,
    delivered: seq<Frame>)

  /** The caps and the frame that replaces what is queued when they are exceeded. */
  datatype Limits = Limits(overload: Frame, messages: nat, bytes: nat)

  function Seen(v: View, e: Event, limits: Limits): View {
    match e
    case Push(frame) =>
      if v.closing then v
      else if |v.frames| + 1 > limits.messages || |Flatten(v.frames)| + |frame| > limits.bytes
      then v.(frames := [limits.overload], closing := true, owed := v.owed + 1)
      else v.(frames := v.frames + [frame], owed := v.owed + 1)
    case Close => v.(closing := true, owed := v.owed + 1)
    case Notify =>
      if v.owed == 0 then v
      else if v.writer.Parked? then v.(owed := v.owed - 1, writer := Looking)
      else v.(owed := v.owed - 1, permit := true)
    case Look =>
      if !v.writer.Looking? then v
      else if v.frames != [] then v.(frames := v.frames[1..], delivered := v.delivered + [v.frames[0]])
      else v.(writer := if v.closing then Finished else Awaiting)
    case Await =>
      if !v.writer.Awaiting? then v
      else if v.permit then v.(permit := false, writer := Looking)
      else v.(writer := Parked)
  }

  function ViewOf(events: seq<Event>, limits: Limits): View {
    if events == [] then View([], false, 0, false, Looking, [])
    else Seen(ViewOf(events[..|events| - 1], limits), events[|events| - 1], limits)
  }

  class WtChannelQueue {
    const overloadFrame: Frame
    const messageCap: nat
    const byteCap: nat
    var frames: seq<Frame>
    var bytes: nat
    var closing: bool

    /** Notifications that producers still owe, the one stored permit, and where the writer is. */
    var owed: nat
    var permit: bool
    var writer: Writer

    /** Frames given to the stream, offered by producers, and accepted before the queue closed. */
    ghost var delivered: seq<Frame>
    ghost var pushed: seq<Frame>
    ghost var accepted: seq<Frame>
    /** After an overload, how many accepted frames had been delivered by then. */
    ghost var cut: Option<nat>

    ghost predicate Valid()
      reads this
    {
      && bytes == Size(frames)
      && Faithful(delivered, frames, accepted, overloadFrame, cut)
      && accepted <= pushed && (!closing ==> accepted == pushed)
      && (cut.None? ==> |frames| <= messageCap && bytes <= byteCap)
      && (cut.Some? ==> closing && |frames| <= 1 && (frames == [] || frames == [overloadFrame]))
      && (writer.Parked? ==> !permit)
      && ((writer.Parked? || writer.Awaiting?) && (frames != [] || closing) ==> permit || owed > 0)
      && (writer.Finished? ==> frames == [] && closing)
    }

    ghost function Sight(): View
      reads this`frames, this`closing, this`owed, this`permit, this`writer, this`delivered
    {
      View(frames, closing, owed, permit, writer, delivered)
    }

    ghost function Bounds(): Limits {
      Limits(overloadFrame, messageCap, byteCap)
    }

    constructor (overloadFrame: Frame, messageCap: nat := WT_CHANNEL_QUEUE_MESSAGES,
                 byteCap: nat := WT_CHANNEL_QUEUE_BYTES)
      ensures Valid() && delivered == [] && pushed == [] && !closing && cut.None?
      ensures Bounds() == Limits(overloadFrame, messageCap, byteCap) && Sight() == ViewOf([], Bounds())
    {
      this.overloadFrame, this.messageCap, this.byteCap := overloadFrame, messageCap, byteCap;
      frames, bytes, closing, owed, permit, writer := [], 0, false, 0, false, Looking;
      delivered, pushed, accepted, cut := [], [], [], None;
    }

    /** `notify_one` of a producer that owes it: wake the parked writer, or leave a permit for its next wait. */
    method NotifyOne()
      requires Valid()
      modifies this`owed, this`permit, this`writer
      ensures Valid()
      ensures Sight() == Seen(old(Sight()), Notify, Bounds())
      ensures old(owed) == 0 ==> unchanged(this`owed, this`permit, this`writer)
      ensures old(owed) > 0 ==>
                && owed == old(owed) - 1
                && if old(writer).Parked? then writer == Looking && permit == old(permit)
                   else writer == old(writer) && permit
    {
      if owed == 0 { return; }
      owed := owed - 1;
      if writer.Parked? { writer := Looking; } else { permit := true; }
    }

    /** The locked part of `push`. */
    method Push(frame: Frame)
      requires Valid()
      modifies this
      ensures Valid() && delivered == old(delivered) && pushed == old(pushed) + [frame]
      ensures Sight() == Seen(old(Sight()), Event.Push(frame), Bounds())
      ensures owed == old(owed) + if old(closing) then 0 else 1
      ensures old(closing) ==> closing && frames == old(frames) && cut == old(cut)
      ensures !old(closing) ==>
                if |old(frames)| >= messageCap || |frame| > byteCap - old(bytes)
                then closing && frames == [overloadFrame] && cut == Some(|old(delivered)|)
                else !closing && frames == old(frames) + [frame] && cut.None?
    {
      pushed := pushed + [frame];
      if closing { return; }
      if |frames| >= messageCap || |frame| > byteCap - bytes {
        assert (delivered + frames)[..|delivered|] == delivered;
        cut := Some(|delivered|);
        SizeSnoc([], overloadFrame);
        assert [] + [overloadFrame] == [overloadFrame];
        frames := [];
        bytes := |overloadFrame|;
        frames := [overloadFrame];
        closing := true;
      } else {
        SizeSnoc(frames, frame);
        ConcatAssociates(delivered, frames, [frame]);
        accepted := accepted + [frame];
        bytes := bytes + |frame|;
        frames := frames + [frame];
      }
      owed := owed + 1;
    }

    /** The locked part of `close`. */
    method Close()
      requires Valid()
      modifies this`closing, this`owed
      ensures Valid() && closing && owed == old(owed) + 1
      ensures Sight() == Seen(old(Sight()), Event.Close, Bounds())
    {
      closing := true;
      owed := owed + 1;
    }

    /** The locked part of `next`: a frame, the end, or nothing yet. */
    method Look() returns (frame: Option<Frame>)
      requires Valid()
      modifies this`frames, this`bytes, this`writer, this`delivered
      ensures Valid()
      ensures Sight() == Seen(old(Sight()), Event.Look, Bounds())
      ensures old(writer).Looking? && old(frames) != [] ==>
                frame == Some(old(frames)[0]) && delivered == old(delivered) + [old(frames)[0]] && writer.Looking?
      ensures old(writer).Looking? && old(frames) == [] ==>
                frame.None? && delivered == old(delivered) && writer == if closing then Finished else Awaiting
    {
      frame := None;
      if !writer.Looking? { return; }
      if frames != [] {
        var f := frames[0];
        assert frames == [f] + frames[1..];
        ConcatAssociates(delivered, [f], frames[1..]);
        bytes := bytes - |f|;
        frames := frames[1..];
        delivered := delivered + [f];
        return Some(f);
      }
      writer := if closing then Finished else Awaiting;
    }

    /** `notified.await`: a stored permit ends the wait at once. */
    method Await()
      requires Valid()
      modifies this`permit, this`writer
      ensures Valid()
      ensures Sight() == Seen(old(Sight()), Event.Await, Bounds())
      ensures old(writer).Awaiting? ==> writer == if old(permit) then Looking else Parked
    {
      if !writer.Awaiting? { return; }
      if permit {
        permit := false;
        writer := Looking;
      } else {
        writer := Parked;
      }
    }

    /** The event is a push into an open queue that is full or cannot take the frame's bytes. */
    ghost predicate Overflows(event: Event)
      reads this`frames, this`bytes, this`closing
    {
      event.Push? && !closing && (|frames| >= messageCap || |event.frame| > byteCap - bytes)
    }

    method Step(event: Event)
      requires Valid()
      modifies this
      ensures Valid() && pushed == old(pushed) + Pushed(event)
      ensures Sight() == Seen(old(Sight()), event, Bounds())
      ensures closing <==> old(closing) || event.Close? || old(Overflows(event))
      ensures cut == if old(Overflows(event)) then Some(|old(delivered)|) else old(cut)
      ensures event.Look? && old(writer).Looking? && old(frames) != [] ==>
                delivered == old(delivered) + [old(frames)[0]]
      ensures event.Await? && old(writer).Awaiting? ==> !writer.Awaiting?
      ensures event.Notify? && old(owed) > 0 ==> owed == old(owed) - 1 && !writer.Parked?
    {
      match event
      case Push(frame) => Push(frame);
      case Close => Close();
      case Notify => NotifyOne();
      case Look => var _ := Look();
      case Await => Await();
    }
  }

  function Pushed(event: Event): seq<Frame> {
    if event.Push? then [event.frame] else []
  }

  function AllPushed(events: seq<Event>): seq<Frame> {
    if events == [] then [] else AllPushed(events[..|events| - 1]) + Pushed(events[|events| - 1])
  }

  /**
   * Every interleaving of producers and writer. The stream gets a prefix of the frames pushed, all of
   * them accepted before the close, or such a prefix and one overload frame; the byte count is the sum;
   * and no wake-up is lost: while there is something to do, a waiting writer has a permit or a
   * notification on its way.
   */
  method Run(overloadFrame: Frame, messageCap: nat, byteCap: nat, events: seq<Event>) returns (q: WtChannelQueue)
    ensures fresh(q) && q.Valid() && q.pushed == AllPushed(events)
    ensures q.Sight() == ViewOf(events, Limits(overloadFrame, messageCap, byteCap))
    ensures q.cut.None? ==> q.delivered + q.frames == q.accepted <= q.pushed
    ensures q.cut.None? && (forall i :: 0 <= i < |events| ==> !events[i].Close?) ==>
              !q.closing && q.delivered + q.frames == q.pushed
    ensures q.cut.Some? ==>
              q.cut.value <= |q.pushed| && q.delivered + q.frames == q.pushed[..q.cut.value] + [q.overloadFrame]
    ensures q.bytes == Size(q.frames)
    ensures (q.writer.Parked? || q.writer.Awaiting?) && (q.frames != [] || q.closing) ==> q.permit || q.owed > 0
    ensures q.writer.Parked? && q.owed == 0 ==> q.frames == [] && !q.closing
    ensures q.writer.Finished? ==> q.frames == [] && q.closing
  {
    hide Seen, WtChannelQueue.Sight, WtChannelQueue.Bounds;
    q := new WtChannelQueue(overloadFrame, messageCap, byteCap);
    for i := 0 to |events|
      invariant fresh(q) && q.Valid() && q.pushed == AllPushed(events[..i])
      invariant q.Bounds() == Limits(overloadFrame, messageCap, byteCap) && q.Sight() == ViewOf(events[..i], q.Bounds())
      invariant q.closing ==> q.cut.Some? || exists k :: 0 <= k < i && events[k].Close?
    {
      assert events[..i + 1][..i] == events[..i];
      q.Step(events[i]);
    }
    assert events[..|events|] == events;
  }
}
