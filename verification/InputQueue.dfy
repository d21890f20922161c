/** The queue that serializes terminal input: one send at a time, in arrival order. */
module InputQueue {
  import opened Bytes

  const TERMINAL_INPUT_QUEUE_BYTE_CAP: nat := 64 * 1024
  const TERMINAL_INPUT_QUEUE_CHUNK_CAP: nat := 1_024

  /** One buffer. Every call brings a buffer of its own, so identity is the number of the call. */
  datatype Chunk = Chunk(identity: nat, data: seq<byte>)

  /** A started send: its operation and the buffer it carries. */
  datatype Send = Send(operation: nat, chunk: Chunk)

  datatype Event = Enqueue(data: seq<byte>) | Pause | Resume | Clear | SendAccepted | SendFailed | Finally

  function ByteCount(queue: seq<Chunk>): nat {
    if queue == [] then 0 else |queue[0].data| + ByteCount(queue[1..])
  }

  lemma {:induction false} ByteCountSnoc(queue: seq<Chunk>, c: Chunk)
    ensures ByteCount(queue + [c]) == ByteCount(queue) + |c.data|
  {
    if queue == [] {
      assert ByteCount([c]) == |c.data| + ByteCount([]);
    } else {
      ByteCountSnoc(queue[1..], c);
      assert (queue + [c])[1..] == queue[1..] + [c];
    }
  }

  /**
   * What waits is the newest part of what was taken. Each chunk that left did so after its own send
   * was accepted, or by a clear; without a clear, accepted and waiting chunks are all there is.
   */
  ghost predicate Accounted(queue: seq<Chunk>, taken: seq<Chunk>, fates: seq<bool>, accepted: seq<Chunk>,
                            cleared: bool) {
    && (forall k :: 0 <= k < |taken| ==> taken[k].identity == k)
    && |fates| + |queue| == |taken| && queue == taken[|fates|..]
    && (forall k :: 0 <= k < |fates| && fates[k] ==> taken[k] in accepted)
    && (!cleared ==> taken == accepted + queue)
  }

  lemma Take(queue: seq<Chunk>, taken: seq<Chunk>, fates: seq<bool>, accepted: seq<Chunk>, cleared: bool,
             data: seq<byte>)
    requires Accounted(queue, taken, fates, accepted, cleared)
    ensures Accounted(queue + [Chunk(|taken|, data)], taken + [Chunk(|taken|, data)], fates, accepted, cleared)
  {
    ConcatAssociates(accepted, queue, [Chunk(|taken|, data)]);
  }

  /** The send of a chunk was accepted: it is the head, or it was cleared before and nothing else may go. */
  lemma Accept(queue: seq<Chunk>, taken: seq<Chunk>, fates: seq<bool>, accepted: seq<Chunk>, cleared: bool, c: Chunk)
    requires Accounted(queue, taken, fates, accepted, cleared)
    requires c.identity < |taken| && c == taken[c.identity] && c.identity <= |fates|
    requires (c.identity == |fates| ==> queue != []) && (c.identity < |fates| ==> cleared)
    ensures c in queue <==> queue != [] && queue[0].identity == c.identity
    ensures c in queue ==> c == queue[0] && Accounted(queue[1..], taken, fates + [true], accepted + [c], cleared)
    ensures c in queue ==> c.identity == |fates|
    ensures c !in queue ==> cleared && c.identity < |fates| && Accounted(queue, taken, fates, accepted + [c], cleared)
  {
    if c.identity == |fates| {
      assert queue[0] == taken[|fates|] == c;
      assert queue == [c] + queue[1..];
      ConcatAssociates(accepted, [c], queue[1..]);
    }
  }

  /** Each accepted chunk is one of those taken before `bound`, and they were accepted in the order they were taken. */
  ghost predicate InOrder(accepted: seq<Chunk>, taken: seq<Chunk>, bound: nat) {
    && bound <= |taken|
    && (forall i :: 0 <= i < |accepted| ==>
          accepted[i].identity < bound && accepted[i] == taken[accepted[i].identity])
    && (forall i, j :: 0 <= i < j < |accepted| ==> accepted[i].identity < accepted[j].identity)
  }

  lemma NothingYet()
    ensures Accounted([], [], [], [], false) && InOrder([], [], 0)
  {
  }

  lemma NextInOrder(accepted: seq<Chunk>, taken: seq<Chunk>, bound: nat, c: Chunk)
    requires InOrder(accepted, taken, bound) && c.identity < |taken| && c == taken[c.identity]
    requires forall i :: 0 <= i < |accepted| ==> accepted[i].identity < c.identity
    ensures c.identity < bound ==> InOrder(accepted + [c], taken, bound)
    ensures c.identity == bound ==> InOrder(accepted + [c], taken, bound + 1)
  {
  }

  lemma MoreTaken(accepted: seq<Chunk>, taken: seq<Chunk>, bound: nat, c: Chunk)
    requires InOrder(accepted, taken, bound)
    ensures InOrder(accepted, taken + [c], bound)
  {
  }

  // ---- What a run makes of the queue ----

  /** The chunk being sent, and whether the last send is over but its operation is not. */
  datatype View = View(
    taken: seq<Chunk>,
    queue: seq<Chunk>,
    accepted: seq<Chunk>,
    paused: bool,
    sending: Option<Chunk>,
    ending: bool)

  /** An idle queue that is not paused sends its first chunk. */
  function Started(v: View): View {
    if v.paused || v.sending.Some? || v.ending || v.queue == [] then v else v.(sending := Some(v.queue[0]))
  }

  function Seen(v: View, event: Event, byteCap: nat, chunkCap: nat): View {
    match event
    case Enqueue(data) =>
      var c := Chunk(|v.taken|, data);
      if data == [] || ByteCount(v.queue) + |data| > byteCap || |v.queue| + 1 > chunkCap then v
      else Started(v.(taken := v.taken + [c], queue := v.queue + [c]))
    case Pause => v.(paused := true)
    case Resume => Started(v.(paused := false))
    case Clear => v.(queue := [])
    case SendAccepted =>
      if v.sending.None? then v
      else
        var c := v.sending.value;
        var queue := if c in v.queue then v.queue[1..] else v.queue;
        v.(accepted := v.accepted + [c], queue := queue, sending := None, ending := true)
    case SendFailed => if v.sending.None? then v else v.(paused := true, sending := None, ending := true)
    case Finally => if v.ending then Started(v.(ending := false)) else v
  }

  function ViewOf(events: seq<Event>, byteCap: nat, chunkCap: nat): View {
    if events == [] then View([], [], [], true, None, false)
    else Seen(ViewOf(events[..|events| - 1], byteCap, chunkCap), events[|events| - 1], byteCap, chunkCap)
  }

  class TerminalInputQueue {
    const byteCap: nat
    const chunkCap: nat
    var queue: seq<Chunk>
    var queuedBytes: nat
    var paused: bool
    var inFlight: Option<nat>

    /** Sends whose promise is open, operations whose last handler is still to run, and how many were started. */
    var sends: seq<Send>
    var finishing: seq<nat>
    var operations: nat
    var calls: nat

    /** Every chunk ever taken, and for each that left the queue whether its own send was accepted first. */
    ghost var taken: seq<Chunk>
    ghost var fates: seq<bool>
    /** The chunks whose send was accepted, in order, and whether the queue was ever cleared. */
    ghost var accepted: seq<Chunk>
    ghost var cleared: bool

    ghost predicate QueueOk()
      reads this`queue, this`queuedBytes, this`calls, this`taken, this`fates, this`accepted, this`cleared
    {
      && queuedBytes == ByteCount(queue) <= byteCap
      && |queue| <= chunkCap
      && |taken| == calls
      && Accounted(queue, taken, fates, accepted, cleared)
      && InOrder(accepted, taken, |fates|)
    }

    /** One operation at most; its chunk is the head of the queue unless a clear took that chunk away. */
    ghost predicate FlightOk()
      reads this`queue, this`inFlight, this`sends, this`finishing, this`taken, this`fates, this`cleared
      reads this`accepted
    {
      && |sends| + |finishing| <= 1
      && inFlight == (if |sends| == 1 then Some(sends[0].operation)
                      else if |finishing| == 1 then Some(finishing[0]) else None)
      && (|sends| == 1 ==>
            var c := sends[0].chunk;
            && c.identity < |taken| && c == taken[c.identity] && c.identity <= |fates|
            && (c.identity == |fates| ==> queue != []) && (c.identity < |fates| ==> cleared)
            && forall i :: 0 <= i < |accepted| ==> accepted[i].identity < c.identity)
    }

    ghost predicate Valid()
      reads this
    {
      QueueOk() && FlightOk() && (!paused && queue != [] ==> inFlight.Some?)
    }

    ghost function Sight(): View
      reads this`taken, this`queue, this`accepted, this`paused, this`sends, this`finishing
    {
      View(taken, queue, accepted, paused, if sends == [] then None else Some(sends[0].chunk), finishing != [])
    }

    constructor (byteCap: nat := TERMINAL_INPUT_QUEUE_BYTE_CAP, chunkCap: nat := TERMINAL_INPUT_QUEUE_CHUNK_CAP)
      requires byteCap > 0 && chunkCap > 0
      ensures Valid() && taken == [] && accepted == [] && !cleared && paused
      ensures Sight() == ViewOf([], byteCap, chunkCap)
      ensures this.byteCap == byteCap && this.chunkCap == chunkCap
    {
      hide Accounted, InOrder, Seen;
      NothingYet();
      this.byteCap, this.chunkCap := byteCap, chunkCap;
      queue, queuedBytes, paused, inFlight := [], 0, true, None;
      sends, finishing, operations, calls := [], [], 0, 0;
      taken, fates, accepted, cleared := [], [], [], false;
    }

    /** False is an explicit reject that changes nothing. */
    method Add(data: seq<byte>) returns (ok: bool)
      requires Valid()
      modifies this
      ensures Valid() && accepted == old(accepted) && cleared == old(cleared) && paused == old(paused)
      ensures Sight() == Seen(old(Sight()), Enqueue(data), byteCap, chunkCap)
      ensures ok <==> data == [] || (|data| <= byteCap - old(queuedBytes) && |old(queue)| < chunkCap)
      ensures if ok && data != []
              then && queue == old(queue) + [Chunk(|old(taken)|, data)]
                   && taken == old(taken) + [Chunk(|old(taken)|, data)]
              else queue == old(queue) && taken == old(taken)
    {
      hide Accounted, ByteCount, FlightOk;
      if data == [] { return true; }
      if |data| > byteCap - queuedBytes || |queue| >= chunkCap { return false; }
      var c := Chunk(calls, data);
      Append(c);
      Pump();
      ok := true;
    }

    method Append(c: Chunk)
      requires QueueOk() && FlightOk() && c.identity == |taken|
      requires |c.data| <= byteCap - queuedBytes && |queue| < chunkCap
      modifies this`queue, this`queuedBytes, this`calls, this`taken
      ensures QueueOk() && FlightOk() && queue == old(queue) + [c] && taken == old(taken) + [c]
    {
      hide Accounted, ByteCount, InOrder;
      ByteCountSnoc(queue, c);
      Take(queue, taken, fates, accepted, cleared, c.data);
      MoreTaken(accepted, taken, |fates|, c);
      taken, calls := taken + [c], calls + 1;
      queue := queue + [c];
      queuedBytes := queuedBytes + |c.data|;
    }

    method SetPaused()
      requires Valid()
      modifies this`paused
      ensures Valid() && paused
      ensures Sight() == Seen(old(Sight()), Pause, byteCap, chunkCap)
    {
      paused := true;
    }

    method Unpause()
      requires Valid()
      modifies this`paused, this`inFlight, this`sends, this`operations
      ensures Valid() && !paused
      ensures Sight() == Seen(old(Sight()), Resume, byteCap, chunkCap)
    {
      hide QueueOk;
      paused := false;
      Pump();
    }

    method Discard()
      requires Valid()
      modifies this`queue, this`queuedBytes, this`fates, this`cleared
      ensures Valid() && queue == [] && queuedBytes == 0 && cleared
      ensures Sight() == Seen(old(Sight()), Clear, byteCap, chunkCap)
      ensures fates == old(fates) + seq(|old(queue)|, _ => false)
    {
      fates, cleared := fates + seq(|queue|, _ => false), true;
      queue := [];
      queuedBytes := 0;
    }

    /** Starts the head's send unless paused, busy or empty. */
    method Pump()
      requires QueueOk() && FlightOk()
      modifies this`inFlight, this`sends, this`operations
      ensures Valid()
      ensures Sight() == Started(old(Sight()))
      ensures sends == (if old(paused || inFlight.Some? || queue == []) then old(sends)
                        else [Send(old(operations), queue[0])])
    {
      if paused || inFlight.Some? { return; }
      if queue == [] { return; }
      sends := sends + [Send(operations, queue[0])];
      inFlight := Some(operations);
      operations := operations + 1;
    }

    /** The open send was accepted: its chunk leaves the queue if it is still at the head. */
    method OnAccepted()
      requires Valid()
      modifies this
      ensures Valid() && taken == old(taken) && cleared == old(cleared) && paused == old(paused)
      ensures Sight() == Seen(old(Sight()), SendAccepted, byteCap, chunkCap)
      ensures old(sends) == [] ==> queue == old(queue) && accepted == old(accepted)
      ensures old(sends) != [] ==>
                var c := old(sends)[0].chunk;
                && sends == [] && accepted == old(accepted) + [c]
                && queue == (if c in old(queue) then old(queue)[1..] else old(queue))
    {
      hide QueueOk;
      if sends == [] { return; }
      var s := sends[0];
      sends, finishing := [], [s.operation];
      Leave(s.chunk);
    }

    /** An accepted chunk leaves the queue if it is its first one. */
    method Leave(c: Chunk)
      requires QueueOk() && c.identity < |taken| && c == taken[c.identity] && c.identity <= |fates|
      requires (c.identity == |fates| ==> queue != []) && (c.identity < |fates| ==> cleared)
      requires forall i :: 0 <= i < |accepted| ==> accepted[i].identity < c.identity
      modifies this`queue, this`queuedBytes, this`fates, this`accepted
      ensures QueueOk() && accepted == old(accepted) + [c]
      ensures queue == if c in old(queue) then old(queue)[1..] else old(queue)
    {
      hide Accounted, InOrder;
      Accept(queue, taken, fates, accepted, cleared, c);
      NextInOrder(accepted, taken, |fates|, c);
      accepted := accepted + [c];
      if queue != [] && queue[0].identity == c.identity {
        queuedBytes := queuedBytes - |c.data|;
        fates := fates + [true];
        queue := queue[1..];
      }
    }

    /** The open send failed: its chunk stays for a later attempt and sending stops. */
    method OnFailed()
      requires Valid()
      modifies this`sends, this`finishing, this`paused
      ensures Valid()
      ensures Sight() == Seen(old(Sight()), SendFailed, byteCap, chunkCap)
      ensures old(sends) != [] ==> sends == [] && paused
      ensures old(sends) == [] ==> paused == old(paused)
    {
      hide QueueOk;
      if sends == [] { return; }
      finishing := [sends[0].operation];
      sends := [];
      paused := true;
    }

    /** The operation is over, whatever its outcome; the next send may start. */
    method OnFinally()
      requires Valid()
      modifies this`inFlight, this`finishing, this`sends, this`operations
      ensures Valid()
      ensures Sight() == Seen(old(Sight()), Finally, byteCap, chunkCap)
      ensures old(finishing) != [] ==>
                && finishing == []
                && if paused || queue == [] then sends == [] && inFlight.None?
                   else |sends| == 1 && sends[0].chunk == queue[0]
    {
      hide QueueOk;
      if finishing == [] { return; }
      var operation := finishing[0];
      finishing := [];
      if inFlight == Some(operation) { inFlight := None; }
      Pump();
    }

    method Step(event: Event)
      requires Valid()
      modifies this
      ensures Valid() && (cleared <==> old(cleared) || event.Clear?)
      ensures Sight() == Seen(old(Sight()), event, byteCap, chunkCap)
    {
      hide QueueOk, FlightOk, Seen, Sight;
      match event
      case Enqueue(data) => var _ := Add(data);
      case Pause => SetPaused();
      case Resume => Unpause();
      case Clear => Discard();
      case SendAccepted => OnAccepted();
      case SendFailed => OnFailed();
      case Finally => OnFinally();
    }
  }

  /**
   * Every run: the queue is what the events make of it, every accepted chunk was taken and none is accepted twice or
   * before an older one, and without a clear what was taken is what was accepted followed by what still waits.
   */
  method Run(byteCap: nat, chunkCap: nat, events: seq<Event>) returns (q: TerminalInputQueue)
    requires byteCap > 0 && chunkCap > 0
    ensures fresh(q) && q.Valid() && q.Sight() == ViewOf(events, byteCap, chunkCap)
    ensures forall i :: 0 <= i < |q.accepted| ==> q.accepted[i] in q.taken
    ensures forall i, j :: 0 <= i < j < |q.accepted| ==> q.accepted[i].identity < q.accepted[j].identity
    ensures (forall i :: 0 <= i < |events| ==> !events[i].Clear?) ==> q.taken == q.accepted + q.queue
    ensures |q.sends| <= 1 && (!q.paused && q.queue != [] ==> q.inFlight.Some?)
  {
    hide Seen, TerminalInputQueue.Sight;
    q := new TerminalInputQueue(byteCap, chunkCap);
    for i := 0 to |events|
      invariant fresh(q) && q.Valid() && q.byteCap == byteCap && q.chunkCap == chunkCap
      invariant q.Sight() == ViewOf(events[..i], byteCap, chunkCap)
      invariant q.cleared ==> exists k :: 0 <= k < i && events[k].Clear?
    {
      assert events[..i + 1][..i] == events[..i];
      q.Step(events[i]);
    }
    assert events[..|events|] == events;
  }
}
