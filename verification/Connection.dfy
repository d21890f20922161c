/** The channel bindings of one connection: attachments, uploads and TCP forwards. */
module Connection {
  const MAX_FORWARDS_PER_CONNECTION: nat := 16
  const MAX_UPLOADS_PER_CONNECTION: nat := 2

  type Channel = nat
  type ShellId = nat

  /** One attachment: the shell, and the number the shell's manager gave it. */
  datatype Binding = Binding(shell: ShellId, attachment: nat)

  /**
   * Messages as far as bindings are concerned. The flags stand for what is decided elsewhere:
   * credentials, capabilities, grants, argument checks, free permits and the managers' own answers.
   */
  datatype Message =
    | Empty
    | Hello(accepted: bool)
    | Authenticate(accepted: bool)
    | Ping
    | Pong
    | CloseConnection
    | OpenTcpForward(allowed: bool, permitFree: bool)
    | BeginUpload(allowed: bool, started: bool)
    | UploadChunk
    | FinishUpload
    | AbortUpload
    | AttachShell(allowed: bool, shell: ShellId, granted: bool)
    | DetachShell
    | Other

  /** An upload's actor may end at any time, and other connections may attach to the same shells. */
  datatype Event =
    | Dispatch(channel: Channel, message: Message)
    | UploadEnds(channel: Channel)
    | ChannelCloses(channel: Channel)
    | OthersAttach(shell: ShellId)

  predicate AllowedBeforeAuthentication(m: Message) {
    m.Hello? || m.Authenticate? || m.Ping? || m.Pong? || m.CloseConnection?
  }

  /** The number the manager last gave out for the shell. */
  function LastNumber(issued: map<ShellId, nat>, shell: ShellId): nat {
    if shell in issued then issued[shell] else 0
  }

  /**
   * Every attachment handed to this connection is either bound to exactly one channel and not yet
   * detached, or was passed to detach once; nothing else was ever bound or detached.
   */
  ghost predicate Accounted(bound: map<Channel, Binding>, issued: map<ShellId, nat>, handed: set<Binding>,
                            detached: multiset<Binding>) {
    && (forall b :: detached[b] == if b in handed && b !in bound.Values then 1 else 0)
    && bound.Values <= handed
    && (forall c, d :: c in bound && d in bound && bound[c] == bound[d] ==> c == d)
    && (forall b :: b in handed ==> b.attachment <= LastNumber(issued, b.shell))
  }

  lemma ReleaseKeepsAccounts(bound: map<Channel, Binding>, issued: map<ShellId, nat>, handed: set<Binding>,
                             detached: multiset<Binding>, c: Channel)
    requires Accounted(bound, issued, handed, detached) && c in bound
    ensures Accounted(bound - {c}, issued, handed, detached + multiset{bound[c]})
  {
    var left, more := bound - {c}, detached + multiset{bound[c]};
    forall b ensures more[b] == if b in handed && b !in left.Values then 1 else 0 {
      assert b in bound.Values <==> b in left.Values || b == bound[c] by {
        if d :| d in bound && bound[d] == b && d != c { assert left[d] == b; }
      }
    }
  }

  lemma BindKeepsAccounts(bound: map<Channel, Binding>, issued: map<ShellId, nat>, handed: set<Binding>,
                          detached: multiset<Binding>, c: Channel, shell: ShellId)
    requires Accounted(bound, issued, handed, detached) && c !in bound
    ensures var b := Binding(shell, LastNumber(issued, shell) + 1);
            && b !in handed
            && Accounted(bound[c := b], issued[shell := b.attachment], handed + {b}, detached)
  {
    var b := Binding(shell, LastNumber(issued, shell) + 1);
    var more := bound[c := b];
    forall x ensures x in more.Values <==> x in bound.Values || x == b {
      if x == b { assert more[c] == x; }
      if d :| d in bound && bound[d] == x { assert more[d] == x; }
    }
    assert b !in handed && b !in bound.Values;
  }

  /** At the end of a connection nothing is bound, so every attachment handed out was detached once. */
  lemma AllDetachedOnce(bound: map<Channel, Binding>, issued: map<ShellId, nat>, handed: set<Binding>,
                        detached: multiset<Binding>)
    requires Accounted(bound, issued, handed, detached) && bound == map[]
    ensures detached == multiset(handed)
  {
    assert forall b :: detached[b] == multiset(handed)[b];
  }

  /** The control channel carries no binding, and a forwarding channel no other one. */
  ghost predicate Separate(attached: set<Channel>, uploading: set<Channel>, forwards: set<Channel>) {
    && 0 !in attached && 0 !in uploading && 0 !in forwards
    && forwards !! attached && forwards !! uploading
    && |forwards| <= MAX_FORWARDS_PER_CONNECTION
    && |uploading| <= MAX_UPLOADS_PER_CONNECTION
  }

  lemma ControlIsFree(a: set<Channel>, u: set<Channel>, f: set<Channel>)
    requires Separate(a, u, f)
    ensures 0 !in a && 0 !in u && 0 !in f
  {
  }

  lemma FewerStaySeparate(a: set<Channel>, u: set<Channel>, f: set<Channel>, a': set<Channel>, u': set<Channel>,
                          f': set<Channel>)
    requires Separate(a, u, f) && a' <= a && u' <= u && f' <= f
    ensures Separate(a', u', f')
  {
    Smaller(u', u);
    Smaller(f', f);
  }

  /** A channel no forward uses may be attached. */
  lemma AttachedStaySeparate(a: set<Channel>, u: set<Channel>, f: set<Channel>, c: Channel)
    requires Separate(a, u, f) && c != 0 && c !in f
    ensures Separate(a + {c}, u, f)
  {
  }

  lemma UploadingStaySeparate(a: set<Channel>, u: set<Channel>, f: set<Channel>, c: Channel)
    requires Separate(a, u, f) && c != 0 && c !in f && |u| < MAX_UPLOADS_PER_CONNECTION
    ensures Separate(a, u + {c}, f)
  {
  }

  lemma ForwardingStaySeparate(a: set<Channel>, u: set<Channel>, f: set<Channel>, c: Channel)
    requires Separate(a, u, f) && c != 0 && c !in a && c !in u && |f| < MAX_FORWARDS_PER_CONNECTION
    ensures Separate(a, u, f + {c})
  {
  }

  /** The three maps of a connection. */
  datatype Bindings = Bindings(attachments: map<Channel, Binding>, uploads: map<Channel, bool>, forwards: set<Channel>)

  /** What a message on a channel that is neither the control channel nor forwarding makes of the bindings. */
  function Handled(b: Bindings, c: Channel, m: Message, issued: map<ShellId, nat>): Bindings {
    match m
    case OpenTcpForward(allowed, permitFree) =>
      b.(forwards := b.forwards + if ForwardOk(b, c, allowed, permitFree) then {c} else {})
    case BeginUpload(allowed, started) =>
      b.(uploads := if UploadOk(b, c, allowed, started) then b.uploads[c := false] else b.uploads)
    case FinishUpload => b.(uploads := b.uploads - {c})
    case AbortUpload => b.(uploads := b.uploads - {c})
    case AttachShell(allowed, shell, granted) =>
      b.(attachments := if allowed && granted && c !in b.attachments
                        then b.attachments[c := NextBinding(issued, shell)] else b.attachments)
    case DetachShell => b.(attachments := b.attachments - {c})
    case _ => b
  }

  predicate ForwardOk(b: Bindings, c: Channel, allowed: bool, permitFree: bool) {
    allowed && permitFree && c !in b.attachments && c !in b.uploads && |b.forwards| < MAX_FORWARDS_PER_CONNECTION
  }

  predicate UploadOk(b: Bindings, c: Channel, allowed: bool, started: bool) {
    allowed && started && c !in b.attachments && c !in b.uploads && |b.uploads| < MAX_UPLOADS_PER_CONNECTION
  }

  /** Only an authenticated message on a channel of its own reaches the bindings, after dead uploads are gone. */
  function Dispatched(b: Bindings, authenticated: bool, c: Channel, m: Message, issued: map<ShellId, nat>): Bindings {
    var live := b.(uploads := LiveUploads(b.uploads));
    if Reaches(b, authenticated, c, m) then Handled(live, c, m, issued) else live
  }

  /** The message reaches the bindings of its channel. */
  predicate Reaches(b: Bindings, authenticated: bool, c: Channel, m: Message) {
    !(c == 0 || c in b.forwards || m.Empty? || (!authenticated && !AllowedBeforeAuthentication(m)))
  }

  /** The manager hands out an attachment for the message. */
  predicate Admitted(b: Bindings, c: Channel, m: Message) {
    m.AttachShell? && m.allowed && m.granted && c !in b.attachments
  }

  function NextBinding(issued: map<ShellId, nat>, shell: ShellId): Binding {
    Binding(shell, LastNumber(issued, shell) + 1)
  }

  function Numbered(issued: map<ShellId, nat>, shell: ShellId): map<ShellId, nat> {
    issued[shell := LastNumber(issued, shell) + 1]
  }

  /** What a connection has seen: everything but the calls of detach. */
  datatype View = View(
    negotiated: bool,
    authenticated: bool,
    bound: Bindings,
    issued: map<ShellId, nat>,
    handed: set<Binding>)

  const UNSEEN := View(false, false, Bindings(map[], map[], {}), map[], {})

  function Seen(v: View, e: Event): View {
    match e
    case Dispatch(c, m) =>
      var attached := Reaches(v.bound, v.authenticated, c, m) && Admitted(v.bound, c, m);
      View(v.negotiated || (c == 0 && m.Hello? && m.accepted),
           v.authenticated || (c == 0 && m.Authenticate? && m.accepted && v.negotiated),
           Dispatched(v.bound, v.authenticated, c, m, v.issued),
           if attached then Numbered(v.issued, m.shell) else v.issued,
           if attached then v.handed + {NextBinding(v.issued, m.shell)} else v.handed)
    case UploadEnds(c) =>
      if c in v.bound.uploads then v.(bound := v.bound.(uploads := v.bound.uploads[c := true])) else v
    case ChannelCloses(c) =>
      if c == 0 then v
      else v.(bound := Bindings(v.bound.attachments - {c}, v.bound.uploads - {c}, v.bound.forwards - {c}))
    case OthersAttach(shell) => v.(issued := Numbered(v.issued, shell))
  }

  function ViewOf(events: seq<Event>): View {
    if events == [] then UNSEEN else Seen(ViewOf(events[..|events| - 1]), events[|events| - 1])
  }

  // ---- What the log says, without bindings ----

  const HELLO := Dispatch(0, Hello(true))
  const LOGIN := Dispatch(0, Authenticate(true))

  ghost predicate Greeted(events: seq<Event>) {
    exists i :: 0 <= i < |events| && events[i] == HELLO
  }

  /** A hello was accepted on the control channel, and credentials after it. */
  ghost predicate LoggedIn(events: seq<Event>) {
    exists i, j :: 0 <= i < j < |events| && events[i] == HELLO && events[j] == LOGIN
  }

  lemma GreetedLast(events: seq<Event>)
    requires events != []
    ensures var before, e := events[..|events| - 1], events[|events| - 1];
            && (Greeted(events) <==> Greeted(before) || e == HELLO)
            && (LoggedIn(events) <==> LoggedIn(before) || (Greeted(before) && e == LOGIN))
  {
    var n := |events| - 1;
    var before, e := events[..n], events[n];
    if Greeted(before) {
      var i :| 0 <= i < n && before[i] == HELLO;
      assert events[i] == HELLO;
      assert e == LOGIN ==> LoggedIn(events);
    }
    if LoggedIn(before) {
      var i, j :| 0 <= i < j < n && before[i] == HELLO && before[j] == LOGIN;
      assert events[i] == HELLO && events[j] == LOGIN;
    }
    if LoggedIn(events) {
      var i, j :| 0 <= i < j <= n && events[i] == HELLO && events[j] == LOGIN;
      assert before[i] == events[i];
      assert j < n ==> before[j] == events[j];
    }
    if Greeted(events) {
      var i :| 0 <= i <= n && events[i] == HELLO;
      assert i < n ==> before[i] == events[i];
    }
  }

  /** Nothing is bound or handed out before the peer has said hello and authenticated, in this order. */
  lemma {:induction false} NothingBeforeLogin(events: seq<Event>)
    ensures ViewOf(events).negotiated <==> Greeted(events)
    ensures ViewOf(events).authenticated <==> LoggedIn(events)
    ensures !LoggedIn(events) ==> ViewOf(events).handed == {} && ViewOf(events).bound == Bindings(map[], map[], {})
  {
    if events != [] {
      var before := events[..|events| - 1];
      NothingBeforeLogin(before);
      GreetedLast(events);
    }
  }

  /** The event attaches the channel: after login, to a channel no attachment and no forward uses. */
  predicate Attaches(v: View, e: Event, c: Channel) {
    && e.Dispatch? && e.channel == c && e.message.AttachShell? && e.message.allowed && e.message.granted
    && v.authenticated && c != 0 && c !in v.bound.attachments && c !in v.bound.forwards
  }

  predicate Detaches(v: View, e: Event, c: Channel) {
    (e.ChannelCloses? && e.channel == c) || (e == Dispatch(c, DetachShell) && c !in v.bound.forwards)
  }

  /** The event opens a forward: after login, on a channel that nothing uses, below the limit. */
  predicate Forwards(v: View, e: Event, c: Channel) {
    && e == Dispatch(c, OpenTcpForward(true, true)) && v.authenticated && c != 0
    && c !in v.bound.attachments && c !in v.bound.forwards && |v.bound.forwards| < MAX_FORWARDS_PER_CONNECTION
    && (c in v.bound.uploads ==> v.bound.uploads[c])
  }

  predicate Unforwards(v: View, e: Event, c: Channel) {
    e == ChannelCloses(c)
  }

  /** The uploads whose actor has not ended. */
  function AliveIn(uploads: map<Channel, bool>): set<Channel> {
    set c | c in uploads && !uploads[c]
  }

  /** The event starts an upload: after login, on a channel that nothing uses, with fewer than two alive. */
  predicate Uploads(v: View, e: Event, c: Channel) {
    && e == Dispatch(c, BeginUpload(true, true)) && v.authenticated && c != 0
    && c !in v.bound.attachments && c !in v.bound.forwards && (c in v.bound.uploads ==> v.bound.uploads[c])
    && |AliveIn(v.bound.uploads)| < MAX_UPLOADS_PER_CONNECTION
  }

  /** The channel closes, its upload is finished or aborted, or any message comes after its actor has ended. */
  predicate Unuploads(v: View, e: Event, c: Channel) {
    || e == ChannelCloses(c)
    || ((e == Dispatch(c, FinishUpload) || e == Dispatch(c, AbortUpload)) && v.authenticated)
    || (e.Dispatch? && c in v.bound.uploads && v.bound.uploads[c])
  }

  /** What a view of a connection can be: nothing bound before login, and forwards apart from the rest. */
  ghost predicate Sound(v: View) {
    && (!v.authenticated ==> v.bound == Bindings(map[], map[], {}))
    && forall c :: c in v.bound.forwards ==> c !in v.bound.attachments && c !in v.bound.uploads
  }

  lemma StepAttaches(v: View, e: Event, c: Channel)
    requires c != 0 && Sound(v)
    ensures c in Seen(v, e).bound.attachments <==>
            (Attaches(v, e, c) || (c in v.bound.attachments && !Detaches(v, e, c)))
    ensures Attaches(v, e, c) ==>
              && Seen(v, e).bound.attachments[c] == Binding(e.message.shell, LastNumber(v.issued, e.message.shell) + 1)
              && Seen(v, e).handed == v.handed + {Seen(v, e).bound.attachments[c]}
    ensures c in v.bound.attachments && c in Seen(v, e).bound.attachments ==>
              Seen(v, e).bound.attachments[c] == v.bound.attachments[c]
    ensures Seen(v, e).handed != v.handed ==> e.Dispatch? && Attaches(v, e, e.channel)
  {
    hide LiveUploads, ForwardOk, UploadOk;
  }

  lemma StepForwards(v: View, e: Event, c: Channel)
    requires c != 0 && Sound(v)
    ensures c in Seen(v, e).bound.forwards <==>
            (Forwards(v, e, c) || (c in v.bound.forwards && !Unforwards(v, e, c)))
  {
    hide LiveUploads, Dispatched;
    LiveAre(v.bound.uploads, c);
    if e.Dispatch? {
      DispatchForwards(v.bound, v.authenticated, e.channel, e.message, v.issued, c);
    }
  }

  lemma DispatchForwards(b: Bindings, authenticated: bool, x: Channel, m: Message, issued: map<ShellId, nat>,
                         c: Channel)
    ensures var live := LiveUploads(b.uploads);
            c in Dispatched(b, authenticated, x, m, issued).forwards <==>
            (c in b.forwards
             || (&& x == c && Reaches(b, authenticated, x, m) && m == OpenTcpForward(true, true)
                 && c !in b.attachments && c !in live && |b.forwards| < MAX_FORWARDS_PER_CONNECTION))
  {
    hide LiveUploads, UploadOk;
  }

  lemma StepUploads(v: View, e: Event, c: Channel)
    requires c != 0 && Sound(v)
    ensures c in Seen(v, e).bound.uploads <==>
            (Uploads(v, e, c) || (c in v.bound.uploads && !Unuploads(v, e, c)))
    ensures c in Seen(v, e).bound.uploads ==>
              (Seen(v, e).bound.uploads[c] <==>
               !Uploads(v, e, c) && c in v.bound.uploads && (v.bound.uploads[c] || e == UploadEnds(c)))
  {
    hide LiveUploads, AliveIn, Dispatched;
    LiveAre(v.bound.uploads, c);
    if e.Dispatch? {
      DispatchUploads(v.bound, v.authenticated, e.channel, e.message, v.issued, c);
    }
  }

  lemma DispatchUploads(b: Bindings, authenticated: bool, x: Channel, m: Message, issued: map<ShellId, nat>, c: Channel)
    ensures var live := LiveUploads(b.uploads);
            c in Dispatched(b, authenticated, x, m, issued).uploads <==>
            (if x != c || !Reaches(b, authenticated, x, m) then c in live
             else if m == BeginUpload(true, true)
             then c in live || (c !in b.attachments && |live| < MAX_UPLOADS_PER_CONNECTION)
             else c in live && !m.FinishUpload? && !m.AbortUpload?)
    ensures var after := Dispatched(b, authenticated, x, m, issued).uploads; c in after ==> !after[c]
  {
    hide LiveUploads, ForwardOk;
    LiveAre(b.uploads, c);
  }

  lemma LiveAre(uploads: map<Channel, bool>, c: Channel)
    ensures c in LiveUploads(uploads) <==> c in uploads && !uploads[c]
    ensures c in LiveUploads(uploads) ==> !LiveUploads(uploads)[c]
    ensures |LiveUploads(uploads)| == |AliveIn(uploads)|
  {
    assert LiveUploads(uploads).Keys == AliveIn(uploads);
  }

  /** At some event of the run this happened to the channel, and since then the other did not. */
  ghost predicate HappenedSince(events: seq<Event>, c: Channel, on: (View, Event, Channel) -> bool,
                                off: (View, Event, Channel) -> bool) {
    exists i :: 0 <= i < |events| && on(ViewOf(events[..i]), events[i], c)
                && forall j :: i < j < |events| ==> !off(ViewOf(events[..j]), events[j], c)
  }

  lemma HappenedLast(events: seq<Event>, c: Channel, on: (View, Event, Channel) -> bool,
                     off: (View, Event, Channel) -> bool)
    requires events != []
    ensures var before, e := events[..|events| - 1], events[|events| - 1];
            HappenedSince(events, c, on, off) <==>
            (on(ViewOf(before), e, c) || (HappenedSince(before, c, on, off) && !off(ViewOf(before), e, c)))
  {
    hide ViewOf;
    var n := |events| - 1;
    var before, e := events[..n], events[n];
    assert forall i :: 0 <= i < n ==> before[..i] == events[..i] && before[i] == events[i];
    if on(ViewOf(before), e, c) {
      assert on(ViewOf(events[..n]), events[n], c);
    }
    if HappenedSince(before, c, on, off) && !off(ViewOf(before), e, c) {
      var i :| 0 <= i < n && on(ViewOf(before[..i]), before[i], c)
               && forall j :: i < j < n ==> !off(ViewOf(before[..j]), before[j], c);
      assert on(ViewOf(events[..i]), events[i], c);
      assert forall j :: i < j < |events| ==> !off(ViewOf(events[..j]), events[j], c);
    }
    if HappenedSince(events, c, on, off) && !on(ViewOf(before), e, c) {
      var i :| 0 <= i < |events| && on(ViewOf(events[..i]), events[i], c)
               && forall j :: i < j < |events| ==> !off(ViewOf(events[..j]), events[j], c);
      assert i < n && on(ViewOf(before[..i]), before[i], c);
      assert forall j :: i < j < n ==> !off(ViewOf(before[..j]), before[j], c);
    }
  }

  lemma {:induction false} ViewsAreSound(events: seq<Event>)
    ensures Sound(ViewOf(events)) && 0 !in ViewOf(events).bound.forwards
    ensures 0 !in ViewOf(events).bound.attachments && 0 !in ViewOf(events).bound.uploads
  {
    if events != [] {
      var before, e := events[..|events| - 1], events[|events| - 1];
      ViewsAreSound(before);
      NothingBeforeLogin(events);
      StaysSound(ViewOf(before), e);
    }
  }

  lemma StaysSound(v: View, e: Event)
    requires Sound(v) && 0 !in v.bound.forwards && 0 !in v.bound.attachments && 0 !in v.bound.uploads
    ensures forall c :: c in Seen(v, e).bound.forwards ==>
              c !in Seen(v, e).bound.attachments && c !in Seen(v, e).bound.uploads
    ensures 0 !in Seen(v, e).bound.forwards && 0 !in Seen(v, e).bound.attachments && 0 !in Seen(v, e).bound.uploads
  {
    hide Seen, Attaches, Forwards, Uploads, Detaches, Unuploads;
    ControlStays(v, e);
    forall c | c != 0 && c in Seen(v, e).bound.forwards
      ensures c !in Seen(v, e).bound.attachments && c !in Seen(v, e).bound.uploads
    {
      StepAttaches(v, e, c);
      StepForwards(v, e, c);
      StepUploads(v, e, c);
      Exclusive(v, e, c);
    }
  }

  lemma ControlStays(v: View, e: Event)
    requires 0 !in v.bound.forwards && 0 !in v.bound.attachments && 0 !in v.bound.uploads
    ensures 0 !in Seen(v, e).bound.forwards && 0 !in Seen(v, e).bound.attachments && 0 !in Seen(v, e).bound.uploads
  {
    hide ForwardOk, UploadOk;
  }

  lemma Exclusive(v: View, e: Event, c: Channel)
    requires Sound(v)
    ensures Forwards(v, e, c) ==> !Attaches(v, e, c) && !Uploads(v, e, c) && c !in v.bound.attachments
    ensures Forwards(v, e, c) && c in v.bound.uploads ==> Unuploads(v, e, c)
    ensures c in v.bound.forwards ==> !Attaches(v, e, c) && !Uploads(v, e, c)
  {
  }

  /**
   * A channel is attached, forwarding or uploading exactly if an event made it so and none has ended it since:
   * the bindings are what the log says.
   */
  lemma {:induction false} BoundSince(events: seq<Event>, c: Channel)
    requires c != 0
    ensures c in ViewOf(events).bound.attachments <==> HappenedSince(events, c, Attaches, Detaches)
    ensures c in ViewOf(events).bound.forwards <==> HappenedSince(events, c, Forwards, Unforwards)
    ensures c in ViewOf(events).bound.uploads <==> HappenedSince(events, c, Uploads, Unuploads)
  {
    hide HappenedSince, Attaches, Detaches, Forwards, Unforwards, Uploads, Unuploads, Seen;
    if events == [] {
      NothingSince(c, Attaches, Detaches);
      NothingSince(c, Forwards, Unforwards);
      NothingSince(c, Uploads, Unuploads);
    } else {
      var before, e := events[..|events| - 1], events[|events| - 1];
      BoundSince(before, c);
      ViewsAreSound(before);
      HappenedLast(events, c, Attaches, Detaches);
      HappenedLast(events, c, Forwards, Unforwards);
      HappenedLast(events, c, Uploads, Unuploads);
      StepAttaches(ViewOf(before), e, c);
      StepForwards(ViewOf(before), e, c);
      StepUploads(ViewOf(before), e, c);
    }
  }

  lemma NothingSince(c: Channel, on: (View, Event, Channel) -> bool, off: (View, Event, Channel) -> bool)
    ensures !HappenedSince([], c, on, off)
  {
  }

  /** A message touches the bindings of its own channel only. */
  lemma OneChannelOnly(b: Bindings, authenticated: bool, c: Channel, m: Message, issued: map<ShellId, nat>,
                       other: Channel)
    requires other != c
    ensures var after := Dispatched(b, authenticated, c, m, issued);
            && (other in after.attachments <==> other in b.attachments)
            && (other in b.attachments ==> after.attachments[other] == b.attachments[other])
            && (other in after.forwards <==> other in b.forwards)
            && (other in after.uploads <==> other in b.uploads && !b.uploads[other])
  {
    assert other in LiveUploads(b.uploads) <==> other in b.uploads && !b.uploads[other];
  }

  class Conn {
    var negotiated: bool
    var authenticated: bool
    var attachments: map<Channel, Binding>
    /** Whether the upload's actor has gone. */
    var uploads: map<Channel, bool>
    var forwards: set<Channel>

    /** The session manager: each shell's last attachment number. */
    var issued: map<ShellId, nat>
    /** What the manager handed to this connection, and every call of its detach. */
    ghost var handed: set<Binding>
    ghost var detached: multiset<Binding>

    ghost predicate AttachmentsOk()
      reads this`attachments, this`issued, this`handed, this`detached
    {
      Accounted(attachments, issued, handed, detached)
    }

    ghost predicate ChannelsOk()
      reads this`attachments, this`uploads, this`forwards
    {
      Separate(attachments.Keys, uploads.Keys, forwards)
    }

    ghost predicate Valid()
      reads this
    {
      AttachmentsOk() && ChannelsOk()
    }

    constructor ()
      ensures Valid() && Sight() == UNSEEN && detached == multiset{}
    {
      negotiated, authenticated := false, false;
      attachments, uploads, forwards := map[], map[], {};
      issued, handed, detached := map[], {}, multiset{};
    }

    /** Takes the channel's attachment, if any, and passes it to the manager's detach. */
    method RemoveAttachment(channel: Channel)
      requires Valid()
      modifies this`attachments, this`detached
      ensures Valid() && attachments == old(attachments) - {channel}
      ensures detached == old(detached)
                          + if channel in old(attachments) then multiset{old(attachments)[channel]} else multiset{}
    {
      hide Accounted, Separate;
      KeysWithout(attachments, channel);
      if channel in attachments {
        ReleaseKeepsAccounts(attachments, issued, handed, detached, channel);
        FewerStaySeparate(attachments.Keys, uploads.Keys, forwards,
                          (attachments - {channel}).Keys, uploads.Keys, forwards);
        detached := detached + multiset{attachments[channel]};
        attachments := attachments - {channel};
      }
    }

    method ChannelClosed(channel: Channel)
      requires Valid()
      modifies this`attachments, this`uploads, this`forwards, this`detached
      ensures Valid()
      ensures attachments == old(attachments) - {channel} && uploads == old(uploads) - {channel}
      ensures forwards == old(forwards) - {channel}
    {
      hide Accounted, Separate;
      FewerStaySeparate(attachments.Keys, uploads.Keys, forwards,
                        attachments.Keys, (uploads - {channel}).Keys, forwards - {channel});
      uploads, forwards := uploads - {channel}, forwards - {channel};
      RemoveAttachment(channel);
    }

    /** The connection is gone: every attachment still bound is detached. */
    method DetachAll()
      requires Valid()
      modifies this`attachments, this`uploads, this`forwards, this`detached
      ensures Valid() && attachments == map[] && uploads == map[] && forwards == {}
      ensures detached == multiset(handed)
    {
      hide Accounted, Separate;
      FewerStaySeparate(attachments.Keys, uploads.Keys, forwards, attachments.Keys, {}, {});
      uploads, forwards := map[], {};
      assert uploads.Keys == {};
      while attachments != map[]
        invariant Valid() && uploads == map[] && forwards == {}
        decreases |attachments|
      {
        assert attachments.Keys != {};
        var channel :| channel in attachments;
        Smaller((attachments - {channel}).Keys, attachments.Keys);
        RemoveAttachment(channel);
      }
      AllDetachedOnce(attachments, issued, handed, detached);
    }

    ghost function Bound(): Bindings
      reads this`attachments, this`uploads, this`forwards
    {
      Bindings(attachments, uploads, forwards)
    }

    ghost function Sight(): View
      reads this`negotiated, this`authenticated, this`attachments, this`uploads, this`forwards, this`issued, this`handed
    {
      View(negotiated, authenticated, Bound(), issued, handed)
    }

    /** One message; what the connection has seen becomes what the specification says, and the invariants stay. */
    method Dispatch(channel: Channel, message: Message)
      requires Valid()
      modifies this
      ensures Valid() && Sight() == Seen(old(Sight()), Event.Dispatch(channel, message))
    {
      hide Accounted, Separate, Handled, LiveUploads;
      ControlIsFree(attachments.Keys, uploads.Keys, forwards);
      RetainUploads();
      if message.Empty? { return; }
      if !authenticated && !AllowedBeforeAuthentication(message) { return; }
      if channel in forwards { return; }
      if channel == 0 {
        if message.Hello? { negotiated := negotiated || message.accepted; }
        if message.Authenticate? && negotiated { authenticated := authenticated || message.accepted; }
        return;
      }
      Handle(channel, message);
    }

    /** A message on a channel other than the control channel and not yet forwarding. */
    method Handle(channel: Channel, message: Message)
      requires Valid() && channel != 0 && channel !in forwards
      modifies this`attachments, this`uploads, this`forwards, this`issued, this`handed, this`detached
      ensures Valid()
      ensures Bound() == Handled(old(Bound()), channel, message, old(issued))
      ensures if old(Admitted(Bound(), channel, message))
              then && issued == Numbered(old(issued), message.shell)
                   && handed == old(handed) + {NextBinding(old(issued), message.shell)}
              else issued == old(issued) && handed == old(handed)
    {
      hide Accounted, Separate, ForwardOk, UploadOk;
      match message
      case OpenTcpForward(allowed, permitFree) => OpenForward(channel, allowed, permitFree);
      case BeginUpload(allowed, started) => StartUpload(channel, allowed, started);
      case FinishUpload => EndUpload(channel);
      case AbortUpload => EndUpload(channel);
      case AttachShell(allowed, shell, granted) => Attach(channel, allowed, shell, granted);
      case DetachShell => RemoveAttachment(channel);
      case _ =>
    }

    /** Bindings of uploads whose actor has gone do not count. */
    method RetainUploads()
      requires ChannelsOk()
      modifies this`uploads
      ensures ChannelsOk() && uploads == LiveUploads(old(uploads))
    {
      hide Separate;
      FewerStaySeparate(attachments.Keys, uploads.Keys, forwards,
                        attachments.Keys, LiveUploads(uploads).Keys, forwards);
      uploads := LiveUploads(uploads);
    }

    method OpenForward(channel: Channel, allowed: bool, permitFree: bool)
      requires Valid() && channel != 0
      modifies this`forwards
      ensures Valid()
      ensures forwards == old(forwards)
                          + if old(ForwardOk(Bound(), channel, allowed, permitFree)) then {channel} else {}
    {
      hide Accounted, Separate;
      if !allowed || channel in attachments || channel in uploads { return; }
      if |forwards| >= MAX_FORWARDS_PER_CONNECTION || !permitFree { return; }
      ForwardingStaySeparate(attachments.Keys, uploads.Keys, forwards, channel);
      forwards := forwards + {channel};
    }

    method StartUpload(channel: Channel, allowed: bool, started: bool)
      requires Valid() && channel != 0 && channel !in forwards
      modifies this`uploads
      ensures Valid()
      ensures uploads == if old(UploadOk(Bound(), channel, allowed, started)) then old(uploads)[channel := false]
                         else old(uploads)
    {
      hide Accounted, Separate;
      if !allowed || channel in attachments || channel in uploads { return; }
      if |uploads| >= MAX_UPLOADS_PER_CONNECTION || !started { return; }
      UploadingStaySeparate(attachments.Keys, uploads.Keys, forwards, channel);
      KeysWith(uploads, channel, false);
      uploads := uploads[channel := false];
    }

    method EndUpload(channel: Channel)
      requires ChannelsOk()
      modifies this`uploads
      ensures ChannelsOk() && uploads == old(uploads) - {channel}
    {
      hide Separate;
      FewerStaySeparate(attachments.Keys, uploads.Keys, forwards,
                        attachments.Keys, (uploads - {channel}).Keys, forwards);
      uploads := uploads - {channel};
    }

    /** The manager hands out the shell's next attachment number; the channel is bound to it. */
    method Attach(channel: Channel, allowed: bool, shell: ShellId, granted: bool)
      requires Valid() && channel != 0 && channel !in forwards
      modifies this`attachments, this`issued, this`handed
      ensures Valid()
      ensures var binding := NextBinding(old(issued), shell);
              if allowed && granted && channel !in old(attachments)
              then && binding !in old(handed) && handed == old(handed) + {binding}
                   && attachments == old(attachments)[channel := binding] && issued == Numbered(old(issued), shell)
              else attachments == old(attachments) && issued == old(issued) && handed == old(handed)
    {
      hide Accounted, Separate;
      if !allowed || channel in attachments || !granted { return; }
      AttachedStaySeparate(attachments.Keys, uploads.Keys, forwards, channel);
      BindKeepsAccounts(attachments, issued, handed, detached, channel, shell);
      var binding := Binding(shell, LastNumber(issued, shell) + 1);
      issued := issued[shell := binding.attachment];
      KeysWith(attachments, channel, binding);
      attachments := attachments[channel := binding];
      handed := handed + {binding};
    }

    method MarkEnded(channel: Channel)
      requires ChannelsOk() && channel in uploads
      modifies this`uploads
      ensures ChannelsOk() && uploads == old(uploads)[channel := true]
    {
      hide Separate;
      assert uploads[channel := true].Keys == uploads.Keys;
      uploads := uploads[channel := true];
    }

    /** Another connection got the shell's next number. */
    method AttachOther(shell: ShellId)
      requires Valid()
      modifies this`issued
      ensures Valid() && issued == Numbered(old(issued), shell)
    {
      hide Separate;
      issued := Numbered(issued, shell);
    }

    method Step(event: Event)
      requires Valid()
      modifies this
      ensures Valid() && Sight() == Seen(old(Sight()), event)
    {
      hide Accounted, Separate, Dispatched;
      match event
      case Dispatch(channel, message) => Dispatch(channel, message);
      case UploadEnds(channel) => if channel in uploads { MarkEnded(channel); }
      case ChannelCloses(channel) => if channel != 0 { ChannelClosed(channel); }
      case OthersAttach(shell) => AttachOther(shell);
    }
  }

  lemma KeysWith<V>(m: map<Channel, V>, c: Channel, v: V)
    ensures m[c := v].Keys == m.Keys + {c}
  {
  }

  lemma KeysWithout<V>(m: map<Channel, V>, c: Channel)
    ensures (m - {c}).Keys <= m.Keys && (c !in m ==> m - {c} == m)
  {
  }

  function LiveUploads(uploads: map<Channel, bool>): map<Channel, bool> {
    map ch | ch in uploads && !uploads[ch] :: false
  }

  lemma Smaller(a: set<Channel>, b: set<Channel>)
    requires a <= b
    ensures |a| <= |b| && (a < b ==> |a| < |b|)
  {
    assert |b| == |a| + |b - a| by { assert b == a + (b - a); }
  }

  /**
   * Every run that ends with the connection: the attachments handed out, which the events determine, are
   * those passed to detach, each exactly once.
   */
  method Run(events: seq<Event>) returns (conn: Conn)
    ensures conn.Valid() && conn.attachments == map[] && conn.uploads == map[] && conn.forwards == {}
    ensures conn.handed == ViewOf(events).handed && conn.detached == multiset(ViewOf(events).handed)
    ensures !LoggedIn(events) ==> conn.handed == {}
    ensures forall i :: 0 <= i <= |events| && !LoggedIn(events[..i]) ==>
              ViewOf(events[..i]).handed == {} && ViewOf(events[..i]).bound == Bindings(map[], map[], {})
  {
    hide Accounted, Separate, Seen, LoggedIn;
    conn := new Conn();
    for i := 0 to |events|
      invariant fresh(conn) && conn.Valid() && conn.Sight() == ViewOf(events[..i])
    {
      assert events[..i + 1][..i] == events[..i];
      conn.Step(events[i]);
    }
    assert events[..|events|] == events;
    conn.DetachAll();
    forall i | 0 <= i <= |events| && !LoggedIn(events[..i])
      ensures ViewOf(events[..i]).handed == {} && ViewOf(events[..i]).bound == Bindings(map[], map[], {})
    {
      NothingBeforeLogin(events[..i]);
    }
    NothingBeforeLogin(events);
  }
}
