# Holdfast: verified models of the presentation pipeline, flow control, persistence and codecs

Holdfast keeps terminal sessions alive across reconnects. Most of its hard logic is in bounded queues and
step-by-step protocols, and those are what this project models and proves. Stateful components are classes
whose methods are the atomic steps of the original (an event, a callback, a locked section, one side of an
atomic operation). Every component has a method `Run` (for the rate limiter, `Serve`) that takes an arbitrary
sequence of steps and states what holds after it. Codecs and text transformations are functions, with methods
where the original loops.

| file | component |
|---|---|
| `Tab.dfy` | one tab of the desktop client: live bytes, replays, the write queue, xterm's callbacks |
| `Screen.dfy` | as much of a terminal's screen as a replay's header needs |
| `TerminalOutput.dfy`, `Utf8.dfy` | the streaming filter for bidi isolates, and the text it agrees with |
| `RenderState.dfy` | bounds of history and replay |
| `InputQueue.dfy` | the ordered input queue |
| `RateLimiter.dfy` | the per-address limiter of failed authentications |
| `Forwarding.dfy` | the stop-and-wait TCP forwarding actor |
| `ChannelQueue.dfy` | the per-stream writer queue with overload replacement |
| `Permits.dfy`, `Connection.dfy` | permit counts, and the channel bindings of a connection |
| `Store.dfy`, `Journal.dfy`, `Hex.dfy` | the client store, the open journal and the text of its keys |
| `Varint.dfy`, `BridgeHeader.dfy` | the channel prefix and the front door's header |
| `ShellQuote.dfy` | quoting a path for a POSIX shell |
| `Bytes.dfy` | octets, `Option` and concatenation |

## How the main results fit together

**Tab.** `Valid()` has seven parts, kept by every event in any order: at most one xterm write outstanding and
no reset or write ever overlapping one; every promise of a queued write queued, with xterm or fulfilled, and
none twice; counters equal to their sums and within their caps; the retained chunks being the newest ones with
their numbers; nothing stuck unless something completed during a close; a replay of the current attachment
carrying exactly what was numbered when it started, after a header made of history, preamble and snapshot; and,
while the tab is presented and has not asked for recovery, the bytes fed to the filter followed by the queued
ones being that header followed by every live byte the tab took. `StoryOf` says from the events alone which
bytes these are, and `PageOf` which history, flags and row count a header has. `Spelled` says byte by byte what a
header is, and `HeaderDraws` what it does to a screen: note and history scroll off above a blank line, and the
snapshot is drawn from the top of an empty viewport. With `FilterResumes` this gives what xterm holds
(`TabPipeline.Run`).

**Rate limiter.** Three limiters are related: the one in the daemon (`RateLimiter`), one that never sweeps and
has no cap (`PlainStep`), and one with no buckets at all, which looks only at the log (`MeantAnswers`). What a
sweep and an eviction may drop is stated through death alone: `ExpiryIsDeath` shows that the expiry they sort by is
the instant of death, and `DeadMeans` that a dead bucket can have no effect any more.

**Store.** `AfterAll` says what the operations make of the data; `Tells` says the same again without records, by
scanning the log backwards for the last word on a server's consent, login, journal, shells and profile.

**Forwarding.** `Next` is the specification of one step and `Good` what every step keeps, both on values; the methods
of `Forward` are proved equal to `Next`. What was read, admitted and said is then folded from the events alone.

**Journal.** `Then` is the specification of client, server and crashes: what an event makes of the stored record,
of a history that the client cannot see (which shell the server opened for each key) and of the phase. The methods
of `Session` are proved against it, and the account of all shells (`Consistent`) is proved kept by it. The causes
of what it says about a key, its shell, its token and its name, are traced to events (`EscapesHaveCauses`,
`TokensAreTold`).

**Connection.** `Seen` specifies what a connection has seen after an event, and so which attachments it was handed;
the calls of detach are then pinned by the account that every attachment is bound once or detached once. What it
says is tied to the log: nothing before a hello and a login (`NothingBeforeLogin`), and a binding exactly from the
event that makes it to the one that ends it (`BoundSince`).

## Where the code does something else than expected

- **A dead bucket is not always like an absent one** (`crates/daemon/src/auth.rs:113-115` says it is). After a
  lockout has elapsed and before a check ends it, the bucket is dead but keeps its lockout. `DeadIsAbsent` proves
  exactly when the claim holds: there is no stale lockout, or `max_failures` is at most one. `StaleLockoutShows`
  is a run of the daemon, from the empty limiter, on which sweeping changes an answer. The equivalence with the
  plain limiter is proved for all runs whose failures meet no stale lockout. A failure that comes less than a lockout
  after an admitted check of its address never does, however many attempts overlap; nor does the first one after a
  check.
- **`max_failures` does not bound a bucket's stamps when attempts overlap.** The check and the failure of one
  attempt are separate (`crates/daemon/src/conn.rs:168` and `:376`, with the password verified in between), so
  further attempts admitted before a lockout still add stamps. `StampBoundExactly` proves the least bound: with
  at most k attempts of one address in flight it is `max_failures - 1 + k` (with one for a `max_failures` of
  zero), so `max_failures` itself holds if and only if attempts never overlap; `Overlap` is the run that reaches it.
- **Two upstream frames can be unacknowledged** (`crates/daemon/src/forward.rs:183-186`): the slot is offered
  again before the acknowledgement is sent. `Forwarding.Run` proves the exact condition, that there are two
  exactly while the actor is sending an acknowledgement and the slot is full, never more, and at most one for a
  peer that waits for each acknowledgement. `ImpolitePeer` reaches two. Downstream there is never more than one.
- **A row count outside 1 to 4096 stops rendering.** The preamble throws (`desktop/src/terminal-render-state.ts:19-24`)
  after `renderPending` was set, so the render stays pending with nothing in flight. `TabPipeline.Run` proves that
  this never happens while all row counts of a run are supported, and `UnsupportedRowsStall` that it does for
  every other one.
- **A close that fails can lose output.** `closeTabNow` raises `closing` with the queue untouched and lowers it
  again when the close fails (`desktop/src/main.ts:589` and `:604`). Meanwhile the tab ignores live bytes, the end
  of a replay and every pump. `TabPipeline.Run` proves that the tab took what arrived if and only if no byte came
  during a close (an ignored empty snapshot apart, for which the next message is taken), and that nothing gets
  stuck if nothing completed or was pumped during one; `Tab.OnXtermCallback` that a completion during a close leaves
  something stuck if and only if work was waiting for it. `FailedCloseLosesBytes` and `FailedCloseStalls` are the
  failing runs.
- **A replay may come without its snapshot.** The history fetch of an older attachment asks for a render when it
  returns (`desktop/src/main.ts:459-460`), possibly before the new attachment's snapshot has come. `TabPipeline.Run`
  proves that only such a render leaves it out; `EarlyRenderOmitsSnapshot` is the run.
- **A ten-byte varint may lose bits.** `decode_varint` shifts the tenth byte by 63 and drops what does not fit, and
  it accepts padded forms. `CanonicalExactlyWhen` says exactly which accepted bytes are the encoding of their value;
  `PaddingIsAccepted` and `LostBitsAreAccepted` are inputs that are not.
- **In malformed bytes the filter may put an isolate together** (`MalformedMayFormIsolate`), so its promise about
  isolates is for well-formed text, and its promise about chunking for all bytes.

## Model

| member | source | states |
|---|---|---|
| `TabPipeline.Run` | desktop/src/tab.ts:321-590 | After every sequence of events: the invariant; what the tab was told and which history it holds is what the events say; a presented tab's header is, byte by byte, the lines of note and history, as many line breaks as rows, the home position and the snapshot, with the history, flags, row count and snapshot of some moment of the current attachment; without a snapshot only if the replay was composed before it came, which needs a render asked for before; unless recovery was requested, the bytes fed to the filter and then the queued ones are that header and every live byte taken; snapshot and live bytes taken are those that arrived if and only if no byte arrived during a close, an ignored empty snapshot apart; xterm holds their filtered form, which for text at rest is the text without isolates; recovery is requested only for a load over the write queue's caps or a snapshot over 3 MiB; no render is refused while all row counts are supported, nothing is stuck if nothing completed during a close, and then an attachment of lesser load that was asked to render is presented or on its way |
| `TabPipeline.Tab.Step` | desktop/src/tab.ts:321-590 | Each event keeps the invariant and changes what the tab was told and its history, flags and row count exactly as specified; the header changes only to that of a replay started in this step; recovery is newly requested only when the retained output exceeds the queue or replay caps, or for a chunk that is too large or finds no room; a render is newly refused only for an unsupported row count; a completion counts as ignored exactly during a close |
| `TabPipeline.Tab.constructor` | desktop/src/tab.ts:77-108 | The initial state satisfies the invariant |
| `TabPipeline.Tab.OnChannelMessage` | desktop/src/tab.ts:321-332 | The first message of an attachment becomes its snapshot, later ones are live, and messages of older attachments or to a closing tab change nothing |
| `TabPipeline.Tab.AppendLive` | desktop/src/tab.ts:334-355 | Keeps the invariant; recovery is requested exactly when a presented tab gets a chunk that exceeds the live cap or finds no room in the write queue; the tab stays presented exactly in the other cases or when the chunk exceeded the live cap |
| `TabPipeline.Tab.Evict` | desktop/src/tab.ts:344-350 | Afterwards both caps hold, the newest chunks with their numbers remain, and the overflow flag is raised exactly when something was evicted |
| `TabPipeline.Tab.AddHistory` | desktop/src/tab.ts:381-390 | The longest suffix of the new lines that both caps leave room for goes before the old ones; history becomes truncated and exhausted exactly when it was cut |
| `TabPipeline.Tab.ResetForAttach` | desktop/src/tab.ts:392-414 | Starts a new generation with nothing kept from the old attachment, history flags included, while a write or replay still with xterm stays accounted for |
| `TabPipeline.Tab.RenderAll` | desktop/src/tab.ts:421-442 | A render ends up pending, in flight or replaced by a recovery, starts at once when nothing is in flight and it fits, and stays pending for an unsupported row count; after an overflow a current presentation is left alone |
| `TabPipeline.Tab.BuildReplay` | desktop/src/tab.ts:466-481 | The replay is the header and the retained live bytes, or nothing exactly when that exceeds the replay cap; the header is the note and the history lines, each ended by a line break, or neither without history, then as many line breaks as rows, the home position, and the snapshot last |
| `TabPipeline.WrittenIsSpelled` | desktop/src/tab.ts:466-481 | The joined and encoded text is byte by byte the lines of note and history, one viewport of CR LF, ESC [ H and the snapshot; the note is the display limit's if the client cut history, the scrolling one if older lines remain to be fetched, and the start's otherwise |
| `TabPipeline.HeaderDraws` | desktop/src/terminal-render-state.ts:13-24 | On an empty screen the header leaves note and history lines scrolled off above a blank line, and the snapshot is drawn from the top of an empty viewport, if history lines hold no line break or home position |
| `Screen.DrawsBelow` | desktop/src/terminal-render-state.ts:13-24 | After any plain lines, as many line breaks as rows and the home position leave an empty viewport, and what follows starts at its top |
| `TabPipeline.Tab.StartRenderIfIdle` | desktop/src/tab.ts:483-499 | Nothing changes while something is in flight; otherwise the outcome is decided by row count and size, and a started replay remembers generation and newest number |
| `TabPipeline.Tab.OnReplayDone` | desktop/src/tab.ts:499-529 | A replay of the current attachment is presented or recovery is requested, the latter only for an overflow, after which it is presented too, or a backlog over the queue's caps; after a replay of an older one, or with a render pending, nothing is presented or queued and only a pending render starts; during a close nothing starts |
| `TabPipeline.Tab.EnqueueUncovered` | desktop/src/tab.ts:521-524 | Queues exactly the chunks the replay did not carry: with what was fed they make the header and every live byte |
| `TabPipeline.Tab.EnqueueWrite` | desktop/src/tab.ts:532-551 | With room the bytes on their way grow by exactly this chunk; without room the queue is empty, the tab is no longer presented, and recovery is requested |
| `TabPipeline.Tab.ClearWriteQueue` | desktop/src/tab.ts:553-557 | Fulfils every queued promise, none a second time, and leaves an empty queue |
| `TabPipeline.Tab.PumpWrites` | desktop/src/tab.ts:559-578 | Takes the head of the queue unless busy, without changing the order or sum of the bytes on their way, with one write in flight; a queue that is left has a write in flight or a pump scheduled, except during a close, when nothing moves |
| `TabPipeline.Tab.OnWriteDone` | desktop/src/tab.ts:572-577 | The promise of the finished write is fulfilled once, and the pending render or the next write starts |
| `TabPipeline.Tab.OnXtermCallback` | desktop/src/tab.ts:499-577 | A completion during a close is ignored, and leaves something stuck if and only if a render, a queued write or a presentation was waiting for it |
| `TabPipeline.Tab.RequestRecovery` | desktop/src/tab.ts:580-584 | The delegate is asked at most once per attachment and never by a closing tab |
| `TabPipeline.Tab.Close` | desktop/src/tab.ts:586-588 | A disposed tab has an empty queue with all its promises fulfilled |
| `TabPipeline.Tab.BeginClose` | desktop/src/main.ts:589 | Raises the closing flag and keeps the invariant, with the queue untouched |
| `TabPipeline.Tab.CloseFailed` | desktop/src/main.ts:603-604 | Opens the tab again unless it is disposed, and keeps the invariant |
| `TabPipeline.TookAllUnlessMissed` | desktop/src/tab.ts:325-335 | Unless an empty snapshot was ignored, the tab took snapshot and live bytes of the attachment as they arrived if and only if no byte arrived during a close; a missed byte always shows |
| `TabPipeline.FailedCloseLosesBytes` | desktop/src/main.ts:589-604 | A run after which a presented, open tab without recovery lacks a byte that arrived |
| `TabPipeline.FailedCloseStalls` | desktop/src/main.ts:589-604 | A run after which an open tab is never presented, because the end of its replay was ignored |
| `TabPipeline.UnsupportedRowsStall` | desktop/src/terminal-render-state.ts:19-24 | For every row count outside 1 to 4096 the first render stays pending with nothing in flight |
| `TabPipeline.EarlyRenderOmitsSnapshot` | desktop/src/main.ts:459-499 | A render asked for before the snapshot came, as a history fetch of an older attachment does, presents a header without it, also after it has come |
| `TabPipeline.Tab.OnItsWay` | desktop/src/tab.ts:421-578 | With a load within the caps, supported rows and no completion ignored, what was asked to render is presented, in flight or pending behind a write |
| `TabPipeline.HeaderFits` | desktop/src/tab.ts:466-481 | A header with a full history and a snapshot up to 3 MiB leaves room in a replay for a full write queue |
| `TerminalOutput.ChunkingIsInvisible` | desktop/src/terminal-output.ts:25-61 | For every byte string and every way of cutting it, outputs and pending bytes are those of one call |
| `TerminalOutput.FilterResumes` | desktop/src/terminal-output.ts:32-61 | Filtering a string equals filtering a prefix and then what it left pending with the rest |
| `TerminalOutput.FilterStripsIsolates` | desktop/src/terminal-output.ts:14-61 | On encoded text the byte filter gives the encoding of the text without U+2066 to U+2069, with nothing pending |
| `TerminalOutput.StreamStripsIsolates` | desktop/src/terminal-output.ts:14-61 | The same for encoded text cut into chunks anywhere |
| `TerminalOutput.FilterRemovesTriples` | desktop/src/terminal-output.ts:32-61 | For any bytes, well-formed or not: output and pending bytes together are the input without the triples of the four isolates, and pending is exactly an end E2 or E2 81 |
| `Utf8.EncodeReadsBack` | desktop/src/tab.ts:357-359 | The encoder's octets announce their number, are marked as continuations, stand for the character, and no shorter form could |
| `TerminalOutput.MalformedMayFormIsolate` | desktop/src/terminal-output.ts:32-61 | A malformed input whose output is an isolate |
| `TerminalOutput.TerminalOutputFilter.Filter` | desktop/src/terminal-output.ts:32-61 | The copying loop computes the one-shot filter of pending and new bytes, and keeps at most two bytes pending |
| `RenderState.PrependBoundedHistory` | desktop/src/terminal-render-state.ts:37-64 | Prepends the longest suffix both caps leave room for, with its exact byte count, and reports whether it was everything |
| `RenderState.ComposeBoundedReplay` | desktop/src/terminal-render-state.ts:67-83 | The concatenation of the parts, or nothing exactly when it exceeds the cap |
| `InputQueue.Run` | desktop/src/terminal-input-queue.ts:32-96 | In every run the queue is what the events make of it; every accepted chunk was taken and chunks are accepted at most once and in the order taken, clears or not; without a clear the chunks taken are those accepted followed by those waiting; at most one send is open; an unpaused queue that is not empty has an operation in flight |
| `InputQueue.NextInOrder` | desktop/src/terminal-input-queue.ts:79-85 | Accepting the chunk in flight keeps the accepted chunks in the order they were taken, none twice |
| `InputQueue.TerminalInputQueue.Add` | desktop/src/terminal-input-queue.ts:32-44 | Refuses exactly what exceeds a cap, changing nothing, and otherwise appends |
| `InputQueue.TerminalInputQueue.OnAccepted` | desktop/src/terminal-input-queue.ts:79-85 | The chunk whose send was accepted leaves the queue; if a clear took it away meanwhile, nothing else leaves and the count stays right |
| `InputQueue.TerminalInputQueue.OnFailed` | desktop/src/terminal-input-queue.ts:86-90 | A failed send keeps its chunk and pauses the queue |
| `InputQueue.TerminalInputQueue.Discard` | desktop/src/terminal-input-queue.ts:61-64 | Empties queue and count, and leaves an open send consistent |
| `InputQueue.TerminalInputQueue.OnFinally` | desktop/src/terminal-input-queue.ts:91-94 | Ends the operation and starts the next send unless paused |
| `RateLimiting.Serve` | crates/daemon/src/auth.rs:154-229 | With monotone time and no forced eviction, if no failure meets a stale lockout, every check is answered as by the plain limiter and as the log means; failures that follow admitted checks, overlapping or not, meet none; in every run, evictions or not, a bucket holds at most `max_failures - 1 + k` stamps when at most k attempts of an address are in flight |
| `RateLimiting.SweepingIsInvisible` | crates/daemon/src/auth.rs:204-216 | From any similar pair of limiters, sweeping changes no answer, and what is still tracked agrees with the plain limiter |
| `RateLimiting.PlainMeans` | crates/daemon/src/auth.rs:166-198 | An address is refused at t exactly when a failure at s with s <= t < s + lockout brought its failures inside the window since its last reset to the limit |
| `RateLimiting.CheckedFailuresAreNotStale` | crates/daemon/src/conn.rs:166-389 | When each failure comes less than a lockout after an admitted check of its address, or is the first since one, no failure meets a stale lockout; attempts may overlap |
| `RateLimiting.BucketsStayBounded` | crates/daemon/src/auth.rs:185-196 | With at most k attempts of an address in flight, its stamps and its attempts in flight together never exceed `max_failures - 1 + k`, and a bucket that is not locked holds fewer than lock it |
| `RateLimiting.StampBoundExactly` | crates/daemon/src/auth.rs:185-196 | A number bounds the stamps of all runs with at most k attempts in flight if and only if it is at least `max_failures - 1 + k`; so `max_failures` does if and only if k is one |
| `RateLimiting.OverlapReaches` | crates/daemon/src/conn.rs:166-389 | For every policy and k, the run that reaches the bound: all but one failure one by one, then k attempts at once |
| `RateLimiting.DeadIsAbsent` | crates/daemon/src/auth.rs:112-123 | A dead bucket takes a failure like an absent one if and only if its lockout is not stale or one failure already locks |
| `RateLimiting.StaleLockoutShows` | crates/daemon/src/auth.rs:112-123 | A run of the daemon, each failure ending an admitted attempt and at most three of an address in flight, on which the sweeping limiter refuses a check that the plain one admits: one attempt outlasts the lockout |
| `RateLimiting.RateLimiter.CheckAddress` | crates/daemon/src/auth.rs:166-181 | Refuses exactly while locked, and ends an elapsed lockout |
| `RateLimiting.RateLimiter.RecordFailure` | crates/daemon/src/auth.rs:185-198 | Records, sweeps and evicts as specified; afterwards the map is within its cap; unless a sweep is due nothing is dropped, and then all dead buckets go, and live ones only as far as the cap demands, each of which is dead whenever a kept one is |
| `RateLimiting.RateLimiter.Prune` | crates/daemon/src/auth.rs:206-229 | The same of pruning alone: over the cap it keeps exactly the cap's number, and whenever a kept bucket is dead, every evicted one is |
| `RateLimiting.EvictSoonest` | crates/daemon/src/auth.rs:217-228 | Removes exactly the overflow, and of live buckets those that die first: whenever a kept one is dead, every evicted one is |
| `RateLimiting.ExpiryIsDeath` | crates/daemon/src/auth.rs:125-137 | A bucket that is alive now is dead at a later instant if and only if its expiry has come |
| `RateLimiting.DeadMeans` | crates/daemon/src/auth.rs:112-123 | A bucket is dead if and only if from now on it never locks and no stamp of it is ever inside the window |
| `RateLimiting.PruneMeans` | crates/daemon/src/auth.rs:204-229 | Sweep and eviction together drop what may be dropped, stated through death and the cap alone |
| `RateLimiting.DeadNeverLinger` | crates/daemon/src/auth.rs:204-216 | In every run each tracked bucket was alive at the last sweep or was reset since |
| `RateLimiting.DeadDoNotLinger` | crates/daemon/src/auth.rs:204-216 | After a failure the last sweep is less than a window ago, and what is tracked was alive at it or was reset since |
| `Forwarding.Run` | crates/daemon/src/forward.rs:90-223 | Every interleaving: state, bytes read and messages sent are what the events determine; the bytes read are those the socket delivered when read, and the frames sent carry a prefix of them; the peer is told of the opening first and once, then of exactly the frames and acknowledgements in the order of their events; a raised flag means a free slot; the frames accepted are those admitted; the socket got a prefix of their data, all of it once shut down; nothing follows an end of file; the peer owes at most one acknowledgement; the actor owes two exactly while it acknowledges with a full slot, and at most one to a peer that waits; an actor with both directions finished has ended |
| `Forwarding.Forward.Step` | crates/daemon/src/forward.rs:90-223 | Each step keeps the invariant and is exactly the specified one, in which frames are accepted, sent or acknowledged and bytes written or read only by the step that is for it |
| `Forwarding.StepIsGood` | crates/daemon/src/forward.rs:90-223 | Every specified step keeps the two rights of admission, what was carried upstream and downstream, the acknowledgements owed and the agreement of messages with frames |
| `Forwarding.LogsAgree` | crates/daemon/src/forward.rs:90-223 | In every run the bytes read, the frames admitted and the messages sent are the folds of the events that were enabled |
| `Forwarding.StopsFor` | crates/daemon/src/forward.rs:90-223 | The actor ends only when aborted, when both directions are finished, or for a frame or acknowledgement that was not due or has a wrong size |
| `Forwarding.Forward.OnPeerFrame` | crates/daemon/src/forward.rs:90-103 | Admits a well-sized frame exactly when the flag was up, and otherwise ends the binding |
| `Forwarding.Forward.OnPeerFill` | crates/daemon/src/forward.rs:98-106 | An admitted frame or acknowledgement always finds its slot free |
| `Forwarding.Forward.OnWrite` | crates/daemon/src/forward.rs:177-182 | The socket only grows, by the frame's next bytes, and never after the shutdown |
| `Forwarding.Forward.OnWriteDone` | crates/daemon/src/forward.rs:183-185 | A written data frame offers the slot again; an end of file never does |
| `Forwarding.Forward.OnSendAck` | crates/daemon/src/forward.rs:186-194 | One acknowledgement per frame; after an end of file the slot is empty, so the error for data after it cannot occur |
| `Forwarding.Forward.OnRead` | crates/daemon/src/forward.rs:201-212 | The bytes read are the first 8192 the socket delivered, and the next frame holds exactly these, an end of file for none; no acknowledgement is pending then, so the error for an unsolicited one cannot occur |
| `Forwarding.Forward.OnTakeAck` | crates/daemon/src/forward.rs:215-221 | Each acknowledgement allows one further read, and that of the end of file ends the direction |
| `Forwarding.ImpolitePeer` | crates/daemon/src/forward.rs:183-186 | A run that leaves two accepted frames unacknowledged |
| `ChannelQueue.Run` | crates/daemon/src/webtransport.rs:566-628 | Every interleaving, with the lock released before the notification: queue, deliveries, permits and the writer's place are what the events make of them, and the frames pushed are those of the run; delivered and queued frames are a prefix of the pushed ones, all of them without a close and an overload, or a prefix and one overload frame; the byte count is the sum; while there is work or a close, a waiting writer has a permit or a notification still on its way, so once all are delivered a parked writer has nothing to do; it finishes only on a closed empty queue |
| `ChannelQueue.WtChannelQueue.Push` | crates/daemon/src/webtransport.rs:585-602 | The locked part: appends within the caps; over them replaces what is queued by the overload frame and closes; does nothing once closed; otherwise a notification is owed |
| `ChannelQueue.WtChannelQueue.Look` | crates/daemon/src/webtransport.rs:612-628 | Hands out the oldest frame, ends on a closed empty queue, waits otherwise |
| `ChannelQueue.WtChannelQueue.Close` | crates/daemon/src/webtransport.rs:607-608 | The locked part: closes and owes a notification |
| `ChannelQueue.WtChannelQueue.NotifyOne` | crates/daemon/src/webtransport.rs:603-609 | One owed notification wakes the parked writer or leaves a permit |
| `Permits.Run` | crates/daemon/src/forward.rs:46-72 | In every run of acquires and drops, on both services, tables count exactly the live permits, hold no zero entry and respect both bounds, and the live permits are those the history of grants and drops gives |
| `Permits.Sum` | crates/daemon/src/forward.rs:47-50 | Adding up the table in any order gives the number of live permits |
| `Permits.ForwardService.Acquire` | crates/daemon/src/forward.rs:46-56 | Grants exactly below 128 permits in all and 32 for the user |
| `Permits.ForwardService.Release` | crates/daemon/src/forward.rs:62-72 | Dropping a permit takes exactly one from its user and leaves no zero entry |
| `Permits.UploadService.TryAcquire` | crates/daemon/src/uploads.rs:79-91 | Grants exactly below 16 permits in all and 4 for the user |
| `Permits.UploadService.Release` | crates/daemon/src/uploads.rs:140-151 | The global count stays the sum over the users, so no subtraction saturates |
| `Connection.Run` | crates/daemon/src/conn.rs:121-152 | Every run that ends with `detach_all`: the attachments handed out are those the events determine, what was passed to detach is, as a multiset, exactly that set, and no binding remains; at every moment before a hello and then credentials were accepted on channel 0, nothing is bound and nothing handed out |
| `Connection.Conn.Dispatch` | crates/daemon/src/conn.rs:392-945 | Bindings, attachments handed out, numbers issued and the two flags become exactly what the message asks for, after dead uploads are gone; the control channel stays unbound, forwarding channels stay exclusive, and every attachment stays bound once or detached once |
| `Connection.NothingBeforeLogin` | crates/daemon/src/conn.rs:415-439 | A connection is negotiated and authenticated exactly if the log has an accepted hello, and accepted credentials after one, on channel 0; before that nothing was ever bound or handed out |
| `Connection.BoundSince` | crates/daemon/src/conn.rs:392-945 | In every run a channel is attached, forwarding or uploading if and only if some event of the log made it so and none has ended it since |
| `Connection.StepAttaches` | crates/daemon/src/conn.rs:1211-1292 | A channel becomes attached exactly by a granted attach after login on a channel of its own, with the shell's next number, and stays so until a detach or its close; only such an event hands anything out |
| `Connection.StepForwards` | crates/daemon/src/conn.rs:947-1013 | A channel becomes forwarding exactly by an allowed open after login on an unused channel below the limit, and stays so until its close |
| `Connection.StepUploads` | crates/daemon/src/conn.rs:1015-1201 | A channel becomes uploading exactly by an allowed start after login on an unused channel with fewer than two uploads alive, and stays so until it is finished, aborted or closed, or a message comes after its actor has ended |
| `Connection.OneChannelOnly` | crates/daemon/src/conn.rs:392-945 | A message changes no binding of another channel, apart from removing dead uploads |
| `Connection.Conn.Attach` | crates/daemon/src/conn.rs:1211-1292 | Binds the channel to an attachment never handed out before, or changes nothing |
| `Connection.Conn.OpenForward` | crates/daemon/src/conn.rs:947-1013 | Adds the channel exactly when it is otherwise unbound, allowed, below the limit and a permit is free |
| `Connection.Conn.StartUpload` | crates/daemon/src/conn.rs:1015-1201 | Adds the channel exactly when it is neither attached nor uploading, allowed, started and below the limit |
| `Connection.Conn.ChannelClosed` | crates/daemon/src/conn.rs:121-135 | Removes the channel from all three maps and detaches its attachment, if any |
| `Connection.Conn.RemoveAttachment` | crates/daemon/src/conn.rs:922-931 | Passes exactly the channel's attachment to detach, once |
| `Connection.Conn.DetachAll` | crates/daemon/src/conn.rs:137-152 | Detaches everything still bound; each attachment handed out has then been detached exactly once |
| `Connection.BindKeepsAccounts` | crates/daemon/src/conn.rs:1275-1292 | The next attachment number is new, and binding it keeps every attachment either bound once or detached once |
| `Connection.ReleaseKeepsAccounts` | crates/daemon/src/conn.rs:122-130 | Unbinding and detaching keeps the same account |
| `ClientStore.Run` | crates/client-core/src/store.rs:116-460 | From any file, for every sequence of operations, restarts and failing saves: a newer schema or a failed migration is refused; otherwise memory is what exactly the operations with an existing server and a successful save make of what was loaded, and the log alone tells every server's consent, login, journal, profile and shells; the file is that without unkept logins once it was migrated or one has succeeded, so it holds a login exactly if the last word on it was to keep it, and then the last one given; and a reload gives exactly that |
| `ClientStore.Load` | crates/client-core/src/store.rs:116-184 | Refuses a newer schema and a migration that cannot be saved; older schemas lose every login; no login without consent gets into memory |
| `ClientStore.Apply` | crates/client-core/src/store.rs:279-414 | A failed operation changes neither side; a successful one makes the specified change in memory and leaves the file exactly the redacted memory |
| `ClientStore.OperationTells` | crates/client-core/src/store.rs:279-404 | What each operation changes of one server and what it keeps: consent as given, a login unless it is empty, the journal's entries, token and time of a shell, or its name; no other server and no other shell |
| `ClientStore.LogTells` | crates/client-core/src/store.rs:279-404 | In every run consent, login, journal, profile and each shell are the last ones the log tells, a restart without consent forgetting the login |
| `ClientStore.RedactionKeepsConsented` | crates/client-core/src/store.rs:416-425 | What is saved holds a login if and only if the log's last word was consent and a login was given, and it is the last one |
| `ClientStore.WithoutInOrder` | crates/client-core/src/store.rs:334-364 | Removing a key's entries keeps all others, in order |
| `ClientStore.NameOfFirst` | crates/client-core/src/store.rs:334-345 | A resolved shell gets the name of the key's first entry, or the default one |
| `ClientStore.Store.MutateServer` | crates/client-core/src/store.rs:406-414 | Changes one server's record after the save succeeded, and nothing at all otherwise |
| `OpenJournal.Run` | crates/client-core/src/server.rs:483-565 | From any consistent record and history, for every run with crashes between any two steps and shells renamed, removed and attached again: record, history and phase are what the specification makes of the events; each shell the server opened is in the file, recorded under its key with its current name and last token or journaled, unless it was removed or its key met an error; no key has two records; a key is abandoned, removed or opened exactly if it was at the start or an error answered its request, its recorded shell was removed, or the server opened it; and its token and name are the last ones the log tells |
| `OpenJournal.Session.Step` | crates/client-core/src/server.rs:483-565 | Record, history and phase change exactly as specified; nothing journaled disappears except into a record or after an error, no record disappears unless its shell was removed, and no key changes its shell |
| `OpenJournal.StepIsGood` | crates/client-core/src/server.rs:483-565 | Every step of the specification keeps each shell accounted for, and nothing silently disappears in it |
| `OpenJournal.EscapesHaveCauses` | crates/client-core/src/server.rs:483-565 | In every run a key is abandoned, removed or opened exactly by the events that say so |
| `OpenJournal.TokensAreTold` | crates/client-core/src/server.rs:483-565 | In every run a key's token is that of the answer its shell was recorded from or of its last attach, and its name the one asked for or renamed to |
| `OpenJournal.StepGrants` | crates/client-core/src/server.rs:544-564 | A request is granted only by its own accepted answer, with the key's shell and the answer's token, and that stays until it is recorded |
| `OpenJournal.Session.OnOpen` | crates/client-core/src/server.rs:529-543 | The request leaves only with its key in the file; otherwise nothing changes |
| `OpenJournal.Session.OnAnswer` | crates/client-core/src/server.rs:544-564 | The server opens the key's shell once, also when the answer is lost; only that key is abandoned, and only by a refusal or a lost answer |
| `OpenJournal.Session.OnRecord` | crates/client-core/src/store.rs:327-356 | One save removes the entry and records the shell with key, name and token, or changes nothing |
| `OpenJournal.Session.OnAdvance` | crates/client-core/src/server.rs:483-495 | A reconnect requests each well-formed entry again and drops malformed ones |
| `OpenJournal.Session.OnCrash` | crates/client-core/src/store.rs:116-184 | A restart from the file keeps journal and shells |
| `OpenJournal.Session.OnRename` | crates/client-core/src/store.rs:398-404 | After a successful save the shell is recorded under its key with the new name; after a failed one nothing has changed |
| `OpenJournal.Session.OnForget` | crates/client-core/src/store.rs:392-396 | After a successful save the record is gone and its key counts as removed, and nothing else changed; after a failed one nothing has changed |
| `OpenJournal.Session.OnRotate` | crates/client-core/src/store.rs:367-381 | A rotated token replaces the shell's token and changes neither key nor name |
| `OpenJournal.Session.ResolvePendingOpens` | crates/client-core/src/server.rs:483-515 | Whatever the server answers and whichever saves fail: each entry is requested once or is malformed, and afterwards exactly the entries whose save failed are journaled, in order; no key changes its shell, its name or whether it was removed, and only an error answer abandons one; if all saves succeed the journal is empty and every shell opened under a key without an error is recorded, unless it had been removed |
| `OpenJournal.Attempts` | crates/client-core/src/server.rs:487-515 | One round: the entry leaves the journal exactly if its save succeeds, granted, refused, lost or malformed, and the others stay in order |
| `OpenJournal.Resolves` | crates/client-core/src/store.rs:327-356 | Resolving one key records its shell with the new token and loses no other key's entry or record |
| `OpenJournal.Journals` | crates/client-core/src/store.rs:312-324 | Journaling a new key keeps every shell accounted for |
| `OpenJournal.Drops` | crates/client-core/src/store.rs:358-364 | Dropping a key that met an error keeps every other shell accounted for |
| `OpenJournal.Renames` | crates/client-core/src/store.rs:398-404 | Renaming keeps every shell accounted for and every journal entry its key's |
| `OpenJournal.Rotates` | crates/client-core/src/store.rs:367-381 | A rotated token keeps every shell accounted for, with its own last token |
| `OpenJournal.Forgets` | crates/client-core/src/store.rs:392-396 | Removing a shell keeps every other one accounted for |
| `OpenJournal.EveryRecordStarts` | crates/client-core/src/store.rs:60-89 | Every record in which no key occurs twice is a starting point, whatever shells and journal it holds and however its keys are written |
| `Hex.UnhexHex` | crates/client-core/src/store.rs:499-510 | Reading the text of a byte string gives it back |
| `Hex.HexIsInjective` | crates/client-core/src/store.rs:499-501 | Different byte strings have different texts |
| `Hex.HexAt` | crates/client-core/src/store.rs:499-501 | Two lower-case digits for each byte, in order, high half first |
| `Varint.EncodeVarint` | crates/daemon/src/wire.rs:17-28 | The loop appends the unsigned LEB128 encoding |
| `Varint.EncodingAt` | crates/daemon/src/wire.rs:17-28 | Byte i holds bits 7i to 7i + 6, and the continuation bit unless it is the last |
| `Varint.DecodeVarint` | crates/daemon/src/wire.rs:30-44 | The loop of 64-bit shifts and ors reads the first group of at most ten bytes in base 128 modulo 2^64, and refuses exactly longer or unfinished groups |
| `Varint.RoundTrip` | crates/daemon/src/wire.rs:17-44 | Decoding an encoding followed by anything gives the value and the encoding's length |
| `Varint.EncodingIsShort` | crates/daemon/src/wire.rs:17-28 | One to ten bytes for every 64-bit value |
| `Varint.PrefixFree` | crates/daemon/src/wire.rs:17-28 | No encoding begins another one |
| `Varint.EncodingIsShortest` | crates/daemon/src/wire.rs:17-44 | No shorter byte string decodes to the same value |
| `Varint.CanonicalExactlyWhen` | crates/daemon/src/wire.rs:30-44 | Accepted bytes are the encoding of their value if and only if the last byte is not superfluous and a tenth byte is one |
| `Varint.PaddingIsAccepted` | crates/daemon/src/wire.rs:30-44 | Two bytes that decode to zero, whose encoding is one byte |
| `Varint.LostBitsAreAccepted` | crates/daemon/src/wire.rs:30-44 | Ten bytes that spell 2^64 and decode to zero |
| `BridgeHeader.ReadExactly` | crates/daemon/src/frontdoor_bridge.rs:82-145 | The reader returns a header and a length if and only if the header is valid and its encoding is what the stream begins with |
| `BridgeHeader.ReadIsSound` | crates/daemon/src/frontdoor_bridge.rs:82-145 | A header read is valid, and encoding it gives the bytes taken |
| `BridgeHeader.ReadIsComplete` | crates/daemon/src/frontdoor_bridge.rs:482-505 | A valid header is read back from its encoding, whatever follows |
| `BridgeHeader.ReadsWire` | crates/daemon/src/frontdoor_bridge.rs:82-145 | The reader accepts exactly streams with the magic, a kind of its own stream number, zero padding, nonzero identifiers and port, a known address family and a valid name, all stated on the bytes; every field comes from its offset, numbers big-endian |
| `BridgeHeader.EncodeIsPrefixFree` | crates/daemon/src/frontdoor_bridge.rs:482-505 | No valid header's encoding begins another one's, so none has two |
| `BridgeHeader.HostnamesAreCanonical` | crates/daemon/src/frontdoor_bridge.rs:424-443 | The label test accepts exactly lower case names with letters or digits at both ends and around every dot, at most 63 bytes between dots and 253 in all, that are not IPv4 addresses |
| `BridgeHeader.AddressesAreDotted` | crates/daemon/src/frontdoor_bridge.rs:424-443 | The names refused as addresses are exactly four numbers from 0 to 255 with dots between them |
| `ShellQuote.QuoteIsOneWord` | desktop/src/ui-state.ts:46-50 | The shell reads the quoted form as one word equal to the value |
| `ShellQuote.QuoteAddsItsValue` | desktop/src/ui-state.ts:46-50 | At any point outside quotes the quoted form adds exactly the value to the current word, whatever follows |
| `ShellQuote.QuotedLineReads` | desktop/src/ui-state.ts:46-50 | A line of quoted values reads as those values |
| `ShellQuote.QuoteIsInjective` | desktop/src/ui-state.ts:46-50 | Different values have different quoted forms |
| `ShellQuote.QuoteAddsOnlyQuoting` | desktop/src/ui-state.ts:46-50 | Quoting adds quotes and backslashes only, so never an Enter |

## Modelling decisions

- xterm is a byte sink that is written, reset and calls back once per write, in order. Microtasks may run at any
  time, which allows more interleavings than an event loop. `recoverTerminal` starts no work before the current
  step is over.
- The screen of `Screen.dfy` knows line breaks with scrolling and the home position; every other byte, escape sequences
  included, is text of the cursor's row. Rows have no width.
- Instants are whole ticks. The cast of a list length to 32 bits in `record_failure` is kept.
- Eviction repeatedly takes a bucket that expires soonest instead of sorting; ties fall in any order, as in the
  original, where the order of equal keys depends on the hash map.
- An upload or input buffer is identified by the call that brought it, as the original compares buffers by identity.
- Files are values: base64, JSON, encryption, the 8 MiB limit and the file system are together one choice, whether
  a save succeeds. A save is atomic because it renames a complete file into place.
- The server's behaviour in the journal is an idempotent open: one key, one shell, no shell for two keys. Keys are
  random, so a new one occurs neither in the history nor in a record.
- Keys that met an error are called abandoned: both open paths drop the entry then, even if the server had opened
  a shell before the answer was lost.
- Flags in `Connection` messages stand for decisions made elsewhere: credentials, capabilities, grant scopes,
  argument checks, permits and the session manager's answers. Attachment numbers count per shell and are shared
  with other connections.
- Hexadecimal text is read as ASCII characters; `unhex` would stop the process on other text cut inside a character.
- Channel, stream and byte values are naturals; widths are explicit where they matter (64-bit shifts, 16- and
  64-bit header fields).
- Hostnames in the bridge header are their bytes. Bytes that are not UTF-8 are refused in the original when the
  string is made and here by the label test, which admits ASCII only; an IPv6 literal has a colon and fails it too.

## Left out

- TabPipeline.HeaderDraws: is for history lines without CR LF or ESC [ H in them and does not model wrapping, because the screen it speaks of has neither a width nor other control sequences; `TabPipeline.WrittenIsSpelled` gives the bytes for all lines.
- QUIC, HTTP/3, TLS, PAM, DPAPI, SSH signatures and the Schannel adapter: foreign code.
- Session core, framing and the terminal model: used only as an idempotent open and unique attachment numbers.
- User interface, scroll positions, links and repainting: no effect on the bytes, apart from the closing flag, which is modelled.
- What the window does about a requested recovery (`desktop/src/main.ts:638-654`): it attaches again, which here is an event, and gives up while a close is under way.
- `server-width.ts`: constant tables and a binary search.
- The registry steps of `accept_connection`: its handshake timeout may drop a task in the middle of an acknowledgement, so what holds of the table is short.
- `handle_authenticate` beyond the order of check, failure and success, and the upload actor's file handling.
- `import_v1`: a one-time import that ends in the same save-then-publish step.
- `pauseAndWait` and the error callback of the input queue: they only observe.
- Text with lone surrogates: characters here are Unicode scalar values.
- Pairing of several pending history requests, and exclusivity of an attachment and an upload on one channel: the code does not promise them.
- Expansion, operators and other quotes in the shell's reading: `ShellQuote.Words` gives no result for text that needs them, and quoted values never do.
- Timeouts of the forwarding actor: any abort at any time stands for them.
