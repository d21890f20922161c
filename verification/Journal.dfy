/**
 * Opening a shell exactly once across client crashes: the key is journaled before the request
 * leaves, the server maps one key to one shell, and a reconnect re-opens what is still journaled.
 */
module OpenJournal {
  import opened Bytes
  import opened ClientStore
  import opened Hex

  /** A 16-byte idempotency key. */
  type Key = seq<byte>

  /**
   * Where the supervisor is. `text` is the key as journaled, and `rest` are the journaled opens that a reconnect
   * still has to go through.
   */
  datatype Phase =
    | Idle
    | Next(rest: seq<PendingOpen>)
    | Requested(key: Key, text: string, rest: seq<PendingOpen>)
    | Granted(key: Key, text: string, shell: seq<byte>, token: seq<byte>, rest: seq<PendingOpen>)
    | Failed(key: Key, text: string, rest: seq<PendingOpen>)

  /** The server's side of one request, and what the client learns of it. */
  datatype Reply = Accepted | Refused | Lost

  datatype Event =
    | Open(name: string, key: Key, saved: bool)
    | Answer(reply: Reply, newShell: seq<byte>, token: seq<byte>)
    | Record(nowMs: int, saved: bool)
    | Drop(saved: bool)
    | Advance(saved: bool)
    | Rotate(shell: string, token: seq<byte>, nowMs: int, saved: bool)
    | Rename(shell: string, name: string, saved: bool)
    | Forget(shell: string, saved: bool)
    | Reconnect
    | Crash

  // ---- Lists of pending opens ----

  predicate Distinct(opens: seq<PendingOpen>) {
    opens == [] ||
    ((forall p :: p in opens[1..] ==> p.idempotencyKey != opens[0].idempotencyKey) && Distinct(opens[1..]))
  }

  lemma {:induction false} WithoutIs(opens: seq<PendingOpen>, key: string)
    ensures forall p :: p in Without(opens, key) <==> p in opens && p.idempotencyKey != key
    ensures Distinct(opens) ==> Distinct(Without(opens, key))
  {
    if opens != [] {
      WithoutIs(opens[1..], key);
      assert opens == [opens[0]] + opens[1..];
      var tail := Without(opens[1..], key);
      if opens[0].idempotencyKey == key {
        assert [] + tail == tail;
      } else {
        assert ([opens[0]] + tail)[1..] == tail;
      }
    }
  }

  lemma {:induction false} NameIs(opens: seq<PendingOpen>, p: PendingOpen)
    requires Distinct(opens) && p in opens
    ensures NameOf(opens, p.idempotencyKey) == p.name
  {
    if opens[0] != p {
      assert p in opens[1..];
      NameIs(opens[1..], p);
    }
  }

  lemma {:induction false} DistinctSnoc(opens: seq<PendingOpen>, p: PendingOpen)
    requires Distinct(opens) && forall q :: q in opens ==> q.idempotencyKey != p.idempotencyKey
    ensures Distinct(opens + [p])
  {
    if opens != [] {
      DistinctSnoc(opens[1..], p);
      assert (opens + [p])[1..] == opens[1..] + [p];
    }
  }

  // ---- What the store knows about the shells opened so far ----

  /**
   * The history of one server: which shell each key opened, the key as text and the name it was asked for or
   * renamed to, which keys met an error, whose shells were removed on purpose, and the last token of each.
   */
  datatype History = History(
    shellOf: map<Key, seq<byte>>,
    entries: map<Key, PendingOpen>,
    abandoned: set<Key>,
    removed: set<Key>,
    tokens: map<Key, seq<byte>>)

  function Text(h: History, key: Key): string
    requires key in h.entries
  {
    h.entries[key].idempotencyKey
  }

  predicate IsJournaled(s: ServerRecord, h: History, key: Key) {
    key in h.entries && h.entries[key] in s.pendingOpens
  }

  /** The shell a key opened is in the store, under that key and the name asked for, with its last token. */
  predicate IsRecorded(s: ServerRecord, h: History, key: Key) {
    && key in h.shellOf && key in h.entries && key in h.tokens
    && HexOf(h.shellOf[key]) in s.shells
    && s.shells[HexOf(h.shellOf[key])].idempotencyKey == Some(Text(h, key))
    && s.shells[HexOf(h.shellOf[key])].name == h.entries[key].name
    && s.shells[HexOf(h.shellOf[key])].token == h.tokens[key]
  }

  /** An entry no key of ours can have written; a damaged file may hold some. */
  predicate Malformed(p: PendingOpen) {
    var k := Unhex(p.idempotencyKey);
    k.None? || |k.value| != 16
  }

  /** A well-formed journaled open is the entry of some key asked for. */
  predicate Known(h: History, p: PendingOpen) {
    Malformed(p) || (var k := Unhex(p.idempotencyKey).value; k in h.entries && p == h.entries[k])
  }

  /** A recorded shell is the shell of the key it is recorded with. */
  predicate Owned(h: History, id: string, r: ShellRecord) {
    && r.idempotencyKey.Some?
    && var k := Unhex(r.idempotencyKey.value);
       k.Some? && k.value in h.shellOf && k.value in h.entries
       && id == HexOf(h.shellOf[k.value]) && h.entries[k.value] == PendingOpen(r.idempotencyKey.value, r.name)
       && k.value in h.tokens && r.token == h.tokens[k.value]
  }

  /** A shell that was there before, recorded without a key or with none of the history's keys. */
  ghost predicate Foreign(h: History, r: ShellRecord) {
    forall k :: k in h.entries ==> r.idempotencyKey != Some(Text(h, k))
  }

  /** The text of each key reads as that key, so that no two keys share one. */
  ghost predicate Readable(h: History) {
    forall k :: k in h.entries ==> |k| == 16 && Unhex(Text(h, k)) == Some(k)
  }

  /** Each shell is recorded, or still journaled, was removed, or its key met an error. No key has two. */
  ghost predicate Consistent(s: ServerRecord, h: History) {
    && Readable(h)
    && Distinct(s.pendingOpens)
    && (forall p :: p in s.pendingOpens ==> Known(h, p))
    && (forall id :: id in s.shells ==> Owned(h, id, s.shells[id]) || Foreign(h, s.shells[id]))
    && (forall k, id :: IsJournaled(s, h, k) && id in s.shells ==> s.shells[id].idempotencyKey != Some(Text(h, k)))
    && (forall k :: k in h.shellOf ==> k in h.entries && Accounted(s, h, k))
    && (forall j, k :: j in h.shellOf && k in h.shellOf && h.shellOf[j] == h.shellOf[k] ==> j == k)
  }

  predicate Accounted(s: ServerRecord, h: History, k: Key) {
    k in h.abandoned || k in h.removed || IsJournaled(s, h, k) || IsRecorded(s, h, k)
  }

  function Asked(h: History, key: Key, name: string): History {
    h.(entries := h.entries[key := PendingOpen(HexOf(key), name)])
  }

  lemma EntryOfAnother(h: History, key: Key, name: string, p: PendingOpen)
    requires Known(h, p) && |key| == 16 && key !in h.entries
    ensures p.idempotencyKey != HexOf(key) && Known(Asked(h, key, name), p)
  {
    hide HexOf, Unhex;
    UnhexHex(key);
  }

  lemma ShellOfAnother(h: History, key: Key, name: string, id: string, r: ShellRecord)
    requires (Owned(h, id, r) || Foreign(h, r)) && key !in h.entries && r.idempotencyKey != Some(HexOf(key))
    ensures Owned(Asked(h, key, name), id, r) || Foreign(Asked(h, key, name), r)
  {
    hide HexOf, Unhex;
  }

  /** Keys are random and never repeat, neither in this history nor in a shell recorded before it. */
  predicate IsNew(s: ServerRecord, h: History, key: Key) {
    && |key| == 16 && key !in h.entries
    && forall id :: id in s.shells ==> s.shells[id].idempotencyKey != Some(HexOf(key))
  }

  lemma Journals(s: ServerRecord, h: History, key: Key, name: string)
    requires Consistent(s, h) && IsNew(s, h, key)
    ensures var s', h' := Journaled(s, HexOf(key), name), Asked(h, key, name);
            Consistent(s', h') && IsJournaled(s', h', key) && Kept(s, h, s', h')
  {
    hide HexOf, Unhex, Distinct, Known, Owned, Foreign;
    var s', h' := Journaled(s, HexOf(key), name), Asked(h, key, name);
    UnhexHex(key);
    NewIsKnown(h, key, name);
    forall p | p in s.pendingOpens ensures p.idempotencyKey != HexOf(key) && Known(h', p) {
      EntryOfAnother(h, key, name, p);
    }
    DistinctSnoc(s.pendingOpens, PendingOpen(HexOf(key), name));
    forall id | id in s.shells ensures Owned(h', id, s.shells[id]) || Foreign(h', s.shells[id]) {
      ShellOfAnother(h, key, name, id, s.shells[id]);
    }
    forall k | k in h.entries
      ensures IsJournaled(s, h, k) <==> IsJournaled(s', h', k)
      ensures IsRecorded(s, h, k) ==> IsRecorded(s', h', k)
    {
    }
  }

  lemma NewIsKnown(h: History, key: Key, name: string)
    requires |key| == 16
    ensures Known(Asked(h, key, name), PendingOpen(HexOf(key), name))
  {
    UnhexHex(key);
  }

  function WithShell(h: History, key: Key, shell: seq<byte>): History {
    h.(shellOf := h.shellOf[key := shell])
  }

  /** The server made the shell of a journaled key. */
  lemma Opens(s: ServerRecord, h: History, key: Key, shell: seq<byte>)
    requires Consistent(s, h) && IsJournaled(s, h, key)
    requires key !in h.shellOf && shell !in h.shellOf.Values
    ensures Consistent(s, WithShell(h, key, shell))
  {
    hide HexOf, Unhex, Distinct, Known;
    var h' := WithShell(h, key, shell);
    forall p | p in s.pendingOpens ensures Known(h', p) { KnownStays(h, h', p); }
    forall id | id in s.shells ensures Owned(h', id, s.shells[id]) || Foreign(h', s.shells[id]) {
      assert Owned(h, id, s.shells[id]) || Foreign(h, s.shells[id]);
    }
    forall k ensures IsJournaled(s, h', k) <==> IsJournaled(s, h, k) {}
    forall k | k in h'.shellOf
      ensures k in h'.entries && Accounted(s, h', k)
    {
      assert k != key ==> Accounted(s, h, k);
    }
  }

  function Erring(h: History, key: Key): History {
    h.(abandoned := h.abandoned + {key})
  }

  lemma Abandons(s: ServerRecord, h: History, key: Key)
    requires Consistent(s, h)
    ensures Consistent(s, Erring(h, key))
  {
    hide HexOf, Unhex, Distinct, Known, Owned, Foreign;
    var h' := Erring(h, key);
    forall p | p in s.pendingOpens ensures Known(h', p) { KnownStays(h, h', p); }
    forall id | id in s.shells ensures Owned(h', id, s.shells[id]) || Foreign(h', s.shells[id]) {
      ShellStays(h, h', id, s.shells[id]);
    }
    forall k ensures IsJournaled(s, h', k) <==> IsJournaled(s, h, k) {}
    forall k | k in h.shellOf ensures Accounted(s, h', k) { assert Accounted(s, h, k); }
  }

  /** Removing one key's entry keeps the entries of all other keys. */
  lemma OthersStay(s: ServerRecord, h: History, key: Key, k: Key)
    requires Readable(h) && key in h.entries && k in h.entries && k != key
    ensures h.entries[k] in Without(s.pendingOpens, Text(h, key)) <==> h.entries[k] in s.pendingOpens
  {
    hide Unhex;
    WithoutIs(s.pendingOpens, Text(h, key));
  }

  /** No record disappears unless its shell was removed. */
  ghost predicate RecordsStay(s: ServerRecord, h: History, s': ServerRecord, h': History) {
    forall k :: IsRecorded(s, h, k) ==> IsRecorded(s', h', k) || k in h'.removed
  }

  function Tokened(h: History, key: Key, token: seq<byte>): History {
    h.(tokens := h.tokens[key := token])
  }

  lemma Resolves(s: ServerRecord, h: History, key: Key, token: seq<byte>, nowMs: int)
    requires Consistent(s, h) && IsJournaled(s, h, key) && key in h.shellOf
    ensures var r, h' := Resolved(s, Text(h, key), HexOf(h.shellOf[key]), token, nowMs), Tokened(h, key, token);
            Consistent(r, h') && IsRecorded(r, h', key) && RecordsStay(s, h, r, h')
  {
    hide HexOf, Unhex, Distinct, Without, NameOf, Known;
    var id, text, h' := HexOf(h.shellOf[key]), Text(h, key), Tokened(h, key, token);
    var r := Resolved(s, text, id, token, nowMs);
    WithoutIs(s.pendingOpens, text);
    NameIs(s.pendingOpens, h.entries[key]);
    assert IsRecorded(r, h', key);
    forall p | p in r.pendingOpens ensures Known(h', p) { KnownStays(h, h', p); }
    forall i | i in r.shells ensures Owned(h', i, r.shells[i]) || Foreign(h', r.shells[i]) {
      if i != id { OthersToken(s, h, key, token, i); }
    }
    forall k, i | IsJournaled(r, h', k) && i in r.shells
      ensures r.shells[i].idempotencyKey != Some(Text(h', k))
    {
      assert IsJournaled(s, h, k) && Text(h, k) != text;
    }
    forall k | k in h.shellOf && k != key
      ensures Accounted(r, h', k) && (IsRecorded(s, h, k) ==> IsRecorded(r, h', k))
    {
      assert Accounted(s, h, k);
      OthersStay(s, h, key, k);
      if HexOf(h.shellOf[k]) == id {
        HexIsInjective(h.shellOf[k], h.shellOf[key]);
      }
    }
  }

  /** No record holds a journaled key, so its token concerns none. */
  lemma OthersToken(s: ServerRecord, h: History, key: Key, token: seq<byte>, i: string)
    requires Consistent(s, h) && IsJournaled(s, h, key) && i in s.shells
    ensures Owned(Tokened(h, key, token), i, s.shells[i]) || Foreign(Tokened(h, key, token), s.shells[i])
  {
    hide HexOf, Unhex, Distinct, Known;
    assert Owned(h, i, s.shells[i]) || Foreign(h, s.shells[i]);
    assert s.shells[i].idempotencyKey != Some(Text(h, key));
  }

  lemma Drops(s: ServerRecord, h: History, key: Key)
    requires Consistent(s, h) && key in h.abandoned && key in h.entries
    ensures Consistent(Dropped(s, Text(h, key)), h)
  {
    hide HexOf, Unhex, Distinct, Without;
    WithoutIs(s.pendingOpens, Text(h, key));
    var s' := Dropped(s, Text(h, key));
    forall k | k in h.shellOf ensures Accounted(s', h, k) {
      assert Accounted(s, h, k);
      if k != key { OthersStay(s, h, key, k); }
      assert IsRecorded(s, h, k) ==> IsRecorded(s', h, k);
    }
    forall k | IsJournaled(s', h, k) ensures IsJournaled(s, h, k) {}
  }

  /** Dropping a malformed entry touches no key's own entry. */
  lemma DropsMalformed(s: ServerRecord, h: History, p: PendingOpen)
    requires Consistent(s, h) && Malformed(p)
    ensures Consistent(Dropped(s, p.idempotencyKey), h) && Kept(s, h, Dropped(s, p.idempotencyKey), h)
  {
    hide HexOf, Unhex, Distinct, Without;
    WithoutIs(s.pendingOpens, p.idempotencyKey);
    var s' := Dropped(s, p.idempotencyKey);
    forall k ensures IsJournaled(s, h, k) <==> IsJournaled(s', h, k) {}
    forall k ensures IsRecorded(s, h, k) <==> IsRecorded(s', h, k) {}
    forall k | k in h.shellOf ensures Accounted(s', h, k) { assert Accounted(s, h, k); }
  }

  // ---- Shells renamed, removed or attached again ----

  /** The key whose shell a record is. */
  function KeyOf(h: History, id: string, r: ShellRecord): Option<Key> {
    if Owned(h, id, r) then Unhex(r.idempotencyKey.value) else None
  }

  function Called(h: History, key: Key, name: string): History
    requires key in h.entries
  {
    h.(entries := h.entries[key := h.entries[key].(name := name)])
  }

  function AfterRename(s: ServerRecord, h: History, id: string, name: string): History {
    if id in s.shells && KeyOf(h, id, s.shells[id]).Some? then Called(h, KeyOf(h, id, s.shells[id]).value, name) else h
  }

  function AfterForget(s: ServerRecord, h: History, id: string): History {
    if id in s.shells && KeyOf(h, id, s.shells[id]).Some?
    then h.(removed := h.removed + {KeyOf(h, id, s.shells[id]).value})
    else h
  }

  /** The journal is untouched: the same entries, for the same keys. */
  ghost predicate SameEntries(s: ServerRecord, h: History, s': ServerRecord, h': History) {
    && s'.pendingOpens == s.pendingOpens
    && forall k :: IsJournaled(s, h, k) ==> k in h'.entries && h'.entries[k] == h.entries[k]
  }

  lemma Renames(s: ServerRecord, h: History, id: string, name: string)
    requires Consistent(s, h)
    ensures var s', h' := Renamed(s, id, name), AfterRename(s, h, id, name);
            Consistent(s', h') && SameEntries(s, h, s', h') && RecordsStay(s, h, s', h')
  {
    hide HexOf, Unhex, Distinct, Consistent;
    if id in s.shells && KeyOf(h, id, s.shells[id]).Some? {
      RenamesOwn(s, h, id, name, KeyOf(h, id, s.shells[id]).value);
    } else {
      RenamesForeign(s, h, id, name);
    }
  }

  lemma RenamesForeign(s: ServerRecord, h: History, id: string, name: string)
    requires Consistent(s, h) && (id in s.shells ==> KeyOf(h, id, s.shells[id]).None?)
    ensures var s' := Renamed(s, id, name);
            Consistent(s', h) && SameEntries(s, h, s', h) && RecordsStay(s, h, s', h)
  {
    hide HexOf, Unhex, Distinct, Known;
    var s' := Renamed(s, id, name);
    forall i | i in s'.shells ensures Owned(h, i, s'.shells[i]) || Foreign(h, s'.shells[i]) {
      assert Owned(h, i, s.shells[i]) || Foreign(h, s.shells[i]);
    }
    assert id in s.shells ==> Foreign(h, s.shells[id]);
    forall k ensures IsRecorded(s, h, k) ==> IsRecorded(s', h, k) {}
    forall k | k in h.shellOf ensures Accounted(s', h, k) { assert Accounted(s, h, k); }
  }

  /** A recorded key is not journaled, so a journal entry's key is another one. */
  lemma RecordedIsNotJournaled(s: ServerRecord, h: History, id: string, key: Key)
    requires Consistent(s, h) && id in s.shells && KeyOf(h, id, s.shells[id]) == Some(key)
    ensures key in h.shellOf && key in h.entries && id == HexOf(h.shellOf[key]) && |key| == 16
    ensures s.shells[id].idempotencyKey == Some(Text(h, key))
    ensures forall p :: p in s.pendingOpens ==> p.idempotencyKey != Text(h, key)
  {
    hide HexOf, Unhex, Distinct;
    forall p | p in s.pendingOpens ensures p.idempotencyKey != Text(h, key) {
      assert Known(h, p) && !IsJournaled(s, h, key);
    }
  }

  lemma KnownElsewhere(h: History, key: Key, name: string, p: PendingOpen)
    requires Known(h, p) && Readable(h) && key in h.entries && p.idempotencyKey != Text(h, key)
    ensures Known(Called(h, key, name), p)
  {
    hide Unhex;
  }

  lemma ShellRenamed(s: ServerRecord, h: History, id: string, name: string, key: Key, i: string)
    requires Consistent(s, h) && id in s.shells && KeyOf(h, id, s.shells[id]) == Some(key) && i in s.shells
    ensures var r, h' := Renamed(s, id, name).shells[i], Called(h, key, name);
            Owned(h', i, r) || Foreign(h', r)
  {
    hide HexOf, Unhex, Distinct, Known;
    assert Owned(h, i, s.shells[i]) || Foreign(h, s.shells[i]);
  }

  lemma RenamesOwn(s: ServerRecord, h: History, id: string, name: string, key: Key)
    requires Consistent(s, h) && id in s.shells && KeyOf(h, id, s.shells[id]) == Some(key)
    ensures var s', h' := Renamed(s, id, name), Called(h, key, name);
            Consistent(s', h') && SameEntries(s, h, s', h') && RecordsStay(s, h, s', h')
  {
    hide HexOf, Unhex, Distinct, Known, Owned, Foreign;
    RecordedIsNotJournaled(s, h, id, key);
    var s', h' := Renamed(s, id, name), Called(h, key, name);
    forall p | p in s'.pendingOpens ensures Known(h', p) { KnownElsewhere(h, key, name, p); }
    forall k ensures IsJournaled(s, h, k) <==> IsJournaled(s', h', k) {}
    forall i | i in s'.shells ensures Owned(h', i, s'.shells[i]) || Foreign(h', s'.shells[i]) {
      ShellRenamed(s, h, id, name, key, i);
    }
    forall k | k in h.shellOf
      ensures IsRecorded(s, h, k) ==> IsRecorded(s', h', k)
      ensures Accounted(s', h', k)
    {
      assert Accounted(s, h, k);
      if k != key && HexOf(h.shellOf[k]) == id { HexIsInjective(h.shellOf[k], h.shellOf[key]); }
    }
  }

  lemma ShellStays(h: History, h': History, id: string, r: ShellRecord)
    requires Owned(h, id, r) || Foreign(h, r)
    requires h'.entries == h.entries && h'.shellOf == h.shellOf && h'.tokens == h.tokens
    ensures Owned(h', id, r) || Foreign(h', r)
  {
    hide HexOf, Unhex;
  }

  lemma OwnKey(h: History, id: string, r: ShellRecord, k: Key)
    requires (Owned(h, id, r) || Foreign(h, r)) && Readable(h)
    requires k in h.entries && r.idempotencyKey == Some(Text(h, k))
    ensures KeyOf(h, id, r) == Some(k)
  {
    hide HexOf, Unhex;
  }

  lemma Forgets(s: ServerRecord, h: History, id: string)
    requires Consistent(s, h)
    ensures var s', h' := Forgotten(s, id), AfterForget(s, h, id);
            Consistent(s', h') && SameEntries(s, h, s', h') && RecordsStay(s, h, s', h')
  {
    hide HexOf, Unhex, Distinct, Known, Foreign, Owned;
    var s', h' := Forgotten(s, id), AfterForget(s, h, id);
    forall p | p in s'.pendingOpens ensures Known(h', p) { KnownStays(h, h', p); }
    forall i | i in s'.shells ensures Owned(h', i, s'.shells[i]) || Foreign(h', s'.shells[i]) {
      ShellStays(h, h', i, s.shells[i]);
    }
    forall k ensures IsJournaled(s', h', k) <==> IsJournaled(s, h, k) {}
    forall k ensures IsRecorded(s, h, k) ==> IsRecorded(s', h', k) || k in h'.removed {
      if IsRecorded(s, h, k) && HexOf(h.shellOf[k]) == id {
        OwnKey(h, id, s.shells[id], k);
      }
    }
    forall k | k in h.shellOf ensures Accounted(s', h', k) { assert Accounted(s, h, k); }
  }

  lemma KnownStays(h: History, h': History, p: PendingOpen)
    requires Known(h, p) && h'.entries == h.entries
    ensures Known(h', p)
  {
  }

  function AfterRotate(s: ServerRecord, h: History, id: string, token: seq<byte>): History {
    if id !in s.shells then h
    else
      var key := KeyOf(h, id, s.shells[id]);
      if key.Some? then Tokened(h, key.value, token) else h
  }

  lemma Rotates(s: ServerRecord, h: History, id: string, token: seq<byte>, nowMs: int)
    requires Consistent(s, h)
    ensures var s', h' := Rotated(s, id, token, nowMs), AfterRotate(s, h, id, token);
            Consistent(s', h') && SameEntries(s, h, s', h') && RecordsStay(s, h, s', h')
  {
    hide HexOf, Unhex, Distinct, Known, Foreign, Owned;
    var s', h' := Rotated(s, id, token, nowMs), AfterRotate(s, h, id, token);
    forall p | p in s'.pendingOpens ensures Known(h', p) { KnownStays(h, h', p); }
    forall i | i in s'.shells ensures Owned(h', i, s'.shells[i]) || Foreign(h', s'.shells[i]) {
      ShellRotated(s, h, id, token, nowMs, i);
    }
    forall k ensures IsJournaled(s', h', k) <==> IsJournaled(s, h, k) {}
    forall k ensures IsRecorded(s, h, k) ==> IsRecorded(s', h', k) {
      if IsRecorded(s, h, k) { RecordRotated(s, h, id, token, nowMs, k); }
    }
    forall k | k in h.shellOf ensures Accounted(s', h', k) { assert Accounted(s, h, k); }
  }

  lemma ShellRotated(s: ServerRecord, h: History, id: string, token: seq<byte>, nowMs: int, i: string)
    requires Consistent(s, h) && i in s.shells
    ensures var r, h' := Rotated(s, id, token, nowMs).shells[i], AfterRotate(s, h, id, token);
            Owned(h', i, r) || Foreign(h', r)
  {
    hide HexOf, Unhex, Distinct, Known;
    assert Owned(h, i, s.shells[i]) || Foreign(h, s.shells[i]);
  }

  lemma RecordRotated(s: ServerRecord, h: History, id: string, token: seq<byte>, nowMs: int, k: Key)
    requires Consistent(s, h) && IsRecorded(s, h, k)
    ensures IsRecorded(Rotated(s, id, token, nowMs), AfterRotate(s, h, id, token), k)
  {
    hide HexOf, Unhex, Distinct, Known;
    var own := HexOf(h.shellOf[k]);
    OwnKey(h, own, s.shells[own], k);
  }

  // ---- The client, the server and the environment, as one specification ----

  /** The stored record, what only an observer of client and server knows, and where the supervisor is. */
  datatype View = View(s: ServerRecord, h: History, phase: Phase)

  function Then(v: View, e: Event): View {
    match e
    case Open(name, key, saved) => AfterOpen(v, name, key, saved)
    case Answer(reply, newShell, token) => AfterAnswer(v, reply, newShell, token)
    case Record(nowMs, saved) => AfterRecord(v, nowMs, saved)
    case Drop(saved) => AfterDrop(v, saved)
    case Advance(saved) => AfterAdvance(v, saved)
    case Rotate(shell, token, nowMs, saved) =>
      if saved then v.(s := Rotated(v.s, shell, token, nowMs), h := AfterRotate(v.s, v.h, shell, token)) else v
    case Rename(shell, name, saved) =>
      if saved then v.(s := Renamed(v.s, shell, name), h := AfterRename(v.s, v.h, shell, name)) else v
    case Forget(shell, saved) =>
      if saved then v.(s := Forgotten(v.s, shell), h := AfterForget(v.s, v.h, shell)) else v
    case Reconnect => if v.phase.Idle? then v.(phase := Next(v.s.pendingOpens)) else v
    case Crash => View(RedactedServer(v.s), v.h, Idle)
  }

  /** `Open`: the request leaves only after the save of its key succeeded. */
  function AfterOpen(v: View, name: string, key: Key, saved: bool): View {
    if !v.phase.Idle? || !IsNew(v.s, v.h, key) || !saved then v
    else View(Journaled(v.s, HexOf(key), name), Asked(v.h, key, name), Requested(key, HexOf(key), []))
  }

  /**
   * The server opens the key's shell once, unless it refuses; the client hears of it, or loses the answer,
   * which for it is an error like a refusal. An answer with a shell given out before is no answer.
   */
  function AfterAnswer(v: View, reply: Reply, newShell: seq<byte>, token: seq<byte>): View {
    if !v.phase.Requested? then v
    else
      var key, text, rest := v.phase.key, v.phase.text, v.phase.rest;
      if reply.Refused? then View(v.s, Erring(v.h, key), Failed(key, text, rest))
      else if key !in v.h.shellOf && newShell in v.h.shellOf.Values then v
      else
        var h := if key in v.h.shellOf then v.h else WithShell(v.h, key, newShell);
        if reply.Lost? then View(v.s, Erring(h, key), Failed(key, text, rest))
        else View(v.s, h, Granted(key, text, h.shellOf[key], token, rest))
  }

  /** One save removes the journal entry and records the shell. */
  function AfterRecord(v: View, nowMs: int, saved: bool): View {
    if !v.phase.Granted? then v
    else
      if saved
      then View(Resolved(v.s, v.phase.text, HexOf(v.phase.shell), v.phase.token, nowMs),
                Tokened(v.h, v.phase.key, v.phase.token), Next(v.phase.rest))
      else v.(phase := Next(v.phase.rest))
  }

  /** After an error the entry is dropped, so that it is not retried forever. */
  function AfterDrop(v: View, saved: bool): View {
    if !v.phase.Failed? then v
    else View(if saved then Dropped(v.s, v.phase.text) else v.s, v.h, Next(v.phase.rest))
  }

  /** The next journaled open of a reconnect is requested again; one whose key is not 16 bytes is dropped. */
  function AfterAdvance(v: View, saved: bool): View {
    if !v.phase.Next? then v
    else if v.phase.rest == [] then v.(phase := Idle)
    else
      var entry, rest := v.phase.rest[0], v.phase.rest[1..];
      if Malformed(entry)
      then View(if saved then Dropped(v.s, entry.idempotencyKey) else v.s, v.h, Next(rest))
      else v.(phase := Requested(Unhex(entry.idempotencyKey).value, entry.idempotencyKey, rest))
  }

  function ViewOf(start: View, events: seq<Event>): View {
    if events == [] then start else Then(ViewOf(start, events[..|events| - 1]), events[|events| - 1])
  }

  // ---- What every step keeps ----

  /** The opens a reconnect still has to go through are journaled, and none of them is the one in hand. */
  ghost predicate Todo(s: ServerRecord, rest: seq<PendingOpen>) {
    Distinct(rest) && forall p :: p in rest ==> p in s.pendingOpens
  }

  ghost predicate InHand(s: ServerRecord, h: History, key: Key, text: string, rest: seq<PendingOpen>) {
    && IsJournaled(s, h, key) && text == Text(h, key) && Todo(s, rest)
    && forall p :: p in rest ==> p.idempotencyKey != text
  }

  ghost predicate PhaseOk(s: ServerRecord, h: History, phase: Phase) {
    match phase
    case Idle => true
    case Next(rest) => Todo(s, rest)
    case Requested(key, text, rest) => InHand(s, h, key, text, rest)
    case Granted(key, text, shell, _, rest) =>
      InHand(s, h, key, text, rest) && key in h.shellOf && shell == h.shellOf[key]
    case Failed(key, text, rest) => InHand(s, h, key, text, rest) && key in h.abandoned
  }

  ghost predicate Good(v: View) {
    Consistent(v.s, v.h) && PhaseOk(v.s, v.h, v.phase)
  }

  /** Nothing that was ever journaled silently disappears, and no key changes its shell. */
  ghost predicate Kept(s: ServerRecord, h: History, s': ServerRecord, h': History) {
    && (forall k :: IsJournaled(s, h, k) ==> IsJournaled(s', h', k) || IsRecorded(s', h', k) || k in h'.abandoned)
    && RecordsStay(s, h, s', h')
    && (forall k :: k in h.shellOf ==> k in h'.shellOf && h'.shellOf[k] == h.shellOf[k])
    && h.abandoned <= h'.abandoned && h.removed <= h'.removed
  }

  /** Finishing with the key in hand leaves the others to do. */
  lemma TodoStays(s: ServerRecord, h: History, key: Key, text: string, rest: seq<PendingOpen>, s': ServerRecord)
    requires InHand(s, h, key, text, rest) && s'.pendingOpens == Without(s.pendingOpens, text)
    ensures Todo(s', rest)
  {
    WithoutIs(s.pendingOpens, text);
  }

  lemma KeptWithout(s: ServerRecord, h: History, key: Key, s': ServerRecord, h': History)
    requires Readable(h) && key in h.entries && s'.pendingOpens == Without(s.pendingOpens, Text(h, key))
    requires h' == h.(tokens := h'.tokens)
    requires (IsRecorded(s', h', key) || key in h.abandoned) && RecordsStay(s, h, s', h')
    ensures Kept(s, h, s', h')
  {
    forall k | IsJournaled(s, h, k)
      ensures IsJournaled(s', h', k) || IsRecorded(s', h', k) || k in h'.abandoned
    {
      if k != key {
        OthersStay(s, h, key, k);
      }
    }
  }

  lemma SameKept(s: ServerRecord, s': ServerRecord, h: History)
    requires s'.pendingOpens == s.pendingOpens && s'.shells == s.shells
    ensures Kept(s, h, s', h) && (Consistent(s, h) ==> Consistent(s', h))
  {
    hide HexOf, Unhex, Distinct, Known, Owned, Foreign;
    assert forall k :: IsJournaled(s', h, k) == IsJournaled(s, h, k) && IsRecorded(s', h, k) == IsRecorded(s, h, k);
  }

  /** With the journal untouched the client can go on from where it is. */
  lemma PhaseStays(s: ServerRecord, h: History, s': ServerRecord, h': History, phase: Phase)
    requires PhaseOk(s, h, phase) && SameEntries(s, h, s', h') && RecordsStay(s, h, s', h')
    requires h'.shellOf == h.shellOf && h'.abandoned == h.abandoned && h.removed <= h'.removed
    ensures PhaseOk(s', h', phase) && Kept(s, h, s', h')
  {
  }

  /** Every step keeps the account, and nothing silently disappears in it. */
  lemma StepIsGood(v: View, e: Event)
    requires Good(v)
    ensures Good(Then(v, e)) && Kept(v.s, v.h, Then(v, e).s, Then(v, e).h)
  {
    hide Consistent, Kept, PhaseOk, SameEntries, RecordsStay, AfterRename, AfterForget, AfterRotate;
    SameKept(v.s, v.s, v.h);
    match e
    case Open(name, key, saved) => OpenIsGood(v, name, key, saved);
    case Answer(reply, newShell, token) => AnswerIsGood(v, reply, newShell, token);
    case Record(nowMs, saved) => RecordIsGood(v, nowMs, saved);
    case Drop(saved) => DropIsGood(v, saved);
    case Advance(saved) => AdvanceIsGood(v, saved);
    case Rotate(shell, token, nowMs, saved) => RotateIsGood(v, shell, token, nowMs, saved);
    case Rename(shell, name, saved) => RenameIsGood(v, shell, name, saved);
    case Forget(shell, saved) => ForgetIsGood(v, shell, saved);
    case Reconnect => ReconnectIsGood(v);
    case Crash =>
      SameKept(v.s, RedactedServer(v.s), v.h);
      IdleIsGood(RedactedServer(v.s), v.h);
  }

  lemma IdleIsGood(s: ServerRecord, h: History)
    ensures PhaseOk(s, h, Idle)
  {
  }

  lemma OpenIsGood(v: View, name: string, key: Key, saved: bool)
    requires Good(v)
    ensures var v' := AfterOpen(v, name, key, saved); Good(v') && Kept(v.s, v.h, v'.s, v'.h)
  {
    hide Consistent, HexOf, RecordsStay;
    SameKept(v.s, v.s, v.h);
    if v.phase.Idle? && IsNew(v.s, v.h, key) {
      Journals(v.s, v.h, key, name);
    }
  }

  lemma AnswerIsGood(v: View, reply: Reply, newShell: seq<byte>, token: seq<byte>)
    requires Good(v)
    ensures var v' := AfterAnswer(v, reply, newShell, token); Good(v') && Kept(v.s, v.h, v'.s, v'.h)
  {
    hide Consistent, HexOf, Distinct;
    if v.phase.Requested? {
      var key := v.phase.key;
      var opens := !reply.Refused? && key !in v.h.shellOf && newShell !in v.h.shellOf.Values;
      if opens { Opens(v.s, v.h, key, newShell); }
      Abandons(v.s, if opens then WithShell(v.h, key, newShell) else v.h, key);
    }
  }

  lemma RecordIsGood(v: View, nowMs: int, saved: bool)
    requires Good(v)
    ensures var v' := AfterRecord(v, nowMs, saved); Good(v') && Kept(v.s, v.h, v'.s, v'.h)
  {
    hide HexOf, Distinct, Without, RecordsStay, IsRecorded, Accounted, Known, Owned, Foreign, Readable;
    SameKept(v.s, v.s, v.h);
    if v.phase.Granted? {
      var key, text := v.phase.key, v.phase.text;
      Resolves(v.s, v.h, key, v.phase.token, nowMs);
      var s' := Resolved(v.s, text, HexOf(v.phase.shell), v.phase.token, nowMs);
      TodoStays(v.s, v.h, key, text, v.phase.rest, s');
      KeptWithout(v.s, v.h, key, s', Tokened(v.h, key, v.phase.token));
    }
  }

  lemma DropIsGood(v: View, saved: bool)
    requires Good(v)
    ensures var v' := AfterDrop(v, saved); Good(v') && Kept(v.s, v.h, v'.s, v'.h)
  {
    hide HexOf, Distinct, Without, Known, Owned, Foreign, Readable;
    SameKept(v.s, v.s, v.h);
    if v.phase.Failed? {
      var key, text := v.phase.key, v.phase.text;
      Drops(v.s, v.h, key);
      TodoStays(v.s, v.h, key, text, v.phase.rest, Dropped(v.s, text));
      KeptWithout(v.s, v.h, key, Dropped(v.s, text), v.h);
    }
  }

  lemma AdvanceIsGood(v: View, saved: bool)
    requires Good(v)
    ensures var v' := AfterAdvance(v, saved); Good(v') && Kept(v.s, v.h, v'.s, v'.h)
  {
    hide HexOf, Unhex, Without, Owned, Foreign, Accounted, RecordsStay;
    SameKept(v.s, v.s, v.h);
    if v.phase.Next? && v.phase.rest != [] {
      var entry, rest := v.phase.rest[0], v.phase.rest[1..];
      assert Known(v.h, entry) && v.phase.rest == [entry] + rest;
      if Malformed(entry) {
        DropsMalformed(v.s, v.h, entry);
        WithoutIs(v.s.pendingOpens, entry.idempotencyKey);
      }
    }
  }

  lemma RotateIsGood(v: View, shell: string, token: seq<byte>, nowMs: int, saved: bool)
    requires Good(v)
    ensures var v' := Then(v, Rotate(shell, token, nowMs, saved)); Good(v') && Kept(v.s, v.h, v'.s, v'.h)
  {
    hide Consistent, PhaseOk, SameEntries, RecordsStay, Kept, HexOf, Unhex;
    SameKept(v.s, v.s, v.h);
    Rotates(v.s, v.h, shell, token, nowMs);
    PhaseStays(v.s, v.h, Rotated(v.s, shell, token, nowMs), AfterRotate(v.s, v.h, shell, token), v.phase);
  }

  lemma RenameIsGood(v: View, shell: string, name: string, saved: bool)
    requires Good(v)
    ensures var v' := Then(v, Rename(shell, name, saved)); Good(v') && Kept(v.s, v.h, v'.s, v'.h)
  {
    hide Consistent, PhaseOk, SameEntries, RecordsStay, Kept, HexOf, Unhex;
    SameKept(v.s, v.s, v.h);
    Renames(v.s, v.h, shell, name);
    PhaseStays(v.s, v.h, Renamed(v.s, shell, name), AfterRename(v.s, v.h, shell, name), v.phase);
  }

  lemma ForgetIsGood(v: View, shell: string, saved: bool)
    requires Good(v)
    ensures var v' := Then(v, Forget(shell, saved)); Good(v') && Kept(v.s, v.h, v'.s, v'.h)
  {
    hide Consistent, PhaseOk, SameEntries, RecordsStay, Kept, HexOf, Unhex;
    SameKept(v.s, v.s, v.h);
    Forgets(v.s, v.h, shell);
    PhaseStays(v.s, v.h, Forgotten(v.s, shell), AfterForget(v.s, v.h, shell), v.phase);
  }

  lemma ReconnectIsGood(v: View)
    requires Good(v)
    ensures Good(Then(v, Reconnect))
  {
    hide HexOf, Unhex, Known, Owned, Foreign, Accounted;
  }

  // ---- Whole runs of the specification ----

  lemma {:induction false} RunIsGood(start: View, events: seq<Event>)
    requires Good(start)
    ensures Good(ViewOf(start, events))
  {
    hide Good, Then;
    if events != [] {
      RunIsGood(start, events[..|events| - 1]);
      StepIsGood(ViewOf(start, events[..|events| - 1]), events[|events| - 1]);
    }
  }

  /** The key is abandoned by an answer that is an error for the client while its request is out. */
  predicate Errs(v: View, e: Event, k: Key) {
    && v.phase.Requested? && v.phase.key == k && e.Answer?
    && (e.reply.Refused? || (e.reply.Lost? && (k in v.h.shellOf || e.newShell !in v.h.shellOf.Values)))
  }

  /** The key's recorded shell is removed. */
  predicate Removes(v: View, e: Event, k: Key) {
    e.Forget? && e.saved && e.shell in v.s.shells && KeyOf(v.h, e.shell, v.s.shells[e.shell]) == Some(k)
  }

  /** The server opens a shell for the key, whatever the client hears of it. */
  predicate OpensShell(v: View, e: Event, k: Key) {
    && v.phase.Requested? && v.phase.key == k && e.Answer? && !e.reply.Refused?
    && k !in v.h.shellOf && e.newShell !in v.h.shellOf.Values
  }

  /** At some point of the run the event did this to the key. */
  ghost predicate Happened(start: View, events: seq<Event>, k: Key, what: (View, Event, Key) -> bool) {
    exists i :: 0 <= i < |events| && what(ViewOf(start, events[..i]), events[i], k)
  }

  lemma NothingHappened(start: View, k: Key, what: (View, Event, Key) -> bool)
    ensures !Happened(start, [], k, what)
  {
  }

  lemma HappenedLast(start: View, events: seq<Event>, k: Key, what: (View, Event, Key) -> bool)
    requires events != []
    ensures var before, e := events[..|events| - 1], events[|events| - 1];
            Happened(start, events, k, what) <==>
            (Happened(start, before, k, what) || what(ViewOf(start, before), e, k))
  {
    hide ViewOf;
    var n := |events| - 1;
    var before := events[..n];
    assert forall i :: 0 <= i < n ==> before[..i] == events[..i] && before[i] == events[i];
    if Happened(start, before, k, what) {
      var i :| 0 <= i < n && what(ViewOf(start, before[..i]), before[i], k);
      assert what(ViewOf(start, events[..i]), events[i], k);
    }
    if Happened(start, events, k, what) {
      var i :| 0 <= i <= n && what(ViewOf(start, events[..i]), events[i], k);
      assert i < n ==> what(ViewOf(start, before[..i]), before[i], k);
    }
  }

  lemma StepEscapes(v: View, e: Event, k: Key)
    ensures k in Then(v, e).h.abandoned <==> k in v.h.abandoned || Errs(v, e, k)
    ensures k in Then(v, e).h.removed <==> k in v.h.removed || Removes(v, e, k)
    ensures k in Then(v, e).h.shellOf <==> k in v.h.shellOf || OpensShell(v, e, k)
    ensures k in v.h.shellOf ==> Then(v, e).h.shellOf[k] == v.h.shellOf[k]
    ensures OpensShell(v, e, k) ==> Then(v, e).h.shellOf[k] == e.newShell
  {
    hide Owned, HexOf, Unhex, IsNew;
  }

  /**
   * In every run a key counts as abandoned exactly if it did at the start or an error answered its request, as
   * removed exactly if its recorded shell was removed, and has a shell exactly if the server opened one.
   */
  lemma {:induction false} EscapesHaveCauses(start: View, events: seq<Event>, k: Key)
    ensures var h := ViewOf(start, events).h;
            && (k in h.abandoned <==> k in start.h.abandoned || Happened(start, events, k, Errs))
            && (k in h.removed <==> k in start.h.removed || Happened(start, events, k, Removes))
            && (k in h.shellOf <==> k in start.h.shellOf || Happened(start, events, k, OpensShell))
  {
    hide Then, Errs, Removes, OpensShell, Happened;
    if events == [] {
      NothingHappened(start, k, Errs);
      NothingHappened(start, k, Removes);
      NothingHappened(start, k, OpensShell);
    } else {
      var before, e := events[..|events| - 1], events[|events| - 1];
      EscapesHaveCauses(start, before, k);
      StepEscapes(ViewOf(start, before), e, k);
      HappenedLast(start, events, k, Errs);
      HappenedLast(start, events, k, Removes);
      HappenedLast(start, events, k, OpensShell);
    }
  }

  // ---- Which token and which name a key has, from the log ----

  /** The event concerns the recorded shell of the key and is saved. */
  predicate Touches(v: View, shell: string, saved: bool, k: Key) {
    saved && shell in v.s.shells && KeyOf(v.h, shell, v.s.shells[shell]) == Some(k)
  }

  predicate Records(v: View, e: Event, k: Key) {
    e.Record? && e.saved && v.phase.Granted? && v.phase.key == k
  }

  predicate Asks(v: View, e: Event, k: Key) {
    e.Open? && e.saved && e.key == k && v.phase.Idle? && IsNew(v.s, v.h, k)
  }

  /** The token of the last answer that granted a request. */
  function AnsweredToken(start: View, events: seq<Event>): seq<byte> {
    if events == [] then (if start.phase.Granted? then start.phase.token else [])
    else
      var before, e := events[..|events| - 1], events[|events| - 1];
      if e.Answer? && e.reply.Accepted? && ViewOf(start, before).phase.Requested? then e.token
      else AnsweredToken(start, before)
  }

  function TokenIn(h: History, k: Key): Option<seq<byte>> {
    if k in h.tokens then Some(h.tokens[k]) else None
  }

  /** The last token of a key's shell: of the answer it was recorded from, or of a later attach. */
  function TokenTold(start: View, events: seq<Event>, k: Key): Option<seq<byte>> {
    if events == [] then TokenIn(start.h, k)
    else
      var before, e := events[..|events| - 1], events[|events| - 1];
      var v := ViewOf(start, before);
      if Records(v, e, k) then Some(AnsweredToken(start, before))
      else if e.Rotate? && Touches(v, e.shell, e.saved, k) then Some(e.token)
      else TokenTold(start, before, k)
  }

  function NameIn(h: History, k: Key): Option<string> {
    if k in h.entries then Some(h.entries[k].name) else None
  }

  /** The last name of a key: the one it was asked for, or the one its shell was renamed to. */
  function NameTold(start: View, events: seq<Event>, k: Key): Option<string> {
    if events == [] then NameIn(start.h, k)
    else
      var before, e := events[..|events| - 1], events[|events| - 1];
      var v := ViewOf(start, before);
      if Asks(v, e, k) || (e.Rename? && Touches(v, e.shell, e.saved, k)) then Some(e.name)
      else NameTold(start, before, k)
  }

  lemma StepTells(v: View, e: Event, k: Key)
    ensures TokenIn(Then(v, e).h, k)
         == (if Records(v, e, k) then Some(v.phase.token)
             else if e.Rotate? && Touches(v, e.shell, e.saved, k) then Some(e.token)
             else TokenIn(v.h, k))
    ensures NameIn(Then(v, e).h, k)
         == (if Asks(v, e, k) || (e.Rename? && Touches(v, e.shell, e.saved, k)) then Some(e.name) else NameIn(v.h, k))
  {
    hide HexOf, Unhex, IsNew;
  }

  /** A request is granted by its answer, with the key's shell and the answer's token, and stays so until recorded. */
  lemma StepGrants(v: View, e: Event)
    ensures Then(v, e).phase.Granted? ==>
              if v.phase.Granted? then Then(v, e).phase == v.phase
              else && v.phase.Requested? && e.Answer? && e.reply.Accepted?
                   && v.phase.key in Then(v, e).h.shellOf
                   && Then(v, e).phase == Granted(v.phase.key, v.phase.text, Then(v, e).h.shellOf[v.phase.key],
                                                  e.token, v.phase.rest)
  {
    hide HexOf, Unhex, IsNew, Owned;
  }

  /** In every run tokens and names are those that the log tells. */
  lemma {:induction false} TokensAreTold(start: View, events: seq<Event>, k: Key)
    ensures var v := ViewOf(start, events);
            && TokenIn(v.h, k) == TokenTold(start, events, k) && NameIn(v.h, k) == NameTold(start, events, k)
            && (v.phase.Granted? ==> v.phase.token == AnsweredToken(start, events))
  {
    hide Then, TokenIn, NameIn, Asks, Touches;
    if events != [] {
      var before, e := events[..|events| - 1], events[|events| - 1];
      TokensAreTold(start, before, k);
      StepTells(ViewOf(start, before), e, k);
      StepGrants(ViewOf(start, before), e);
    }
  }

  // ---- The client as it runs ----

  class Session {
    const server: string
    var store: Store
    var phase: Phase
    /** Which only an observer of client and server knows. */
    var history: History

    ghost predicate Valid()
      reads this, store
    {
      Linked() && Good(Here())
    }

    /** The server's record exists, and the file is memory without the unkept logins. */
    ghost predicate Linked()
      reads this`store, store
    {
      store.Valid() && store.Exact() && server in store.data.servers
    }

    ghost function Here(): View
      reads this, store
      requires server in store.data.servers
    {
      View(store.data.servers[server], history, phase)
    }

    constructor (server: string, store: Store, history: History)
      requires store.Valid() && store.Exact() && server in store.data.servers
      requires Consistent(store.data.servers[server], history)
      ensures this.server == server && this.store == store && Valid()
      ensures Here() == View(store.data.servers[server], history, Idle)
    {
      this.server, this.store, this.history, phase := server, store, history, Idle;
    }

    /** `Open`: the key is in the file before the request leaves. */
    method OnOpen(name: string, key: Key, saved: bool)
      requires Valid()
      modifies this`phase, this`history, store
      ensures Valid() && Here() == Then(old(Here()), Open(name, key, saved))
      ensures phase.Requested? && old(phase).Idle? ==> IsJournaled(store.file.value.servers[server], history, key)
    {
      hide Good, HexOf, IsNew;
      StepIsGood(Here(), Open(name, key, saved));
      if !phase.Idle? || !IsNew(store.data.servers[server], history, key) { return; }
      var hex := HexOf(key);
      var ok := store.MutateServer(server, s => Journaled(s, hex, name), saved);
      if ok {
        history := Asked(history, key, name);
        phase := Requested(key, hex, []);
      }
    }

    method OnAnswer(reply: Reply, newShell: seq<byte>, token: seq<byte>)
      requires Valid()
      modifies this`phase, this`history
      ensures Valid() && Here() == Then(old(Here()), Answer(reply, newShell, token))
    {
      hide Good;
      StepIsGood(Here(), Answer(reply, newShell, token));
      if !phase.Requested? { return; }
      var key, text, rest := phase.key, phase.text, phase.rest;
      if !reply.Refused? && key !in history.shellOf {
        if newShell in history.shellOf.Values { return; }
        history := WithShell(history, key, newShell);
      }
      if reply.Accepted? {
        phase := Granted(key, text, history.shellOf[key], token, rest);
      } else {
        history := Erring(history, key);
        phase := Failed(key, text, rest);
      }
    }

    method OnRecord(nowMs: int, saved: bool)
      requires Valid()
      modifies this`phase, this`history, store
      ensures Valid() && Here() == Then(old(Here()), Record(nowMs, saved))
    {
      hide Good, HexOf, Without;
      StepIsGood(Here(), Record(nowMs, saved));
      if !phase.Granted? { return; }
      var text, id, token := phase.text, HexOf(phase.shell), phase.token;
      var ok := store.MutateServer(server, s => Resolved(s, text, id, token, nowMs), saved);
      if ok { history := Tokened(history, phase.key, token); }
      phase := Next(phase.rest);
    }

    method OnDrop(saved: bool)
      requires Valid()
      modifies this`phase, store
      ensures Valid() && Here() == Then(old(Here()), Drop(saved))
    {
      hide Good, Without;
      StepIsGood(Here(), Drop(saved));
      if !phase.Failed? { return; }
      var text := phase.text;
      var _ := store.MutateServer(server, s => Dropped(s, text), saved);
      phase := Next(phase.rest);
    }

    method OnAdvance(saved: bool)
      requires Valid()
      modifies this`phase, store
      ensures Valid() && Here() == Then(old(Here()), Advance(saved))
    {
      hide Good, Unhex, Without;
      StepIsGood(Here(), Advance(saved));
      if !phase.Next? { return; }
      if phase.rest == [] { phase := Idle; return; }
      var entry, rest := phase.rest[0], phase.rest[1..];
      var key := Unhex(entry.idempotencyKey);
      if key.None? || |key.value| != 16 {
        var _ := store.MutateServer(server, s => Dropped(s, entry.idempotencyKey), saved);
        phase := Next(rest);
        return;
      }
      phase := Requested(key.value, entry.idempotencyKey, rest);
    }

    /** A shell's token rotated, its name changed, or it was terminated, gone or dismissed, at any time. */
    method OnRotate(shell: string, token: seq<byte>, nowMs: int, saved: bool)
      requires Valid()
      modifies this`history, store
      ensures Valid() && Here() == Then(old(Here()), Rotate(shell, token, nowMs, saved))
    {
      hide Good, AfterRotate;
      StepIsGood(Here(), Rotate(shell, token, nowMs, saved));
      var after := AfterRotate(store.data.servers[server], history, shell, token);
      var ok := store.MutateServer(server, s => Rotated(s, shell, token, nowMs), saved);
      if ok { history := after; }
    }

    method OnRename(shell: string, name: string, saved: bool)
      requires Valid()
      modifies this`history, store
      ensures Valid() && Here() == Then(old(Here()), Rename(shell, name, saved))
    {
      hide Good, AfterRename;
      StepIsGood(Here(), Rename(shell, name, saved));
      var after := AfterRename(store.data.servers[server], history, shell, name);
      var ok := store.MutateServer(server, s => Renamed(s, shell, name), saved);
      if ok { history := after; }
    }

    method OnForget(shell: string, saved: bool)
      requires Valid()
      modifies this`history, store
      ensures Valid() && Here() == Then(old(Here()), Forget(shell, saved))
    {
      hide Good, AfterForget;
      StepIsGood(Here(), Forget(shell, saved));
      var after := AfterForget(store.data.servers[server], history, shell);
      var ok := store.MutateServer(server, s => Forgotten(s, shell), saved);
      if ok { history := after; }
    }

    method OnReconnect()
      requires Valid()
      modifies this`phase
      ensures Valid() && Here() == Then(old(Here()), Reconnect)
    {
      hide Good;
      StepIsGood(Here(), Reconnect);
      if phase.Idle? { phase := Next(store.data.servers[server].pendingOpens); }
    }

    /** The process dies at any point and starts again from the file. */
    method OnCrash()
      requires Valid()
      modifies this`phase, this`store
      ensures Valid() && fresh(store) && Here() == Then(old(Here()), Crash)
    {
      hide Good;
      StepIsGood(Here(), Crash);
      RedactTwice(store.data);
      var reloaded := Load(store.file, true);
      store := reloaded.value;
      phase := Idle;
    }

    /** One step of the client, the server or the environment. */
    method Step(event: Event)
      requires Valid()
      modifies this, store
      ensures Valid() && (store == old(store) || fresh(store))
      ensures Here() == Then(old(Here()), event)
      ensures Kept(old(store.data.servers[server]), old(history), store.data.servers[server], history)
    {
      hide Good, Then, Kept;
      StepIsGood(Here(), event);
      match event
      case Open(name, key, saved) => OnOpen(name, key, saved);
      case Answer(reply, newShell, token) => OnAnswer(reply, newShell, token);
      case Record(nowMs, saved) => OnRecord(nowMs, saved);
      case Drop(saved) => OnDrop(saved);
      case Advance(saved) => OnAdvance(saved);
      case Rotate(shell, token, nowMs, saved) => OnRotate(shell, token, nowMs, saved);
      case Rename(shell, name, saved) => OnRename(shell, name, saved);
      case Forget(shell, saved) => OnForget(shell, saved);
      case Reconnect => OnReconnect();
      case Crash => OnCrash();
    }

    /**
     * `resolve_pending_opens`, whatever the server answers and whichever saves fail: each entry is requested once, or
     * is malformed, and afterwards exactly those whose save failed are left in the journal, in order. If none failed,
     * every shell opened under a key that met no error is recorded; and only an error answer makes a key meet one.
     */
    method ResolvePendingOpens(outcomes: seq<Outcome>, nowMs: int)
      requires Valid() && phase.Idle?
      requires |outcomes| == |store.data.servers[server].pendingOpens|
      requires forall i, j :: 0 <= i < j < |outcomes| ==> outcomes[i].newShell != outcomes[j].newShell
      requires forall i :: 0 <= i < |outcomes| ==> outcomes[i].newShell !in history.shellOf.Values
      modifies this`phase, this`history, store
      ensures Valid() && phase.Idle?
      ensures store.data.servers[server].pendingOpens == Unsaved(old(store.data.servers[server].pendingOpens), outcomes)
      ensures Follows(old(history), history)
      ensures (forall i :: 0 <= i < |outcomes| ==> outcomes[i].reply.Accepted?) ==>
                history.abandoned == old(history).abandoned
      ensures (forall i :: 0 <= i < |outcomes| ==> outcomes[i].saved) ==>
                && store.data.servers[server].pendingOpens == []
                && forall k :: k in history.shellOf ==>
                     || k in history.abandoned || k in history.removed
                     || IsRecorded(store.data.servers[server], history, k)
    {
      hide Consistent, PhaseOk, Then, Unsaved;
      OnReconnect();
      ReconnectStarts(old(Here()));
      ghost var i, kept, opens := 0, [], phase.rest;
      assert outcomes[0..] == outcomes && [] + phase.rest == phase.rest;
      AfterNothing(Unsaved(phase.rest, outcomes));
      while phase.rest != []
        invariant Valid() && phase.Next? && |phase.rest| + i == |outcomes|
        invariant store.data.servers[server].pendingOpens == kept + phase.rest
        invariant Unsaved(opens, outcomes) == kept + Unsaved(phase.rest, outcomes[i..])
        invariant forall j :: i <= j < |outcomes| ==> outcomes[j].newShell !in history.shellOf.Values
        invariant Follows(old(history), history)
        invariant (forall j :: 0 <= j < i ==> outcomes[j].reply.Accepted?) ==>
                    history.abandoned == old(history).abandoned
        decreases |phase.rest|
      {
        var o := outcomes[|outcomes| - |phase.rest|];
        UnsavedNext(kept, phase.rest, outcomes[i..]);
        assert outcomes[i..][1..] == outcomes[i + 1..];
        kept := ResolveNext(o, kept, nowMs);
        i := i + 1;
      }
      ghost var last := Here();
      OnAdvance(true);
      AdvanceEnds(last);
      NoneLeft(kept, outcomes[i..]);
      if forall i :: 0 <= i < |outcomes| ==> outcomes[i].saved {
        AllSaved(opens, outcomes);
        EmptyJournal(store.data.servers[server], history);
      }
    }

    /** One round of the loop: the next entry is requested and recorded or dropped, or was malformed. */
    method ResolveNext(o: Outcome, ghost kept: seq<PendingOpen>, nowMs: int) returns (ghost left: seq<PendingOpen>)
      requires Valid() && phase.Next? && phase.rest != []
      requires store.data.servers[server].pendingOpens == kept + phase.rest
      requires o.newShell !in history.shellOf.Values
      modifies this`phase, this`history, store
      ensures Valid() && phase == Next(old(phase).rest[1..])
      ensures left == kept + if o.saved then [] else [old(phase).rest[0]]
      ensures store.data.servers[server].pendingOpens == left + phase.rest
      ensures Follows(old(history), history) && history.shellOf.Values <= old(history).shellOf.Values + {o.newShell}
      ensures o.reply.Accepted? ==> history.abandoned == old(history).abandoned
    {
      hide Good, Then, Follows;
      left := kept + if o.saved then [] else [phase.rest[0]];
      Attempts(Here(), kept, o, nowMs);
      OnAdvance(o.saved);
      if phase.Requested? {
        OnAnswer(o.reply, o.newShell, o.token);
        if phase.Granted? { OnRecord(nowMs, o.saved); } else { OnDrop(o.saved); }
      }
    }
  }

  /** What the server answers to one request of a reconnect, and whether the save after it succeeds. */
  datatype Outcome = Outcome(reply: Reply, newShell: seq<byte>, token: seq<byte>, saved: bool)

  /** The entries whose save failed. */
  function Unsaved(opens: seq<PendingOpen>, outcomes: seq<Outcome>): seq<PendingOpen>
    requires |outcomes| == |opens|
  {
    if opens == [] then []
    else (if outcomes[0].saved then [] else [opens[0]]) + Unsaved(opens[1..], outcomes[1..])
  }

  lemma UnsavedNext(kept: seq<PendingOpen>, opens: seq<PendingOpen>, outcomes: seq<Outcome>)
    requires |outcomes| == |opens| > 0
    ensures kept + Unsaved(opens, outcomes)
         == (kept + if outcomes[0].saved then [] else [opens[0]]) + Unsaved(opens[1..], outcomes[1..])
  {
  }

  lemma NoneLeft(kept: seq<PendingOpen>, outcomes: seq<Outcome>)
    requires outcomes == []
    ensures kept + Unsaved([], outcomes) == kept && kept + [] == kept
  {
  }

  lemma {:induction false} AllSaved(opens: seq<PendingOpen>, outcomes: seq<Outcome>)
    requires |outcomes| == |opens| && forall i :: 0 <= i < |outcomes| ==> outcomes[i].saved
    ensures Unsaved(opens, outcomes) == []
  {
    if opens != [] { AllSaved(opens[1..], outcomes[1..]); }
  }

  /** Nothing is forgotten, and no name, removal or opened shell changes. */
  ghost predicate Follows(h: History, h': History) {
    && h' == h.(shellOf := h'.shellOf, tokens := h'.tokens, abandoned := h'.abandoned)
    && h.abandoned <= h'.abandoned
    && forall k :: k in h.shellOf ==> k in h'.shellOf && h'.shellOf[k] == h.shellOf[k]
  }

  lemma ReconnectStarts(v: View)
    requires v.phase.Idle?
    ensures Then(v, Reconnect) == v.(phase := Next(v.s.pendingOpens))
  {
  }

  lemma AdvanceEnds(v: View)
    requires v.phase.Next? && v.phase.rest == []
    ensures Then(v, Advance(true)) == v.(phase := Idle)
  {
  }

  lemma EmptyJournal(s: ServerRecord, h: History)
    requires Consistent(s, h) && s.pendingOpens == []
    ensures forall k :: k in h.shellOf ==> k in h.abandoned || k in h.removed || IsRecorded(s, h, k)
  {
    assert forall k :: k in h.shellOf ==> Accounted(s, h, k);
  }

  /** One round of a reconnect. */
  function Attempted(v: View, o: Outcome, nowMs: int): View {
    var asked := Then(v, Advance(o.saved));
    if asked.phase.Requested? then Settled(asked, o, nowMs) else asked
  }

  function Settled(v: View, o: Outcome, nowMs: int): View {
    var answered := Then(v, Answer(o.reply, o.newShell, o.token));
    Then(answered, if answered.phase.Granted? then Record(nowMs, o.saved) else Drop(o.saved))
  }

  /** A request that is out ends with its entry gone, if the save succeeds, whatever the answer was. */
  lemma Settles(v: View, o: Outcome, nowMs: int)
    requires v.phase.Requested? && o.newShell !in v.h.shellOf.Values
    ensures var v' := Settled(v, o, nowMs);
            && v'.phase == Next(v.phase.rest)
            && v'.s.pendingOpens == (if o.saved then Without(v.s.pendingOpens, v.phase.text) else v.s.pendingOpens)
            && Follows(v.h, v'.h) && v'.h.shellOf.Values <= v.h.shellOf.Values + {o.newShell}
            && (o.reply.Accepted? ==> v'.h.abandoned == v.h.abandoned)
  {
    hide HexOf, Without, NameOf;
  }

  /** The entry leaves the journal exactly if the save succeeds, whatever the answer was. */
  lemma Attempts(v: View, kept: seq<PendingOpen>, o: Outcome, nowMs: int)
    requires Good(v) && v.phase.Next? && v.phase.rest != [] && v.s.pendingOpens == kept + v.phase.rest
    requires o.newShell !in v.h.shellOf.Values
    ensures var v' := Attempted(v, o, nowMs);
            && v'.phase == Next(v.phase.rest[1..])
            && v'.s.pendingOpens == (kept + if o.saved then [] else [v.phase.rest[0]]) + v.phase.rest[1..]
            && Follows(v.h, v'.h) && v'.h.shellOf.Values <= v.h.shellOf.Values + {o.newShell}
            && (o.reply.Accepted? ==> v'.h.abandoned == v.h.abandoned)
  {
    hide HexOf, Unhex, Known, Owned, Foreign, Accounted, NameOf, Without, Settled;
    var rest := v.phase.rest;
    var asked := Then(v, Advance(o.saved));
    if asked.phase.Requested? { Settles(asked, o, nowMs); }
    WithoutMiddle(kept, rest);
    assert kept + [rest[0]] + rest[1..] == kept + rest;
    assert kept + [] + rest[1..] == kept + rest[1..];
  }

  lemma {:induction false} WithoutMiddle(kept: seq<PendingOpen>, rest: seq<PendingOpen>)
    requires rest != [] && Distinct(kept + rest)
    ensures Without(kept + rest, rest[0].idempotencyKey) == kept + rest[1..]
  {
    if kept == [] {
      assert kept + rest == rest && kept + rest[1..] == rest[1..];
      WithoutHead(rest);
    } else {
      assert (kept + rest)[1..] == kept[1..] + rest && rest[0] in (kept + rest)[1..];
      WithoutMiddle(kept[1..], rest);
      assert [kept[0]] + (kept[1..] + rest[1..]) == kept + rest[1..];
    }
  }

  lemma {:induction false} WithoutAbsent(opens: seq<PendingOpen>, key: string)
    requires forall p :: p in opens ==> p.idempotencyKey != key
    ensures Without(opens, key) == opens
  {
    if opens != [] {
      assert opens == [opens[0]] + opens[1..];
      WithoutAbsent(opens[1..], key);
    }
  }

  lemma WithoutHead(opens: seq<PendingOpen>)
    requires Distinct(opens) && opens != []
    ensures Without(opens, opens[0].idempotencyKey) == opens[1..]
  {
    WithoutAbsent(opens[1..], opens[0].idempotencyKey);
    assert [] + opens[1..] == opens[1..];
  }

  predicate RecordedAt(s: ServerRecord, h: History, k: Key, id: string) {
    id in s.shells && k in h.entries && s.shells[id].idempotencyKey == Some(Text(h, k))
  }

  /** No key is recorded with two shells. */
  lemma RecordedOnce(s: ServerRecord, h: History, k: Key, i: string, j: string)
    requires Consistent(s, h) && RecordedAt(s, h, k, i) && RecordedAt(s, h, k, j)
    ensures i == j
  {
    hide HexOf, Unhex, Distinct, Known;
    assert Owned(h, i, s.shells[i]) || Foreign(h, s.shells[i]);
    assert Owned(h, j, s.shells[j]) || Foreign(h, s.shells[j]);
  }

  // ---- Where a run may start ----

  /** The entries of the well-formed keys of a journal. */
  function EntriesOf(opens: seq<PendingOpen>): map<Key, PendingOpen> {
    if opens == [] then map[]
    else if Malformed(opens[0]) then EntriesOf(opens[1..])
    else EntriesOf(opens[1..])[Unhex(opens[0].idempotencyKey).value := opens[0]]
  }

  /** No two well-formed entries have texts of the same key. */
  ghost predicate OneEach(opens: seq<PendingOpen>) {
    forall p, q :: p in opens && q in opens && !Malformed(p) && Unhex(p.idempotencyKey) == Unhex(q.idempotencyKey) ==>
      p == q
  }

  lemma {:induction false} EntriesAreOpens(opens: seq<PendingOpen>)
    requires OneEach(opens)
    ensures forall k :: k in EntriesOf(opens) ==>
              var p := EntriesOf(opens)[k]; p in opens && |k| == 16 && Unhex(p.idempotencyKey) == Some(k)
    ensures forall p :: p in opens && !Malformed(p) ==>
              var k := Unhex(p.idempotencyKey).value; k in EntriesOf(opens) && EntriesOf(opens)[k] == p
  {
    hide Unhex;
    if opens != [] {
      EntriesAreOpens(opens[1..]);
      assert opens == [opens[0]] + opens[1..];
    }
  }

  /**
   * Every record is a starting point: whatever shells it holds, and whatever journal an earlier process left,
   * as long as no key occurs twice. Nothing is known yet of what the server opened for the journaled keys.
   */
  lemma EveryRecordStarts(s: ServerRecord)
    requires Distinct(s.pendingOpens) && OneEach(s.pendingOpens)
    requires forall p, id :: p in s.pendingOpens && id in s.shells ==>
               s.shells[id].idempotencyKey != Some(p.idempotencyKey)
    ensures Consistent(s, History(map[], EntriesOf(s.pendingOpens), {}, {}, map[]))
  {
    hide HexOf, Unhex, Distinct, EntriesOf;
    EntriesAreOpens(s.pendingOpens);
  }

  /**
   * Every run, from any record and history that fit together: opens, answers, saves that fail, shells renamed,
   * removed and attached again, crashes between any two steps and reconnects, in any order. Record, history and
   * phase are what the specification makes of the events. Each shell the server ever opened for this client is
   * in the file, under its key and name or as a journaled open, unless it was removed or an error answered its
   * request; and no key has two records. A key is abandoned, removed or opened by just the events that say so.
   */
  method Run(server: string, record: ServerRecord, history: History, events: seq<Event>) returns (session: Session)
    requires Consistent(record, history)
    ensures session.Valid() && session.server == server
    ensures session.Here() == ViewOf(View(record, history, Idle), events)
    ensures session.store.file.Some? && server in session.store.file.value.servers
    ensures var s, h := session.store.file.value.servers[server], session.history;
            && s == RedactedServer(session.Here().s)
            && (forall k :: k in h.shellOf ==> Accounted(s, h, k))
            && (forall k, i, j :: RecordedAt(s, h, k, i) && RecordedAt(s, h, k, j) ==> i == j)
    ensures var start, h := View(record, history, Idle), session.history;
            forall k ::
              && (k in h.abandoned <==> k in history.abandoned || Happened(start, events, k, Errs))
              && (k in h.removed <==> k in history.removed || Happened(start, events, k, Removes))
              && (k in h.shellOf <==> k in history.shellOf || Happened(start, events, k, OpensShell))
              && TokenIn(h, k) == TokenTold(start, events, k) && NameIn(h, k) == NameTold(start, events, k)
  {
    hide TokenIn, TokenTold, NameIn, NameTold;
    hide Happened, Errs, Removes, OpensShell, Good, Then, Consistent, Accounted, RecordedAt;
    var initial := Load(None, true);
    var store := initial.value;
    var _ := store.AddServer(server, record, true);
    session := new Session(server, store, history);
    for i := 0 to |events|
      invariant fresh(session) && fresh(session.store) && session.Valid() && session.server == server
      invariant session.Here() == ViewOf(View(record, history, Idle), events[..i])
    {
      assert events[..i + 1][..i] == events[..i];
      session.Step(events[i]);
    }
    assert events[..|events|] == events;
    FileIsGood(session.Here());
    ghost var start, h := View(record, history, Idle), session.history;
    forall k ensures
      && (k in h.abandoned <==> k in history.abandoned || Happened(start, events, k, Errs))
      && (k in h.removed <==> k in history.removed || Happened(start, events, k, Removes))
      && (k in h.shellOf <==> k in history.shellOf || Happened(start, events, k, OpensShell))
      && TokenIn(h, k) == TokenTold(start, events, k) && NameIn(h, k) == NameTold(start, events, k)
    {
      EscapesHaveCauses(start, events, k);
      TokensAreTold(start, events, k);
    }
  }

  lemma FileIsGood(v: View)
    requires Good(v)
    ensures var s := RedactedServer(v.s);
            && (forall k :: k in v.h.shellOf ==> Accounted(s, v.h, k))
            && (forall k, i, j :: RecordedAt(s, v.h, k, i) && RecordedAt(s, v.h, k, j) ==> i == j)
  {
    hide HexOf, Unhex, Distinct, Known, Owned, Foreign;
    var s := RedactedServer(v.s);
    SameKept(v.s, s, v.h);
    forall k, i, j | RecordedAt(s, v.h, k, i) && RecordedAt(s, v.h, k, j) ensures i == j {
      RecordedOnce(s, v.h, k, i, j);
    }
  }
}
