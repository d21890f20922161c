/** The desktop client's persistent state: what memory holds, what the file holds, and how they agree. */
module ClientStore {
  import opened Bytes

  const STORE_VERSION: nat := 3

  datatype ShellRecord = ShellRecord(
    token: seq<byte>,
    idempotencyKey: Option<string>,
    name: string,
    lastAttachedAtMs: int)

  datatype PendingOpen = PendingOpen(idempotencyKey: string, name: string)

  datatype ServerRecord = ServerRecord(
    url: string,
    displayName: string,
    username: Option<string>,
    sshKeyPath: Option<string>,
    rememberLogin: bool,
    grant: Option<seq<byte>>,
    shells: map<string, ShellRecord>,
    pendingOpens: seq<PendingOpen>)

  datatype StoreData = StoreData(version: nat, servers: map<string, ServerRecord>)

  const EMPTY_STORE := StoreData(STORE_VERSION, map[])

  /** A login is kept only with consent. */
  function RedactedServer(s: ServerRecord): ServerRecord {
    if s.rememberLogin then s else s.(grant := None)
  }

  /** What `save` writes. */
  function Redacted(d: StoreData): StoreData {
    d.(servers := map k | k in d.servers :: RedactedServer(d.servers[k]))
  }

  /** What `load` makes of a file's content; versions before consent existed lose every login. */
  function Loaded(d: StoreData): StoreData {
    var legacy := d.version < STORE_VERSION;
    StoreData(STORE_VERSION,
              map k | k in d.servers ::
                RedactedServer(if legacy then d.servers[k].(rememberLogin := false) else d.servers[k]))
  }

  lemma RedactTwice(d: StoreData)
    ensures Redacted(Redacted(d)) == Redacted(d)
    ensures d.version == STORE_VERSION ==> Loaded(d) == Redacted(d) && Loaded(Redacted(d)) == Redacted(d)
  {
    assert forall s: ServerRecord :: RedactedServer(RedactedServer(s)) == RedactedServer(s);
  }

  function Without(opens: seq<PendingOpen>, key: string): seq<PendingOpen> {
    if opens == [] then []
    else (if opens[0].idempotencyKey == key then [] else [opens[0]]) + Without(opens[1..], key)
  }

  function NameOf(opens: seq<PendingOpen>, key: string): string {
    if opens == [] then "shell"
    else if opens[0].idempotencyKey == key then opens[0].name
    else NameOf(opens[1..], key)
  }

  /** Entry by entry, in order, those of the key go and the others stay. */
  lemma {:induction false} WithoutInOrder(a: seq<PendingOpen>, p: PendingOpen, b: seq<PendingOpen>, key: string)
    ensures Without([], key) == []
    ensures Without(a + [p] + b, key)
         == Without(a, key) + (if p.idempotencyKey != key then [p] else []) + Without(b, key)
  {
    if a == [] {
      assert a + [p] + b == [p] + b;
    } else {
      var first := if a[0].idempotencyKey == key then [] else [a[0]];
      var mid := if p.idempotencyKey != key then [p] else [];
      WithoutInOrder(a[1..], p, b, key);
      assert (a + [p] + b)[1..] == a[1..] + [p] + b;
      assert Without(a, key) == first + Without(a[1..], key);
      ConcatAssociates(first, Without(a[1..], key), mid);
      ConcatAssociates(first, Without(a[1..], key) + mid, Without(b, key));
    }
  }

  /** The name is that of the first entry of the key, or a default. */
  lemma {:induction false} NameOfFirst(opens: seq<PendingOpen>, key: string)
    ensures (forall i :: 0 <= i < |opens| ==> opens[i].idempotencyKey != key) ==> NameOf(opens, key) == "shell"
    ensures forall i :: 0 <= i < |opens| && opens[i].idempotencyKey == key
                        && (forall j :: 0 <= j < i ==> opens[j].idempotencyKey != key) ==>
              NameOf(opens, key) == opens[i].name
  {
    if opens != [] {
      NameOfFirst(opens[1..], key);
      forall i | 0 < i < |opens| && opens[i].idempotencyKey == key
                 && forall j :: 0 <= j < i ==> opens[j].idempotencyKey != key
        ensures NameOf(opens, key) == opens[i].name
      {
        assert opens[1..][i - 1] == opens[i] && opens[0].idempotencyKey != key;
      }
    }
  }

  // What each operation does to one server's record.

  function Remembering(s: ServerRecord, remember: bool): ServerRecord {
    s.(rememberLogin := remember)
  }

  function Granted(s: ServerRecord, grant: seq<byte>): ServerRecord {
    if grant == [] then s else s.(grant := Some(grant))
  }

  function Journaled(s: ServerRecord, key: string, name: string): ServerRecord {
    s.(pendingOpens := s.pendingOpens + [PendingOpen(key, name)])
  }

  function Resolved(s: ServerRecord, key: string, shell: string, token: seq<byte>, nowMs: int): ServerRecord {
    s.(pendingOpens := Without(s.pendingOpens, key),
       shells := s.shells[shell := ShellRecord(token, Some(key), NameOf(s.pendingOpens, key), nowMs)])
  }

  function Dropped(s: ServerRecord, key: string): ServerRecord {
    s.(pendingOpens := Without(s.pendingOpens, key))
  }

  /** A rotated token; name and key stay. */
  function Rotated(s: ServerRecord, shell: string, token: seq<byte>, nowMs: int): ServerRecord {
    if shell !in s.shells then s
    else s.(shells := s.shells[shell := s.shells[shell].(token := token, lastAttachedAtMs := nowMs)])
  }

  function Renamed(s: ServerRecord, shell: string, name: string): ServerRecord {
    if shell !in s.shells then s else s.(shells := s.shells[shell := s.shells[shell].(name := name)])
  }

  function Forgotten(s: ServerRecord, shell: string): ServerRecord {
    s.(shells := s.shells - {shell})
  }

  class Store {
    var data: StoreData
    /** The file's content, as last renamed into place; none before the first save. */
    var file: Option<StoreData>

    /** Whatever happened, a reload would give memory back, without the logins nobody consented to keep. */
    ghost predicate Valid()
      reads this
    {
      && data.version == STORE_VERSION
      && (file.None? ==> data == EMPTY_STORE)
      && (file.Some? ==> file.value.version == STORE_VERSION && Loaded(file.value) == Redacted(data))
    }

    /** The file is exactly memory without those logins. */
    ghost predicate Exact()
      reads this
    {
      file == Some(Redacted(data))
    }

    constructor (data: StoreData, file: Option<StoreData>)
      ensures this.data == data && this.file == file
    {
      this.data, this.file := data, file;
    }

    /** Writes a redacted copy beside the file and renames it over; a failure leaves the file alone. */
    method Save(next: StoreData, saved: bool) returns (ok: bool)
      modifies this`file
      ensures ok == saved
      ensures file == if ok then Some(Redacted(next)) else old(file)
    {
      var persisted := Redacted(next);
      if !saved { return false; }
      file := Some(persisted);
      ok := true;
    }

    method MutateServer(key: string, f: ServerRecord -> ServerRecord, saved: bool) returns (ok: bool)
      requires Valid()
      modifies this
      ensures Valid()
      ensures ok <==> key in old(data).servers && saved
      ensures if ok then Exact() && data == old(data).(servers := old(data).servers[key := f(old(data).servers[key])])
              else data == old(data) && file == old(file)
    {
      if key !in data.servers { return false; }
      var next := data.(servers := data.servers[key := f(data.servers[key])]);
      ok := Save(next, saved);
      if ok {
        data := next;
        RedactTwice(next);
      }
    }

    method AddServer(key: string, record: ServerRecord, saved: bool) returns (ok: bool)
      requires Valid()
      modifies this
      ensures Valid() && ok == saved
      ensures if ok then Exact() && data == old(data).(servers := old(data).servers[key := record])
              else data == old(data) && file == old(file)
    {
      var next := data.(servers := data.servers[key := record]);
      ok := Save(next, saved);
      if ok {
        data := next;
        RedactTwice(next);
      }
    }

    method RemoveServer(key: string, saved: bool) returns (ok: bool)
      requires Valid()
      modifies this
      ensures Valid() && ok == saved
      ensures if ok then Exact() && data == old(data).(servers := old(data).servers - {key})
              else data == old(data) && file == old(file)
    {
      var next := data.(servers := data.servers - {key});
      ok := Save(next, saved);
      if ok {
        data := next;
        RedactTwice(next);
      }
    }
  }

  lemma LoadedIsRedacted(d: StoreData)
    ensures Redacted(Loaded(d)) == Loaded(d)
  {
  }

  /**
   * Opens a file's content. A newer schema is refused, and so is an older one whose rewrite fails
   * (`saved`); a login without consent does not get into memory.
   */
  method Load(content: Option<StoreData>, saved: bool) returns (store: Option<Store>)
    ensures store.None? <==> Refused(content, saved)
    ensures store.Some? ==>
              && fresh(store.value) && store.value.Valid()
              && store.value.data == Initial(content)
              && (content.Some? && content.value.version < STORE_VERSION ==> store.value.Exact())
              && (content.None? || content.value.version == STORE_VERSION ==> store.value.file == content)
              && (forall k :: k in store.value.data.servers && !store.value.data.servers[k].rememberLogin ==>
                    store.value.data.servers[k].grant == None)
  {
    assert Redacted(EMPTY_STORE) == EMPTY_STORE;
    if content.None? {
      var s := new Store(EMPTY_STORE, None);
      return Some(s);
    }
    var d := content.value;
    if d.version > STORE_VERSION { return None; }
    LoadedIsRedacted(d);
    var s := new Store(Loaded(d), content);
    if d.version < STORE_VERSION {
      var ok := s.Save(s.data, saved);
      if !ok { return None; }
      RedactTwice(s.data);
    }
    store := Some(s);
  }

  datatype Operation =
    | Add(key: string, record: ServerRecord)
    | Remove(key: string)
    | SetRememberLogin(key: string, remember: bool)
    | SetGrant(key: string, grant: seq<byte>)
    | PushPendingOpen(key: string, idempotencyKey: string, name: string)
    | ResolvePendingOpen(key: string, idempotencyKey: string, shell: string, token: seq<byte>, nowMs: int)
    | DropPendingOpen(key: string, idempotencyKey: string)
    | UpdateToken(key: string, shell: string, token: seq<byte>, nowMs: int)
    | RenameShell(key: string, shell: string, name: string)
    | RemoveShell(key: string, shell: string)
    | Restart

  /** An operation succeeds when its server exists and its save does; a restart only reads. */
  predicate Succeeds(d: StoreData, op: Operation, saved: bool) {
    op.Restart? || (saved && (op.Add? || op.Remove? || op.key in d.servers))
  }

  /** What a successful operation makes of the data; a restart forgets the logins that were not to be kept. */
  function After(d: StoreData, op: Operation): StoreData {
    match op
    case Add(key, record) => d.(servers := d.servers[key := record])
    case Remove(key) => d.(servers := d.servers - {key})
    case Restart => Redacted(d)
    case _ => if op.key in d.servers then d.(servers := d.servers[op.key := AfterOn(d.servers[op.key], op)]) else d
  }

  function AfterOn(s: ServerRecord, op: Operation): ServerRecord {
    match op
    case SetRememberLogin(_, remember) => Remembering(s, remember)
    case SetGrant(_, grant) => Granted(s, grant)
    case PushPendingOpen(_, k, name) => Journaled(s, k, name)
    case ResolvePendingOpen(_, k, shell, token, nowMs) => Resolved(s, k, shell, token, nowMs)
    case DropPendingOpen(_, k) => Dropped(s, k)
    case UpdateToken(_, shell, token, nowMs) => Rotated(s, shell, token, nowMs)
    case RenameShell(_, shell, name) => Renamed(s, shell, name)
    case RemoveShell(_, shell) => Forgotten(s, shell)
    case _ => s
  }

  method Apply(store: Store, op: Operation, saved: bool) returns (result: Store, ok: bool)
    requires store.Valid()
    modifies store
    ensures result.Valid() && (result == store || fresh(result))
    ensures ok <==> Succeeds(old(store.data), op, saved)
    ensures result.data == if ok then After(old(store.data), op) else old(store.data)
    ensures !ok ==> result == store && result.file == old(store.file)
    ensures ok && !op.Restart? ==> result.Exact()
    ensures op.Restart? ==> result.file == old(store.file)
    ensures old(store.Exact()) ==> result.Exact()
  {
    RedactTwice(store.data);
    result := store;
    match op
    case Add(key, record) => ok := store.AddServer(key, record, saved);
    case Remove(key) => ok := store.RemoveServer(key, saved);
    case SetRememberLogin(key, remember) => ok := store.MutateServer(key, s => Remembering(s, remember), saved);
    case SetGrant(key, grant) => ok := store.MutateServer(key, s => Granted(s, grant), saved);
    case PushPendingOpen(key, k, name) => ok := store.MutateServer(key, s => Journaled(s, k, name), saved);
    case ResolvePendingOpen(key, k, shell, token, nowMs) =>
      ok := store.MutateServer(key, s => Resolved(s, k, shell, token, nowMs), saved);
    case DropPendingOpen(key, k) => ok := store.MutateServer(key, s => Dropped(s, k), saved);
    case UpdateToken(key, shell, token, nowMs) =>
      ok := store.MutateServer(key, s => Rotated(s, shell, token, nowMs), saved);
    case RenameShell(key, shell, name) => ok := store.MutateServer(key, s => Renamed(s, shell, name), saved);
    case RemoveShell(key, shell) => ok := store.MutateServer(key, s => Forgotten(s, shell), saved);
    case Restart =>
      var reloaded := Load(store.file, true);
      result := reloaded.value;
      ok := true;
  }

  /** The data after the operations that succeed, in order. */
  function AfterAll(d: StoreData, ops: seq<Operation>, saves: seq<bool>): StoreData
    requires |saves| == |ops|
  {
    if ops == [] then d
    else
      var n := |ops| - 1;
      var before := AfterAll(d, ops[..n], saves[..n]);
      if Succeeds(before, ops[n], saves[n]) then After(before, ops[n]) else before
  }

  lemma NothingDone(d: StoreData, ops: seq<Operation>, saves: seq<bool>)
    requires ops == [] && saves == []
    ensures AfterAll(d, ops, saves) == d
  {
  }

  lemma AfterOneMore(d: StoreData, ops: seq<Operation>, saves: seq<bool>, i: nat)
    requires |saves| == |ops| && i < |ops|
    ensures var before := AfterAll(d, ops[..i], saves[..i]);
            AfterAll(d, ops[..i + 1], saves[..i + 1])
            == if Succeeds(before, ops[i], saves[i]) then After(before, ops[i]) else before
  {
    hide Succeeds, After;
    assert ops[..i + 1][..i] == ops[..i] && saves[..i + 1][..i] == saves[..i];
  }

  // ---- What the log of operations says about one server, without records ----

  /** The last operation was carried out. */
  predicate Worked(start: StoreData, ops: seq<Operation>, saves: seq<bool>)
    requires |saves| == |ops| > 0
    decreases |ops|, 0
  {
    var n := |ops| - 1;
    || ops[n].Restart?
    || (saves[n] && (ops[n].Add? || ops[n].Remove? || Consent(start, ops[..n], saves[..n], ops[n].key).Some?))
  }

  /** The user's last word on keeping the login of a server; none when there is no such server. */
  function Consent(start: StoreData, ops: seq<Operation>, saves: seq<bool>, key: string): Option<bool>
    requires |saves| == |ops|
    decreases |ops|, 1
  {
    if ops == [] then
      if key in start.servers then Some(start.servers[key].rememberLogin) else None
    else
      var op, before := ops[|ops| - 1], Consent(start, ops[..|ops| - 1], saves[..|ops| - 1], key);
      if Worked(start, ops, saves) && Concerns(op, key) then ConsentBy(op, before) else before
  }

  predicate Concerns(op: Operation, key: string) {
    !op.Restart? && op.key == key
  }

  function ConsentBy(op: Operation, before: Option<bool>): Option<bool> {
    match op
    case Add(_, record) => Some(record.rememberLogin)
    case Remove(_) => None
    case SetRememberLogin(_, remember) => Some(remember)
    case _ => before
  }

  /** The last login given for a server, unless the client was restarted since without consent to keep it. */
  function Login(start: StoreData, ops: seq<Operation>, saves: seq<bool>, key: string): Option<seq<byte>>
    requires |saves| == |ops|
  {
    if ops == [] then
      if key in start.servers then start.servers[key].grant else None
    else
      var n := |ops| - 1;
      var op, before := ops[n], Login(start, ops[..n], saves[..n], key);
      if op.Restart? then (if Consent(start, ops[..n], saves[..n], key) == Some(true) then before else None)
      else if Worked(start, ops, saves) && Concerns(op, key) then LoginBy(op, before) else before
  }

  function LoginBy(op: Operation, before: Option<seq<byte>>): Option<seq<byte>> {
    match op
    case Add(_, record) => record.grant
    case Remove(_) => None
    case SetGrant(_, grant) => if grant != [] then Some(grant) else before
    case _ => before
  }

  /** The opens journaled and neither resolved nor dropped since, oldest first. */
  function Journal(start: StoreData, ops: seq<Operation>, saves: seq<bool>, key: string): seq<PendingOpen>
    requires |saves| == |ops|
  {
    if ops == [] then
      if key in start.servers then start.servers[key].pendingOpens else []
    else
      var op, before := ops[|ops| - 1], Journal(start, ops[..|ops| - 1], saves[..|ops| - 1], key);
      if Worked(start, ops, saves) && Concerns(op, key) then JournalBy(op, before) else before
  }

  function JournalBy(op: Operation, before: seq<PendingOpen>): seq<PendingOpen> {
    match op
    case Add(_, record) => record.pendingOpens
    case Remove(_) => []
    case PushPendingOpen(_, k, name) => before + [PendingOpen(k, name)]
    case ResolvePendingOpen(_, k, _, _, _) => Without(before, k)
    case DropPendingOpen(_, k) => Without(before, k)
    case _ => before
  }

  /** A shell as its last resolve, token, name or removal left it. */
  function ShellLog(start: StoreData, ops: seq<Operation>, saves: seq<bool>, key: string, id: string)
    : Option<ShellRecord>
    requires |saves| == |ops|
  {
    if ops == [] then
      if key in start.servers && id in start.servers[key].shells then Some(start.servers[key].shells[id]) else None
    else
      var n := |ops| - 1;
      var op, before := ops[n], ShellLog(start, ops[..n], saves[..n], key, id);
      if Worked(start, ops, saves) && Concerns(op, key)
      then ShellBy(op, id, Journal(start, ops[..n], saves[..n], key), before) else before
  }

  function ShellBy(op: Operation, id: string, journal: seq<PendingOpen>, before: Option<ShellRecord>)
    : Option<ShellRecord>
  {
    match op
    case Add(_, record) => if id in record.shells then Some(record.shells[id]) else None
    case Remove(_) => None
    case ResolvePendingOpen(_, k, shell, token, nowMs) =>
      if shell == id then Some(ShellRecord(token, Some(k), NameOf(journal, k), nowMs)) else before
    case UpdateToken(_, shell, token, nowMs) =>
      if shell != id || before.None? then before
      else Some(ShellRecord(token, before.value.idempotencyKey, before.value.name, nowMs))
    case RenameShell(_, shell, name) =>
      if shell != id || before.None? then before
      else Some(ShellRecord(before.value.token, before.value.idempotencyKey, name, before.value.lastAttachedAtMs))
    case RemoveShell(_, shell) => if shell == id then None else before
    case _ => before
  }

  /** How the user entered a server: only adding it again changes that. */
  datatype Profile = Profile(url: string, displayName: string, username: Option<string>, sshKeyPath: Option<string>)

  function ProfileOf(s: ServerRecord): Profile {
    Profile(s.url, s.displayName, s.username, s.sshKeyPath)
  }

  function Entered(start: StoreData, ops: seq<Operation>, saves: seq<bool>, key: string): Option<Profile>
    requires |saves| == |ops|
  {
    if ops == [] then
      if key in start.servers then Some(ProfileOf(start.servers[key])) else None
    else
      var op, before := ops[|ops| - 1], Entered(start, ops[..|ops| - 1], saves[..|ops| - 1], key);
      if Worked(start, ops, saves) && Concerns(op, key) then EnteredBy(op, before) else before
  }

  function EnteredBy(op: Operation, before: Option<Profile>): Option<Profile> {
    match op
    case Add(_, record) => Some(ProfileOf(record))
    case Remove(_) => None
    case _ => before
  }

  function ProfileIn(d: StoreData, key: string): Option<Profile> {
    if key in d.servers then Some(ProfileOf(d.servers[key])) else None
  }

  /** A server's consent and login, as far as data holds them. */
  function ConsentIn(d: StoreData, key: string): Option<bool> {
    if key in d.servers then Some(d.servers[key].rememberLogin) else None
  }

  function LoginIn(d: StoreData, key: string): Option<seq<byte>> {
    if key in d.servers then d.servers[key].grant else None
  }

  function JournalIn(d: StoreData, key: string): seq<PendingOpen> {
    if key in d.servers then d.servers[key].pendingOpens else []
  }

  function ShellIn(d: StoreData, key: string, id: string): Option<ShellRecord> {
    if key in d.servers && id in d.servers[key].shells then Some(d.servers[key].shells[id]) else None
  }

  /** One successful operation, in the words of the log. */
  lemma OperationTells(d: StoreData, op: Operation, key: string, id: string)
    requires Succeeds(d, op, true) && !op.Restart?
    ensures var d' := After(d, op);
            if Concerns(op, key)
            then && ConsentIn(d', key) == ConsentBy(op, ConsentIn(d, key))
                 && LoginIn(d', key) == LoginBy(op, LoginIn(d, key))
                 && JournalIn(d', key) == JournalBy(op, JournalIn(d, key))
                 && ShellIn(d', key, id) == ShellBy(op, id, JournalIn(d, key), ShellIn(d, key, id))
                 && ProfileIn(d', key) == EnteredBy(op, ProfileIn(d, key))
            else && ConsentIn(d', key) == ConsentIn(d, key) && LoginIn(d', key) == LoginIn(d, key)
                 && JournalIn(d', key) == JournalIn(d, key) && ShellIn(d', key, id) == ShellIn(d, key, id)
                 && ProfileIn(d', key) == ProfileIn(d, key)
  {
    hide Without, NameOf;
  }

  /** What the log tells of a server is what memory holds of it. */
  ghost predicate Tells(d: StoreData, start: StoreData, ops: seq<Operation>, saves: seq<bool>, key: string, id: string)
    requires |saves| == |ops|
  {
    && ConsentIn(d, key) == Consent(start, ops, saves, key) && LoginIn(d, key) == Login(start, ops, saves, key)
    && JournalIn(d, key) == Journal(start, ops, saves, key)
    && ShellIn(d, key, id) == ShellLog(start, ops, saves, key, id)
    && ProfileIn(d, key) == Entered(start, ops, saves, key)
  }

  lemma {:induction false} LogTells(start: StoreData, ops: seq<Operation>, saves: seq<bool>, key: string, id: string)
    requires |saves| == |ops|
    ensures Tells(AfterAll(start, ops, saves), start, ops, saves, key, id)
    decreases |ops|
  {
    hide After, Succeeds, ConsentBy, LoginBy, JournalBy, ShellBy, ConsentIn, LoginIn, JournalIn, ShellIn;
    hide EnteredBy, ProfileIn;
    if ops == [] {
      NothingTold(start, key, id);
    } else {
      var n := |ops| - 1;
      var d, op := AfterAll(start, ops[..n], saves[..n]), ops[n];
      LogTells(start, ops[..n], saves[..n], key, id);
      if op.Restart? {
        RestartTells(d, op, key, id);
      } else {
        LogTells(start, ops[..n], saves[..n], op.key, id);
        SuccessTells(d, op, saves[n]);
        assert Worked(start, ops, saves) <==> Succeeds(d, op, saves[n]);
        var c := Consent(start, ops[..n], saves[..n], key);
        assert Consent(start, ops, saves, key)
            == if Worked(start, ops, saves) && Concerns(op, key) then ConsentBy(op, c) else c;
        if Succeeds(d, op, saves[n]) { OperationTells(d, op, key, id); }
      }
    }
  }

  lemma NothingTold(start: StoreData, key: string, id: string)
    ensures Tells(start, start, [], [], key, id)
  {
  }

  lemma RestartTells(d: StoreData, op: Operation, key: string, id: string)
    requires op.Restart?
    ensures Succeeds(d, op, true) && Succeeds(d, op, false)
    ensures var d' := After(d, op);
            && ConsentIn(d', key) == ConsentIn(d, key)
            && LoginIn(d', key) == (if ConsentIn(d, key) == Some(true) then LoginIn(d, key) else None)
            && JournalIn(d', key) == JournalIn(d, key) && ShellIn(d', key, id) == ShellIn(d, key, id)
            && ProfileIn(d', key) == ProfileIn(d, key)
  {
  }

  lemma SuccessTells(d: StoreData, op: Operation, saved: bool)
    requires !op.Restart?
    ensures Succeeds(d, op, saved) <==> saved && (op.Add? || op.Remove? || ConsentIn(d, op.key).Some?)
    ensures Succeeds(d, op, saved) ==> Succeeds(d, op, true)
  {
  }

  /** The file holds exactly the logins that were given and that the user consented to keep. */
  ghost predicate KeepsConsented(file: StoreData, start: StoreData, ops: seq<Operation>, saves: seq<bool>)
    requires |saves| == |ops|
  {
    forall key, g ::
      key in file.servers && file.servers[key].grant == Some(g) <==>
      (Consent(start, ops, saves, key) == Some(true) && Login(start, ops, saves, key) == Some(g))
  }

  lemma RedactionKeepsConsented(start: StoreData, ops: seq<Operation>, saves: seq<bool>)
    requires |saves| == |ops|
    ensures KeepsConsented(Redacted(AfterAll(start, ops, saves)), start, ops, saves)
  {
    hide AfterAll, Consent, Login, Journal, ShellLog;
    var d := AfterAll(start, ops, saves);
    forall key, g
      ensures key in Redacted(d).servers && Redacted(d).servers[key].grant == Some(g) <==>
              (Consent(start, ops, saves, key) == Some(true) && Login(start, ops, saves, key) == Some(g))
    {
      LogTells(start, ops, saves, key, "");
    }
  }

  /** What memory starts with. */
  function Initial(content: Option<StoreData>): StoreData {
    if content.Some? then Loaded(content.value) else EMPTY_STORE
  }

  predicate Refused(content: Option<StoreData>, saved: bool) {
    content.Some? && (content.value.version > STORE_VERSION || (content.value.version < STORE_VERSION && !saved))
  }

  /**
   * Every sequence of operations and restarts, from any file, with saves that may fail (`migrated` is the
   * one of an older schema). Memory is what the successful operations make of it, a restart at the end
   * would load exactly that without the unkept logins, and the file is exactly that as soon as the schema
   * was migrated or one operation has succeeded.
   */
  method Run(content: Option<StoreData>, migrated: bool, ops: seq<Operation>, saves: seq<bool>)
    returns (loaded: Option<Store>, oks: seq<bool>)
    requires |saves| == |ops|
    ensures loaded.None? <==> Refused(content, migrated)
    ensures loaded.Some? ==>
              var store, start := loaded.value, Initial(content);
              && store.Valid() && |oks| == |ops|
              && (forall i :: 0 <= i < |ops| ==>
                    oks[i] == Succeeds(AfterAll(start, ops[..i], saves[..i]), ops[i], saves[i]))
              && store.data == AfterAll(start, ops, saves)
              && (forall i :: 0 <= i < |ops| && oks[i] && !ops[i].Restart? ==> store.Exact())
              && (content.Some? && content.value.version < STORE_VERSION ==> store.Exact())
              && (store.file.Some? ==> Loaded(store.file.value) == Redacted(store.data))
    ensures loaded.Some? ==>
              var store, start := loaded.value, Initial(content);
              && (forall key, id :: Tells(store.data, start, ops, saves, key, id))
              && (store.file.Some? ==> KeepsConsented(Loaded(store.file.value), start, ops, saves))
              && (store.Exact() ==> KeepsConsented(store.file.value, start, ops, saves))
  {
    hide KeepsConsented, Tells;
    hide AfterAll, After, Succeeds, Redacted, Loaded;
    oks := [];
    loaded := Load(content, migrated);
    if loaded.None? { return; }
    var store := loaded.value;
    ghost var start := Initial(content);
    NothingDone(start, ops[..0], saves[..0]);
    for i := 0 to |ops|
      invariant store.Valid() && fresh(store) && |oks| == i
      invariant forall k :: 0 <= k < i ==>
                  oks[k] == Succeeds(AfterAll(start, ops[..k], saves[..k]), ops[k], saves[k])
      invariant store.data == AfterAll(start, ops[..i], saves[..i])
      invariant forall k :: 0 <= k < i && oks[k] && !ops[k].Restart? ==> store.Exact()
      invariant content.Some? && content.value.version < STORE_VERSION ==> store.Exact()
    {
      var ok;
      AfterOneMore(start, ops, saves, i);
      store, ok := Apply(store, ops[i], saves[i]);
      oks := oks + [ok];
    }
    assert ops[..|ops|] == ops && saves[..|ops|] == saves;
    loaded := Some(store);
    forall key, id ensures Tells(store.data, start, ops, saves, key, id) {
      LogTells(start, ops, saves, key, id);
    }
    RedactionKeepsConsented(start, ops, saves);
  }
}
