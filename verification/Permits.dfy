/** Counting who holds how many permits, for TCP forwards and for uploads. */
module Permits {
  const MAX_FORWARDS_GLOBAL: nat := 128
  const MAX_FORWARDS_PER_USER: nat := 32
  const MAX_UPLOADS_GLOBAL: nat := 16
  const MAX_UPLOADS_PER_USER: nat := 4

  type User = string

  /** The table counts exactly the live permits of each user and holds no empty entry. */
  ghost predicate Counts(table: map<User, nat>, live: multiset<User>) {
    forall u :: (u in table <==> u in live) && (u in table ==> table[u] == live[u])
  }

  function Count(table: map<User, nat>, user: User): nat {
    if user in table then table[user] else 0
  }

  lemma CountsAcquire(table: map<User, nat>, live: multiset<User>, user: User)
    requires Counts(table, live)
    ensures Counts(table[user := Count(table, user) + 1], live + multiset{user})
  {
  }

  function Released(table: map<User, nat>, user: User): map<User, nat> {
    if user !in table then table
    else if table[user] <= 1 then table - {user}
    else table[user := table[user] - 1]
  }

  lemma CountsRelease(table: map<User, nat>, live: multiset<User>, user: User)
    requires Counts(table, live) && user in live
    ensures Counts(Released(table, user), live - multiset{user})
    ensures |live - multiset{user}| == |live| - 1
  {
  }

  /** Summing the table in any order gives the number of live permits. */
  method Sum(table: map<User, nat>, ghost live: multiset<User>) returns (sum: nat)
    requires Counts(table, live)
    ensures sum == |live|
  {
    sum := 0;
    var todo := table.Keys;
    ghost var rest := live;
    while todo != {}
      invariant todo <= table.Keys
      invariant forall u :: rest[u] == if u in todo then table[u] else 0
      invariant sum + |rest| == |live|
      decreases |todo|
    {
      var u :| u in todo;
      sum := sum + table[u];
      ghost var taken: multiset<User> := multiset{}[u := table[u]];
      assert rest == (rest - taken) + taken;
      assert |taken| == table[u];
      rest := rest - taken;
      todo := todo - {u};
    }
    assert rest == multiset{};
  }

  class ForwardService {
    var active: map<User, nat>
    ghost var live: multiset<User>

    ghost predicate Valid()
      reads this
    {
      && Counts(active, live)
      && |live| <= MAX_FORWARDS_GLOBAL
      && forall u :: live[u] <= MAX_FORWARDS_PER_USER
    }

    constructor ()
      ensures Valid() && live == multiset{}
    {
      active, live := map[], multiset{};
    }

    method Acquire(user: User) returns (granted: bool)
      requires Valid()
      modifies this
      ensures Valid()
      ensures granted <==> |old(live)| < MAX_FORWARDS_GLOBAL && old(live)[user] < MAX_FORWARDS_PER_USER
      ensures live == if granted then old(live) + multiset{user} else old(live)
    {
      var sum := Sum(active, live);
      if sum >= MAX_FORWARDS_GLOBAL || Count(active, user) >= MAX_FORWARDS_PER_USER { return false; }
      CountsAcquire(active, live, user);
      active := active[user := Count(active, user) + 1];
      live := live + multiset{user};
      granted := true;
    }

    /** Dropping a permit that exists. */
    method Release(user: User)
      requires Valid() && user in live
      modifies this
      ensures Valid() && live == old(live) - multiset{user}
    {
      CountsRelease(active, live, user);
      live := live - multiset{user};
      if user in active {
        var n := active[user] - 1;
        active := if n == 0 then active - {user} else active[user := n];
      }
    }
  }

  class UploadService {
    var global: nat
    var byUser: map<User, nat>
    ghost var live: multiset<User>

    /** The global count is the sum over the users, so subtracting one for a live permit never saturates. */
    ghost predicate Valid()
      reads this
    {
      && Counts(byUser, live)
      && global == |live| <= MAX_UPLOADS_GLOBAL
      && forall u :: live[u] <= MAX_UPLOADS_PER_USER
    }

    constructor ()
      ensures Valid() && live == multiset{}
    {
      global, byUser, live := 0, map[], multiset{};
    }

    method TryAcquire(user: User) returns (granted: bool)
      requires Valid()
      modifies this
      ensures Valid()
      ensures granted <==> |old(live)| < MAX_UPLOADS_GLOBAL && old(live)[user] < MAX_UPLOADS_PER_USER
      ensures live == if granted then old(live) + multiset{user} else old(live)
    {
      var count := Count(byUser, user);
      if global >= MAX_UPLOADS_GLOBAL || count >= MAX_UPLOADS_PER_USER { return false; }
      CountsAcquire(byUser, live, user);
      global := global + 1;
      byUser := byUser[user := count + 1];
      live := live + multiset{user};
      granted := true;
    }

    method Release(user: User)
      requires Valid() && user in live
      modifies this
      ensures Valid() && live == old(live) - multiset{user}
    {
      CountsRelease(byUser, live, user);
      live := live - multiset{user};
      global := SaturatingSub(global, 1);
      if user in byUser {
        var n := SaturatingSub(byUser[user], 1);
        byUser := if n == 0 then byUser - {user} else byUser[user := n];
      }
    }
  }

  function SaturatingSub(a: nat, b: nat): nat {
    if a >= b then a - b else 0
  }

  datatype Event = Acquire(user: User) | Release(user: User)

  /** The live permits after a run: each granted acquire adds one, each release of a held permit takes one. */
  function LiveAfter(live: multiset<User>, e: Event, global: nat, perUser: nat): multiset<User> {
    match e
    case Acquire(u) => if |live| < global && live[u] < perUser then live + multiset{u} else live
    case Release(u) => live - multiset{u}
  }

  function LiveAfterAll(events: seq<Event>, global: nat, perUser: nat): multiset<User> {
    if events == [] then multiset{}
    else LiveAfter(LiveAfterAll(events[..|events| - 1], global, perUser), events[|events| - 1], global, perUser)
  }

  method ForwardStep(service: ForwardService, e: Event)
    requires service.Valid()
    modifies service
    ensures service.Valid()
    ensures service.live == LiveAfter(old(service.live), e, MAX_FORWARDS_GLOBAL, MAX_FORWARDS_PER_USER)
  {
    match e
    case Acquire(u) => var _ := service.Acquire(u);
    case Release(u) => if u in service.active { service.Release(u); }
  }

  method UploadStep(service: UploadService, e: Event)
    requires service.Valid()
    modifies service
    ensures service.Valid()
    ensures service.live == LiveAfter(old(service.live), e, MAX_UPLOADS_GLOBAL, MAX_UPLOADS_PER_USER)
  {
    match e
    case Acquire(u) => var _ := service.TryAcquire(u);
    case Release(u) => if u in service.byUser { service.Release(u); }
  }

  /** Every run of acquires and drops, on both services: tables, bounds and sums hold throughout. */
  method Run(events: seq<Event>) returns (forwards: ForwardService, uploads: UploadService)
    ensures forwards.Valid() && uploads.Valid()
    ensures forwards.live == LiveAfterAll(events, MAX_FORWARDS_GLOBAL, MAX_FORWARDS_PER_USER)
    ensures uploads.live == LiveAfterAll(events, MAX_UPLOADS_GLOBAL, MAX_UPLOADS_PER_USER)
  {
    hide Counts, LiveAfter;
    forwards := new ForwardService();
    uploads := new UploadService();
    for i := 0 to |events|
      invariant fresh(forwards) && fresh(uploads) && forwards.Valid() && uploads.Valid()
      invariant forwards.live == LiveAfterAll(events[..i], MAX_FORWARDS_GLOBAL, MAX_FORWARDS_PER_USER)
      invariant uploads.live == LiveAfterAll(events[..i], MAX_UPLOADS_GLOBAL, MAX_UPLOADS_PER_USER)
    {
      assert events[..i + 1][..i] == events[..i];
      ForwardStep(forwards, events[i]);
      UploadStep(uploads, events[i]);
    }
    assert events[..|events|] == events;
  }
}
