/** The per-address limiter of failed authentications: lockouts, throttled sweeps and a hard cap. */
module RateLimiting {
  import opened Bytes

  type Ip = nat

  /** Instants and durations are whole ticks; `maxFailures` is the source's 32-bit count. */
  datatype Policy = Policy(maxFailures: nat, window: nat, lockout: nat, maxTracked: nat) {
    ghost predicate Valid() {
      maxFailures < 0x1_0000_0000
    }
  }

  datatype Bucket = Bucket(failures: seq<nat>, lockedUntil: Option<nat>)

  const EMPTY := Bucket([], None)

  /** Elapsed time, zero when `t` lies ahead. */
  function Since(now: nat, t: nat): nat {
    if t <= now then now - t else 0
  }

  function AsU32(n: nat): nat {
    n % 0x1_0000_0000
  }

  predicate Locked(b: Bucket, now: nat) {
    b.lockedUntil.Some? && now < b.lockedUntil.value
  }

  /** `is_dead`: neither locked nor holding a failure inside the window. */
  predicate IsDead(b: Bucket, now: nat, window: nat) {
    !Locked(b, now) && forall t :: t in b.failures ==> Since(now, t) >= window
  }

  function Latest(stamps: seq<nat>): nat
    requires stamps != []
  {
    if |stamps| == 1 then stamps[0]
    else var rest := Latest(stamps[1..]); if stamps[0] < rest then rest else stamps[0]
  }

  function ExpiresAt(b: Bucket, now: nat, window: nat): nat {
    var deadline := if b.failures == [] then None else Some(Latest(b.failures) + window);
    match (b.lockedUntil, deadline)
    case (Some(a), Some(d)) => if a < d then d else a
    case (Some(a), None) => a
    case (None, Some(d)) => d
    case (None, None) => now
  }

  /** Stamps do not lie ahead of the clock. */
  ghost predicate Stamped(b: Bucket, clock: nat) {
    forall t :: t in b.failures ==> t <= clock
  }

  lemma {:induction false} LatestIs(stamps: seq<nat>)
    requires stamps != []
    ensures Latest(stamps) in stamps && forall t :: t in stamps ==> t <= Latest(stamps)
  {
    if |stamps| > 1 {
      LatestIs(stamps[1..]);
      assert stamps == [stamps[0]] + stamps[1..];
    }
  }

  /** A live bucket expires exactly when it dies. */
  lemma ExpiryIsDeath(b: Bucket, now: nat, window: nat, t: nat)
    requires Stamped(b, now) && !IsDead(b, now, window) && now <= t
    ensures IsDead(b, t, window) <==> ExpiresAt(b, now, window) <= t
  {
    if b.failures != [] {
      LatestIs(b.failures);
    }
  }

  /** Dead means of no effect any more: never again locked, and without a stamp inside the window. */
  lemma DeadMeans(b: Bucket, now: nat, window: nat)
    requires Stamped(b, now)
    ensures IsDead(b, now, window) <==>
            (forall t :: t >= now ==> !Locked(b, t) && Recent(b.failures, t, window) == [])
  {
    if IsDead(b, now, window) {
      forall t | t >= now ensures !Locked(b, t) && Recent(b.failures, t, window) == [] {
        NothingRecent(b.failures, t, window);
      }
    } else if !Locked(b, now) {
      RecentIsRecent(b.failures, now, window);
    }
  }

  /** The stamps still inside the window at `now`, in order. */
  function Recent(stamps: seq<nat>, now: nat, window: nat): seq<nat> {
    if stamps == [] then []
    else (if Since(now, stamps[0]) < window then [stamps[0]] else []) + Recent(stamps[1..], now, window)
  }

  lemma {:induction false} RecentSnoc(stamps: seq<nat>, t: nat, now: nat, window: nat)
    ensures Recent(stamps + [t], now, window)
         == Recent(stamps, now, window) + if Since(now, t) < window then [t] else []
  {
    if stamps == [] {
      assert Recent([t], now, window) == (if Since(now, t) < window then [t] else []) + Recent([], now, window);
    } else {
      RecentSnoc(stamps[1..], t, now, window);
      assert (stamps + [t])[1..] == stamps[1..] + [t];
    }
  }

  /** A check ends a lockout that has elapsed. */
  function AfterCheck(b: Bucket, now: nat): Bucket {
    if b.lockedUntil.Some? && !Locked(b, now) then EMPTY else b
  }

  function AfterFailure(p: Policy, b: Bucket, now: nat): Bucket {
    var failures := Recent(b.failures, now, p.window) + [now];
    Bucket(failures, if AsU32(|failures|) >= p.maxFailures then Some(now + p.lockout) else b.lockedUntil)
  }

  type Buckets = map<Ip, Bucket>

  function BucketOf(m: Buckets, ip: Ip): Bucket {
    if ip in m then m[ip] else EMPTY
  }

  predicate Allowed(m: Buckets, ip: Ip, now: nat) {
    !Locked(BucketOf(m, ip), now)
  }

  function Checked(m: Buckets, ip: Ip, now: nat): Buckets {
    if ip in m then m[ip := AfterCheck(m[ip], now)] else m
  }

  function Failed(p: Policy, m: Buckets, ip: Ip, now: nat): Buckets {
    m[ip := AfterFailure(p, BucketOf(m, ip), now)]
  }

  function Swept(m: Buckets, now: nat, window: nat): Buckets {
    map ip | ip in m && !IsDead(m[ip], now, window) :: m[ip]
  }

  datatype Tracked = Tracked(buckets: Buckets, lastSweep: Option<nat>)

  ghost predicate Agree(m: Buckets, plain: Buckets) {
    forall ip :: ip in m ==> ip in plain && m[ip] == plain[ip]
  }

  /** Whoever went is dead whenever somebody who stayed is. */
  ghost predicate DieFirst(m: Buckets, kept: Buckets, now: nat, window: nat) {
    forall gone, ip, t ::
      gone in m && gone !in kept && ip in kept && t >= now && IsDead(kept[ip], t, window) ==> IsDead(m[gone], t, window)
  }

  ghost predicate AllStamped(m: Buckets, clock: nat) {
    forall ip :: ip in m ==> Stamped(m[ip], clock)
  }

  /** No sweep yet, a window since the last one, or a map over its cap. */
  predicate Due(p: Policy, s: Tracked, now: nat) {
    s.lastSweep.None? || now >= s.lastSweep.value + p.window || |s.buckets| > p.maxTracked
  }

  /**
   * What pruning may do, without saying how: nothing unless a sweep is due, and then it drops all dead buckets
   * and as many live ones as are over the cap, none of which outlives one that stays.
   */
  ghost predicate Pruned(p: Policy, s: Tracked, now: nat, after: Tracked) {
    if !Due(p, s, now) then after == s
    else
      && after.lastSweep == Some(now) && Agree(after.buckets, s.buckets) && |after.buckets| <= p.maxTracked
      && (forall ip :: ip in after.buckets ==> !IsDead(after.buckets[ip], now, p.window))
      && (|after.buckets| < p.maxTracked ==>
            forall ip :: ip in s.buckets && ip !in after.buckets ==> IsDead(s.buckets[ip], now, p.window))
      && (AllStamped(s.buckets, now) ==> DieFirst(s.buckets, after.buckets, now, p.window))
  }

  lemma PruneMeans(p: Policy, s: Tracked, now: nat, after: Tracked)
    requires var swept := Sweep(p, s, now);
             && after.lastSweep == swept.lastSweep
             && (|swept.buckets| <= p.maxTracked ==> after == swept)
             && (|swept.buckets| > p.maxTracked ==>
                   && |after.buckets| == p.maxTracked
                   && SoonestGone(swept.buckets, after.buckets, now, p.window))
    requires s.lastSweep.Some? ==> s.lastSweep.value <= now
    ensures Pruned(p, s, now, after)
  {
    var swept := Sweep(p, s, now);
    if Due(p, s, now) {
      assert swept.buckets == Swept(s.buckets, now, p.window);
      if AllStamped(s.buckets, now) {
        forall gone, ip, t | gone in s.buckets && gone !in after.buckets && ip in after.buckets && t >= now
                             && IsDead(after.buckets[ip], t, p.window)
          ensures IsDead(s.buckets[gone], t, p.window)
        {
          DeathOrder(s.buckets[gone], after.buckets[ip], now, p.window, t);
        }
      }
    }
  }

  /** Dead already, or expiring no later than the other and so dead whenever that is. */
  lemma DeathOrder(gone: Bucket, kept: Bucket, now: nat, window: nat, t: nat)
    requires Stamped(gone, now) && Stamped(kept, now) && t >= now
    requires IsDead(gone, now, window)
             || (!IsDead(kept, now, window) && ExpiresAt(gone, now, window) <= ExpiresAt(kept, now, window))
    requires IsDead(kept, t, window)
    ensures IsDead(gone, t, window)
  {
    if !IsDead(gone, now, window) {
      ExpiryIsDeath(gone, now, window, t);
      ExpiryIsDeath(kept, now, window, t);
    }
  }

  /** The sweep of `prune`: when the throttle is due, or whenever the map is over the cap. */
  function Sweep(p: Policy, s: Tracked, now: nat): Tracked {
    if s.lastSweep.None? || Since(now, s.lastSweep.value) >= p.window || |s.buckets| > p.maxTracked
    then Tracked(Swept(s.buckets, now, p.window), Some(now))
    else s
  }

  /** `Leave` is the end of an admitted attempt that records nothing: a challenge was sent, or the peer went away. */
  datatype Event = Check(ip: Ip, now: nat) | Failure(ip: Ip, now: nat) | Success(ip: Ip) | Leave(ip: Ip)

  // ---- The limiter as the daemon runs it ----

  class RateLimiter {
    const policy: Policy
    var state: Tracked

    constructor (policy: Policy)
      ensures this.policy == policy && state == Tracked(map[], None)
    {
      this.policy := policy;
      state := Tracked(map[], None);
    }

    method CheckAddress(ip: Ip, now: nat) returns (allowed: bool)
      modifies this
      ensures allowed == Allowed(old(state).buckets, ip, now)
      ensures state == old(state).(buckets := Checked(old(state).buckets, ip, now))
    {
      if ip !in state.buckets { return true; }
      var bucket := state.buckets[ip];
      match bucket.lockedUntil
      case Some(until) =>
        if now < until { return false; }
        state := state.(buckets := state.buckets[ip := Bucket([], None)]);
        return true;
      case None => return true;
    }

    /** Records a failure, then sweeps and, if the map is still over the cap, evicts the soonest to expire. */
    method RecordFailure(ip: Ip, now: nat)
      modifies this
      ensures var swept := Sweep(policy, old(state).(buckets := Failed(policy, old(state).buckets, ip, now)), now);
              && state.lastSweep == swept.lastSweep
              && (|swept.buckets| <= policy.maxTracked ==> state == swept)
              && (|swept.buckets| > policy.maxTracked ==>
                    && |state.buckets| == policy.maxTracked
                    && SoonestGone(swept.buckets, state.buckets, now, policy.window))
      ensures (old(state).lastSweep.Some? ==> old(state).lastSweep.value <= now) ==>
                Pruned(policy, old(state).(buckets := Failed(policy, old(state).buckets, ip, now)), now, state)
      ensures |state.buckets| <= policy.maxTracked
    {
      hide Sweep, SoonestGone, Recent, Pruned;
      var bucket := if ip in state.buckets then state.buckets[ip] else Bucket([], None);
      var failures := Retain(bucket.failures, now, policy.window);
      failures := failures + [now];
      bucket := bucket.(failures := failures);
      if AsU32(|failures|) >= policy.maxFailures {
        bucket := bucket.(lockedUntil := Some(now + policy.lockout));
      }
      state := state.(buckets := state.buckets[ip := bucket]);
      Prune(now);
    }

    method RecordSuccess(ip: Ip)
      modifies this
      ensures state == old(state).(buckets := old(state).buckets - {ip})
    {
      state := state.(buckets := state.buckets - {ip});
    }

    method Prune(now: nat)
      modifies this
      ensures var swept := Sweep(policy, old(state), now);
              && state.lastSweep == swept.lastSweep
              && (|swept.buckets| <= policy.maxTracked ==> state == swept)
              && (|swept.buckets| > policy.maxTracked ==>
                    && |state.buckets| == policy.maxTracked
                    && SoonestGone(swept.buckets, state.buckets, now, policy.window))
      ensures (old(state).lastSweep.Some? ==> old(state).lastSweep.value <= now) ==>
                Pruned(policy, old(state), now, state)
    {
      var due := state.lastSweep.None? || Since(now, state.lastSweep.value) >= policy.window;
      if due || |state.buckets| > policy.maxTracked {
        state := Tracked(Swept(state.buckets, now, policy.window), Some(now));
      }
      if |state.buckets| > policy.maxTracked {
        var kept := EvictSoonest(state.buckets, |state.buckets| - policy.maxTracked, now, policy.window);
        state := state.(buckets := kept);
      }
      if old(state).lastSweep.Some? ==> old(state).lastSweep.value <= now {
        PruneMeans(policy, old(state), now, state);
      }
    }
  }

  method Retain(stamps: seq<nat>, now: nat, window: nat) returns (kept: seq<nat>)
    ensures kept == Recent(stamps, now, window)
  {
    kept := [];
    for i := 0 to |stamps|
      invariant kept == Recent(stamps[..i], now, window)
    {
      assert stamps[..i + 1] == stamps[..i] + [stamps[i]];
      RecentSnoc(stamps[..i], stamps[i], now, window);
      if Since(now, stamps[i]) < window {
        kept := kept + [stamps[i]];
      }
    }
    assert stamps[..|stamps|] == stamps;
  }

  /** What was kept is part of the map, and everything that went expires no later than everything kept. */
  ghost predicate SoonestGone(m: Buckets, kept: Buckets, now: nat, window: nat) {
    && kept.Keys <= m.Keys
    && (forall ip :: ip in kept ==> kept[ip] == m[ip])
    && (forall gone, ip :: gone in m && gone !in kept && ip in kept ==>
          ExpiresAt(m[gone], now, window) <= ExpiresAt(m[ip], now, window))
  }

  /** Removes the `overflow` entries with the smallest expiry, ties in any order. */
  method EvictSoonest(m: Buckets, overflow: nat, now: nat, window: nat) returns (kept: Buckets)
    requires overflow <= |m|
    ensures SoonestGone(m, kept, now, window) && |kept| == |m| - overflow
    ensures AllStamped(m, now) && (forall ip :: ip in m ==> !IsDead(m[ip], now, window)) ==>
              DieFirst(m, kept, now, window)
  {
    kept := m;
    for n := 0 to overflow
      invariant SoonestGone(m, kept, now, window) && |kept| == |m| - n
    {
      assert kept.Keys != {} by { assert |kept.Keys| == |kept|; }
      SomeoneIsSoonest(kept, kept.Keys, now, window);
      var gone :| gone in kept && IsSoonest(kept, kept.Keys, gone, now, window);
      var rest := kept - {gone};
      assert rest.Keys == kept.Keys - {gone};
      assert |rest| == |rest.Keys| && |kept| == |kept.Keys|;
      kept := rest;
    }
    SoonestDieFirst(m, kept, now, window);
  }

  lemma SoonestDieFirst(m: Buckets, kept: Buckets, now: nat, window: nat)
    requires SoonestGone(m, kept, now, window)
    ensures AllStamped(m, now) && (forall ip :: ip in m ==> !IsDead(m[ip], now, window)) ==>
              DieFirst(m, kept, now, window)
  {
    if AllStamped(m, now) && (forall ip :: ip in m ==> !IsDead(m[ip], now, window)) {
      forall gone, ip, t | gone in m && gone !in kept && ip in kept && t >= now && IsDead(kept[ip], t, window)
        ensures IsDead(m[gone], t, window)
      {
        DeathOrder(m[gone], kept[ip], now, window, t);
      }
    }
  }

  predicate IsSoonest(m: Buckets, ips: set<Ip>, s: Ip, now: nat, window: nat)
    requires ips <= m.Keys && s in m
  {
    forall ip :: ip in ips ==> ExpiresAt(m[s], now, window) <= ExpiresAt(m[ip], now, window)
  }

  lemma {:induction false} SomeoneIsSoonest(m: Buckets, ips: set<Ip>, now: nat, window: nat)
    requires ips <= m.Keys && ips != {}
    ensures exists s :: s in ips && IsSoonest(m, ips, s, now, window)
    decreases |ips|
  {
    var x :| x in ips;
    if ips == {x} {
      assert forall ip :: ip in ips ==> ip == x;
    } else {
      var others := ips - {x};
      assert others != {};
      SomeoneIsSoonest(m, others, now, window);
      var s :| s in others && IsSoonest(m, others, s, now, window);
      var best := if ExpiresAt(m[x], now, window) <= ExpiresAt(m[s], now, window) then x else s;
      assert IsSoonest(m, ips, best, now, window);
    }
  }

  // ---- Whole runs ----

  /** One event on the sweeping limiter, while the cap forces no eviction. */
  function Step(p: Policy, s: Tracked, e: Event): Tracked {
    match e
    case Check(ip, now) => s.(buckets := Checked(s.buckets, ip, now))
    case Failure(ip, now) => Sweep(p, s.(buckets := Failed(p, s.buckets, ip, now)), now)
    case Success(ip) => s.(buckets := s.buckets - {ip})
    case Leave(_) => s
  }

  /** The same event on a limiter that never sweeps and has no cap. */
  function PlainStep(p: Policy, m: Buckets, e: Event): Buckets {
    match e
    case Check(ip, now) => Checked(m, ip, now)
    case Failure(ip, now) => Failed(p, m, ip, now)
    case Success(ip) => m - {ip}
    case Leave(_) => m
  }

  function Answer(m: Buckets, e: Event): seq<bool> {
    if e.Check? then [Allowed(m, e.ip, e.now)] else []
  }

  function Answers(p: Policy, s: Tracked, events: seq<Event>): seq<bool>
    decreases |events|
  {
    if events == [] then [] else Answer(s.buckets, events[0]) + Answers(p, Step(p, s, events[0]), events[1..])
  }

  function PlainAnswers(p: Policy, m: Buckets, events: seq<Event>): seq<bool>
    decreases |events|
  {
    if events == [] then [] else Answer(m, events[0]) + PlainAnswers(p, PlainStep(p, m, events[0]), events[1..])
  }

  /** Time never runs backwards, from `clock` on. */
  predicate Monotone(clock: nat, events: seq<Event>)
    decreases |events|
  {
    events == [] ||
    (clock <= Clock(clock, events[0]) && Monotone(Clock(clock, events[0]), events[1..]))
  }

  function Clock(clock: nat, e: Event): nat {
    if e.Check? || e.Failure? then e.now else clock
  }

  /** No failure of the run leaves the sweeping limiter over its cap. */
  predicate Fits(p: Policy, s: Tracked, events: seq<Event>)
    decreases |events|
  {
    events == [] ||
    (&& (events[0].Failure? ==> |Step(p, s, events[0]).buckets| <= p.maxTracked)
     && Fits(p, Step(p, s, events[0]), events[1..]))
  }

  /** A lockout that has elapsed but that no check has ended yet. */
  predicate StaleLock(b: Bucket, now: nat) {
    b.lockedUntil.Some? && !Locked(b, now)
  }

  /** No failure of the run meets a stale lockout. */
  predicate NoStaleFailures(p: Policy, m: Buckets, events: seq<Event>)
    decreases |events|
  {
    events == [] ||
    (&& (events[0].Failure? ==> !StaleLock(BucketOf(m, events[0].ip), events[0].now))
     && NoStaleFailures(p, PlainStep(p, m, events[0]), events[1..]))
  }

  /** What is known of the checks so far: when each address was last admitted, and which had no failure since. */
  datatype Admissions = Admissions(last: map<Ip, nat>, alone: set<Ip>)

  const NO_ADMISSIONS := Admissions(map[], {})

  function Noted(a: Admissions, m: Buckets, e: Event): Admissions {
    match e
    case Check(ip, now) => if Allowed(m, ip, now) then Admissions(a.last[ip := now], a.alone + {ip}) else a
    case Failure(ip, _) => a.(alone := a.alone - {ip})
    case _ => a
  }

  /**
   * Each failure follows an admitted check of its address and comes less than a lockout after it, or is
   * the first one since. Attempts may overlap, and any number of failures may follow one check.
   */
  predicate FailuresFollowChecks(p: Policy, m: Buckets, a: Admissions, events: seq<Event>)
    decreases |events|
  {
    events == [] ||
    (var e := events[0];
     && (e.Failure? ==> e.ip in a.alone || (e.ip in a.last && e.now < a.last[e.ip] + p.lockout))
     && FailuresFollowChecks(p, PlainStep(p, m, e), Noted(a, m, e), events[1..]))
  }

  /** The sweeping limiter holds the same buckets, except that it may have dropped dead ones. */
  ghost predicate Similar(p: Policy, m: Buckets, plain: Buckets, clock: nat) {
    && Agree(m, plain)
    && (forall ip :: ip in plain ==> Stamped(plain[ip], clock) && (ip !in m ==> IsDead(plain[ip], clock, p.window)))
  }

  lemma {:induction false} RecentIsRecent(stamps: seq<nat>, now: nat, window: nat)
    ensures forall t :: t in Recent(stamps, now, window) <==> t in stamps && Since(now, t) < window
  {
    if stamps != [] {
      RecentIsRecent(stamps[1..], now, window);
      assert stamps == [stamps[0]] + stamps[1..];
    }
  }

  lemma {:induction false} NothingRecent(stamps: seq<nat>, now: nat, window: nat)
    requires forall t :: t in stamps ==> Since(now, t) >= window
    ensures Recent(stamps, now, window) == []
  {
    if stamps != [] {
      assert stamps == [stamps[0]] + stamps[1..];
      NothingRecent(stamps[1..], now, window);
    }
  }

  /** Time passes over a similar pair without telling them apart. */
  lemma SimilarLater(p: Policy, m: Buckets, plain: Buckets, clock: nat, now: nat)
    requires Similar(p, m, plain, clock) && clock <= now
    ensures Similar(p, m, plain, now)
  {
  }

  /** A dead bucket takes a failure like an absent one, unless its lockout is stale and the failure sets no new one. */
  lemma DeadIsAbsent(p: Policy, b: Bucket, now: nat)
    requires IsDead(b, now, p.window)
    ensures AfterFailure(p, b, now) == AfterFailure(p, EMPTY, now) <==> !StaleLock(b, now) || p.maxFailures <= 1
  {
    NothingRecent(b.failures, now, p.window);
  }

  lemma FailureKeepsSimilar(p: Policy, m: Buckets, plain: Buckets, ip: Ip, now: nat)
    requires Similar(p, m, plain, now) && !StaleLock(BucketOf(plain, ip), now)
    ensures Similar(p, Failed(p, m, ip, now), Failed(p, plain, ip, now), now)
  {
    if ip in plain && ip !in m {
      DeadIsAbsent(p, plain[ip], now);
    }
    RecentIsRecent(BucketOf(plain, ip).failures, now, p.window);
  }

  lemma SweepKeepsSimilar(p: Policy, s: Tracked, plain: Buckets, now: nat)
    requires Similar(p, s.buckets, plain, now)
    ensures Similar(p, Sweep(p, s, now).buckets, plain, now)
  {
  }

  lemma StepKeepsSimilar(p: Policy, s: Tracked, plain: Buckets, clock: nat, e: Event)
    requires Similar(p, s.buckets, plain, clock) && clock <= Clock(clock, e)
    requires e.Failure? ==> !StaleLock(BucketOf(plain, e.ip), e.now)
    ensures Similar(p, Step(p, s, e).buckets, PlainStep(p, plain, e), Clock(clock, e))
    ensures Answer(s.buckets, e) == Answer(plain, e)
  {
    SimilarLater(p, s.buckets, plain, clock, Clock(clock, e));
    if e.Failure? {
      FailureKeepsSimilar(p, s.buckets, plain, e.ip, e.now);
      SweepKeepsSimilar(p, s.(buckets := Failed(p, s.buckets, e.ip, e.now)), Failed(p, plain, e.ip, e.now), e.now);
    }
  }

  function PlainRun(p: Policy, m: Buckets, events: seq<Event>): Buckets
    decreases |events|
  {
    if events == [] then m else PlainRun(p, PlainStep(p, m, events[0]), events[1..])
  }

  function SweptRun(p: Policy, s: Tracked, events: seq<Event>): Tracked
    decreases |events|
  {
    if events == [] then s else SweptRun(p, Step(p, s, events[0]), events[1..])
  }

  /** Sweeping is invisible: in every run that meets no stale lockout, every check gets the plain limiter's answer. */
  lemma {:induction false} SweepingIsInvisible(p: Policy, s: Tracked, plain: Buckets, clock: nat, events: seq<Event>)
    requires Similar(p, s.buckets, plain, clock) && Monotone(clock, events)
    requires NoStaleFailures(p, plain, events)
    ensures Answers(p, s, events) == PlainAnswers(p, plain, events)
    ensures Agree(SweptRun(p, s, events).buckets, PlainRun(p, plain, events))
    decreases |events|
  {
    if events != [] {
      StepKeepsSimilar(p, s, plain, clock, events[0]);
      var e := events[0];
      SweepingIsInvisible(p, Step(p, s, e), PlainStep(p, plain, e), Clock(clock, e), events[1..]);
    }
  }

  /** A lockout lasts at least a lockout longer than the last admission; an address without a failure since has none. */
  ghost predicate LocksOutlast(p: Policy, m: Buckets, a: Admissions, clock: nat) {
    forall ip ::
      var until := BucketOf(m, ip).lockedUntil;
      && (ip in a.alone ==> until.None?)
      && (ip in a.last ==> a.last[ip] <= clock && (until.Some? ==> a.last[ip] + p.lockout <= until.value))
  }

  /** Where failures follow admitted checks, no failure meets a stale lockout. */
  lemma {:induction false} CheckedFailuresAreNotStale(p: Policy, m: Buckets, a: Admissions, clock: nat,
                                                      events: seq<Event>)
    requires LocksOutlast(p, m, a, clock) && Monotone(clock, events)
    requires FailuresFollowChecks(p, m, a, events)
    ensures NoStaleFailures(p, m, events)
    decreases |events|
  {
    if events != [] {
      var e := events[0];
      CheckedFailuresAreNotStale(p, PlainStep(p, m, e), Noted(a, m, e), Clock(clock, e), events[1..]);
    }
  }

  /** Every bucket was alive at the last sweep, or a check has emptied it since. */
  ghost predicate AliveAtSweep(s: Tracked, window: nat) {
    s.lastSweep.Some? ==>
      forall ip :: ip in s.buckets ==> s.buckets[ip] == EMPTY || !IsDead(s.buckets[ip], s.lastSweep.value, window)
  }

  /** After a failure the last sweep is less than a window ago, so no bucket dead for longer is still tracked. */
  lemma DeadDoNotLinger(p: Policy, s: Tracked, clock: nat, e: Event)
    requires p.window > 0 && AliveAtSweep(s, p.window) && (s.lastSweep.Some? ==> s.lastSweep.value <= clock)
    requires clock <= Clock(clock, e)
    ensures var after := Step(p, s, e);
            && AliveAtSweep(after, p.window) && (after.lastSweep.Some? ==> after.lastSweep.value <= Clock(clock, e))
            && (e.Failure? ==> after.lastSweep.Some? && e.now < after.lastSweep.value + p.window)
  {
    hide Recent;
    if e.Failure? {
      var m := Failed(p, s.buckets, e.ip, e.now);
      assert e.now in m[e.ip].failures;
    }
  }

  lemma {:induction false} DeadNeverLinger(p: Policy, s: Tracked, clock: nat, events: seq<Event>)
    requires p.window > 0 && AliveAtSweep(s, p.window) && (s.lastSweep.Some? ==> s.lastSweep.value <= clock)
    requires Monotone(clock, events)
    ensures AliveAtSweep(SweptRun(p, s, events), p.window)
    decreases |events|
  {
    hide Step, AliveAtSweep;
    if events != [] {
      DeadDoNotLinger(p, s, clock, events[0]);
      DeadNeverLinger(p, Step(p, s, events[0]), Clock(clock, events[0]), events[1..]);
    }
  }

  // ---- How many stamps a bucket may hold ----

  /** The stamps that lock a bucket: `maxFailures`, or one if that is zero. */
  function Enough(p: Policy): nat {
    if p.maxFailures == 0 then 1 else p.maxFailures
  }

  /**
   * The attempts in flight after a run that was given these answers, as long as no address ever had more
   * than `k` and each failure ended one; otherwise none.
   */
  function InFlight(k: nat, events: seq<Event>, answers: seq<bool>): Option<multiset<Ip>>
    decreases |events|
  {
    if events == [] then Some(multiset{})
    else
      var e, n := events[|events| - 1], |answers|;
      if e.Check? && n == 0 then None
      else
        match InFlight(k, events[..|events| - 1], if e.Check? then answers[..n - 1] else answers)
        case None => None
        case Some(open) => Attempted(k, open, e, e.Check? && answers[n - 1])
  }

  function Attempted(k: nat, open: multiset<Ip>, e: Event, admitted: bool): Option<multiset<Ip>> {
    match e
    case Check(ip, _) => if !admitted then Some(open) else if open[ip] < k then Some(open + multiset{ip}) else None
    case Failure(ip, _) => if ip in open then Some(open - multiset{ip}) else None
    case Success(ip) => Some(open - multiset{ip})
    case Leave(ip) => Some(open - multiset{ip})
  }

  lemma InFlightNext(k: nat, events: seq<Event>, e: Event, answers: seq<bool>, answer: seq<bool>)
    requires |answer| == if e.Check? then 1 else 0
    ensures InFlight(k, events + [e], answers + answer)
         == match InFlight(k, events, answers)
            case None => None
            case Some(open) => Attempted(k, open, e, e.Check? && answer[0])
  {
    assert (events + [e])[..|events|] == events;
    if e.Check? {
      assert (answers + answer)[..|answers|] == answers;
    } else {
      assert answers + answer == answers;
    }
  }

  /** Stamps and attempts in flight together stay within the bound; a bucket without a lockout has room. */
  ghost predicate Bounded(p: Policy, k: nat, m: Buckets, open: multiset<Ip>) {
    forall ip :: HasRoom(p, k, BucketOf(m, ip), open[ip])
  }

  predicate HasRoom(p: Policy, k: nat, b: Bucket, open: nat) {
    && open <= k && |b.failures| + open <= Enough(p) - 1 + k
    && (b.lockedUntil.None? ==> |b.failures| < Enough(p))
  }

  lemma BoundAt(p: Policy, k: nat, m: Buckets, open: multiset<Ip>, ip: Ip)
    requires Bounded(p, k, m, open) && ip in m
    ensures |m[ip].failures| <= Enough(p) - 1 + k
  {
    assert HasRoom(p, k, BucketOf(m, ip), open[ip]);
  }

  lemma FailureKeepsRoom(p: Policy, k: nat, b: Bucket, open: nat, now: nat)
    requires p.Valid() && HasRoom(p, k, b, open) && open > 0
    ensures HasRoom(p, k, AfterFailure(p, b, now), open - 1)
  {
    RecentIsShorter(b.failures, now, p.window);
  }

  lemma {:induction false} RecentIsShorter(stamps: seq<nat>, now: nat, window: nat)
    ensures |Recent(stamps, now, window)| <= |stamps|
  {
    if stamps != [] {
      RecentIsShorter(stamps[1..], now, window);
    }
  }

  lemma StepKeepsBounded(p: Policy, k: nat, m: Buckets, open: multiset<Ip>, e: Event)
    requires p.Valid() && Bounded(p, k, m, open)
    requires Attempted(k, open, e, e.Check? && Allowed(m, e.ip, e.now)).Some?
    ensures Bounded(p, k, PlainStep(p, m, e), Attempted(k, open, e, e.Check? && Allowed(m, e.ip, e.now)).value)
  {
    hide AfterFailure;
    if e.Failure? {
      FailureKeepsRoom(p, k, BucketOf(m, e.ip), open[e.ip], e.now);
    }
  }

  /** Losing buckets, to a sweep or an eviction, keeps the bound. */
  lemma FewerStayBounded(p: Policy, k: nat, m: Buckets, kept: Buckets, open: multiset<Ip>)
    requires Bounded(p, k, m, open) && Agree(kept, m)
    ensures Bounded(p, k, kept, open)
  {
  }

  lemma {:induction false} PlainNext(p: Policy, m: Buckets, events: seq<Event>, e: Event)
    ensures PlainRun(p, m, events + [e]) == PlainStep(p, PlainRun(p, m, events), e)
    ensures PlainAnswers(p, m, events + [e]) == PlainAnswers(p, m, events) + Answer(PlainRun(p, m, events), e)
    decreases |events|
  {
    hide PlainStep, Answer;
    if events == [] {
      assert (events + [e])[1..] == [];
    } else {
      PlainNext(p, PlainStep(p, m, events[0]), events[1..], e);
      assert (events + [e])[1..] == events[1..] + [e];
      ConcatAssociates(Answer(m, events[0]), PlainAnswers(p, PlainStep(p, m, events[0]), events[1..]),
                       Answer(PlainRun(p, m, events), e));
    }
  }

  /** With at most `k` attempts of an address in flight its bucket holds at most `Enough(p) - 1 + k` stamps. */
  lemma {:induction false} BucketsStayBounded(p: Policy, k: nat, events: seq<Event>)
    requires p.Valid() && InFlight(k, events, PlainAnswers(p, map[], events)).Some?
    ensures Bounded(p, k, PlainRun(p, map[], events), InFlight(k, events, PlainAnswers(p, map[], events)).value)
    decreases |events|
  {
    hide PlainStep, Bounded, Attempted;
    if events == [] {
      NothingIsBounded(p, k);
    } else {
      var before, e := events[..|events| - 1], events[|events| - 1];
      assert events == before + [e];
      PlainNext(p, map[], before, e);
      var m := PlainRun(p, map[], before);
      InFlightNext(k, before, e, PlainAnswers(p, map[], before), Answer(m, e));
      BucketsStayBounded(p, k, before);
      StepKeepsBounded(p, k, m, InFlight(k, before, PlainAnswers(p, map[], before)).value, e);
    }
  }

  lemma NothingIsBounded(p: Policy, k: nat)
    ensures Bounded(p, k, map[], multiset{})
  {
  }

  // The bound is reached: `Enough(p) - 1` attempts one after the other, then `k` at once.

  function OneByOne(n: nat): seq<Event> {
    if n == 0 then [] else OneByOne(n - 1) + [Check(0, 0)] + [Failure(0, 0)]
  }

  function Checks(start: seq<Event>, n: nat): seq<Event> {
    if n == 0 then start else Checks(start, n - 1) + [Check(0, 0)]
  }

  function Failures(start: seq<Event>, n: nat): seq<Event> {
    if n == 0 then start else Failures(start, n - 1) + [Failure(0, 0)]
  }

  function Overlap(p: Policy, k: nat): seq<Event> {
    Failures(Checks(OneByOne(Enough(p) - 1), k), k)
  }

  /** After these events address 0 has `n` failures at time zero and `open` attempts in flight. */
  ghost predicate Reached(p: Policy, k: nat, events: seq<Event>, n: nat, open: nat) {
    var m := PlainRun(p, map[], events);
    && InFlight(k, events, PlainAnswers(p, map[], events)) == Some(multiset{}[0 := open])
    && BucketOf(m, 0).failures == Zeros(n)
    && (n < Enough(p) ==> BucketOf(m, 0).lockedUntil.None?)
  }

  function Zeros(n: nat): seq<nat> {
    seq(n, _ => 0)
  }

  lemma {:induction false} ZerosAreRecent(n: nat, window: nat)
    requires window > 0
    ensures Recent(Zeros(n), 0, window) == Zeros(n)
  {
    if n > 0 {
      ZerosAreRecent(n - 1, window);
      assert Zeros(n)[1..] == Zeros(n - 1) && Zeros(n) == [0] + Zeros(n - 1);
    }
  }

  lemma ReachedCheck(p: Policy, k: nat, events: seq<Event>, n: nat, open: nat)
    requires Reached(p, k, events, n, open) && n < Enough(p) && open < k
    ensures Reached(p, k, events + [Check(0, 0)], n, open + 1)
  {
    hide InFlight, PlainRun, PlainAnswers;
    var m := PlainRun(p, map[], events);
    PlainNext(p, map[], events, Check(0, 0));
    InFlightNext(k, events, Check(0, 0), PlainAnswers(p, map[], events), Answer(m, Check(0, 0)));
    assert multiset{}[0 := open] + multiset{0} == multiset{}[0 := open + 1];
  }

  lemma ReachedFailure(p: Policy, k: nat, events: seq<Event>, n: nat, open: nat)
    requires p.Valid() && p.window > 0 && Reached(p, k, events, n, open) && open > 0
    ensures Reached(p, k, events + [Failure(0, 0)], n + 1, open - 1)
  {
    hide InFlight, PlainRun, PlainAnswers, Recent;
    var m := PlainRun(p, map[], events);
    PlainNext(p, map[], events, Failure(0, 0));
    InFlightNext(k, events, Failure(0, 0), PlainAnswers(p, map[], events), Answer(m, Failure(0, 0)));
    assert multiset{}[0 := open] - multiset{0} == multiset{}[0 := open - 1];
    ZerosAreRecent(n, p.window);
    assert Zeros(n) + [0] == Zeros(n + 1);
  }

  lemma NothingReached(p: Policy, k: nat)
    ensures Reached(p, k, [], 0, 0)
  {
    assert multiset{}[0 := 0] == multiset{};
  }

  lemma {:induction false} OneByOneReaches(p: Policy, k: nat, n: nat)
    requires p.Valid() && p.window > 0 && k > 0 && n < Enough(p)
    ensures Reached(p, k, OneByOne(n), n, 0)
  {
    hide Reached;
    if n == 0 {
      NothingReached(p, k);
    } else {
      OneByOneReaches(p, k, n - 1);
      ReachedCheck(p, k, OneByOne(n - 1), n - 1, 0);
      ReachedFailure(p, k, OneByOne(n - 1) + [Check(0, 0)], n - 1, 1);
    }
  }

  lemma {:induction false} ChecksReach(p: Policy, k: nat, events: seq<Event>, n: nat, open: nat)
    requires Reached(p, k, events, n, 0) && n < Enough(p) && open <= k
    ensures Reached(p, k, Checks(events, open), n, open)
  {
    hide Reached;
    if open > 0 {
      ChecksReach(p, k, events, n, open - 1);
      ReachedCheck(p, k, Checks(events, open - 1), n, open - 1);
    }
  }

  lemma {:induction false} FailuresReach(p: Policy, k: nat, events: seq<Event>, n: nat, open: nat, done: nat)
    requires p.Valid() && p.window > 0 && Reached(p, k, events, n, open) && done <= open
    ensures Reached(p, k, Failures(events, done), n + done, open - done)
  {
    hide Reached;
    if done > 0 {
      FailuresReach(p, k, events, n, open, done - 1);
      ReachedFailure(p, k, Failures(events, done - 1), n + (done - 1), open - (done - 1));
    }
  }

  lemma OverlapReaches(p: Policy, k: nat)
    requires p.Valid() && p.window > 0 && k > 0
    ensures Reached(p, k, Overlap(p, k), Enough(p) - 1 + k, 0)
  {
    hide Reached;
    var n := Enough(p) - 1;
    OneByOneReaches(p, k, n);
    ChecksReach(p, k, OneByOne(n), n, k);
    FailuresReach(p, k, Checks(OneByOne(n), k), n, k, k);
  }

  /** No bucket of the plain limiter exceeds the bound in any run with at most `k` attempts in flight. */
  ghost predicate AlwaysAtMost(p: Policy, k: nat, bound: nat) {
    forall events, ip ::
      InFlight(k, events, PlainAnswers(p, map[], events)).Some? && ip in PlainRun(p, map[], events) ==>
        |PlainRun(p, map[], events)[ip].failures| <= bound
  }

  /** The least bound on stamps is `Enough(p) - 1 + k`, so `maxFailures` bounds them exactly without overlaps. */
  lemma StampBoundExactly(p: Policy, k: nat, bound: nat)
    requires p.Valid() && p.window > 0 && k > 0
    ensures AlwaysAtMost(p, k, bound) <==> Enough(p) - 1 + k <= bound
    ensures AlwaysAtMost(p, k, Enough(p)) <==> k == 1
  {
    hide InFlight, PlainRun, PlainAnswers, Overlap;
    forall events, ip |
      InFlight(k, events, PlainAnswers(p, map[], events)).Some? && ip in PlainRun(p, map[], events)
      ensures |PlainRun(p, map[], events)[ip].failures| <= Enough(p) - 1 + k
    {
      BucketsStayBounded(p, k, events);
      BoundAt(p, k, PlainRun(p, map[], events), InFlight(k, events, PlainAnswers(p, map[], events)).value, ip);
    }
    OverlapReaches(p, k);
    assert 0 in PlainRun(p, map[], Overlap(p, k));
  }

  // ---- What the answers mean, without buckets ----

  /** The failure at `i` brings the failures inside its window to the limit. */
  predicate LocksAt(p: Policy, f: seq<nat>, i: nat)
    requires i < |f|
  {
    AsU32(|Recent(f[..i], f[i], p.window)| + 1) >= p.maxFailures
  }

  /** Some failure reached the limit and its lockout still covers `t`. */
  predicate RefusedBy(p: Policy, f: seq<nat>, t: nat) {
    exists i :: 0 <= i < |f| && LocksAt(p, f, i) && f[i] <= t < f[i] + p.lockout
  }

  /** The failures of an address since its last reset: a success, or an admitted check after a lockout. */
  function Trail(p: Policy, log: seq<Event>, ip: Ip): seq<nat>
    decreases |log|
  {
    if log == [] then []
    else
      var f, e := Trail(p, log[..|log| - 1], ip), log[|log| - 1];
      if e.ip != ip then f
      else match e
           case Success(_) => []
           case Failure(_, now) => f + [now]
           case Leave(_) => f
           case Check(_, now) =>
             if Ended(p, f, now) then [] else f
  }

  /** The answers to a run after a log: a check is refused exactly when the address's trail says so. */
  function MeantAnswers(p: Policy, log: seq<Event>, events: seq<Event>): seq<bool>
    decreases |events|
  {
    if events == [] then []
    else (if events[0].Check? then [!RefusedBy(p, Trail(p, log, events[0].ip), events[0].now)] else [])
         + MeantAnswers(p, log + [events[0]], events[1..])
  }

  function LastLock(p: Policy, f: seq<nat>): Option<nat>
    decreases |f|
  {
    if f == [] then None
    else if LocksAt(p, f, |f| - 1) then Some(f[|f| - 1] + p.lockout)
    else LastLock(p, f[..|f| - 1])
  }

  predicate Ordered(f: seq<nat>, clock: nat) {
    forall i, j :: 0 <= i <= j < |f| ==> f[i] <= f[j] <= clock
  }

  /** A bucket is what its address's trail of failures leaves behind. */
  ghost predicate Reflects(p: Policy, b: Bucket, f: seq<nat>) {
    && b.lockedUntil == LastLock(p, f)
    && b.failures == if f == [] then [] else Recent(f[..|f| - 1], f[|f| - 1], p.window) + [f[|f| - 1]]
  }

  lemma LocksInPrefix(p: Policy, f: seq<nat>, i: nat, n: nat)
    requires i < n <= |f|
    ensures LocksAt(p, f[..n], i) <==> LocksAt(p, f, i)
  {
    assert f[..n][..i] == f[..i];
  }

  lemma {:induction false} LastLockRefuses(p: Policy, f: seq<nat>, t: nat)
    requires Ordered(f, t)
    ensures LastLock(p, f).Some? <==> exists i :: 0 <= i < |f| && LocksAt(p, f, i)
    ensures (LastLock(p, f).Some? && t < LastLock(p, f).value) <==> RefusedBy(p, f, t)
    ensures f != [] && LastLock(p, f).Some? ==> LastLock(p, f).value <= f[|f| - 1] + p.lockout
    decreases |f|
  {
    hide LocksAt;
    if f != [] {
      var n := |f| - 1;
      LastLockRefuses(p, f[..n], t);
      forall i | 0 <= i < n
        ensures LocksAt(p, f[..n], i) <==> LocksAt(p, f, i)
      {
        LocksInPrefix(p, f, i, n);
      }
    }
  }

  /** Dropping what was too old at `u` loses nothing that is recent at a later `t`. */
  lemma {:induction false} RecentTwice(g: seq<nat>, u: nat, t: nat, window: nat)
    requires u <= t && forall i :: 0 <= i < |g| ==> g[i] <= u
    ensures Recent(Recent(g, u, window), t, window) == Recent(g, t, window)
  {
    if g != [] {
      RecentTwice(g[1..], u, t, window);
      var kept := Recent(g[1..], u, window);
      if Since(u, g[0]) < window {
        assert ([g[0]] + kept)[1..] == kept;
      } else {
        assert [] + kept == kept;
      }
    }
  }

  lemma FailureReflects(p: Policy, b: Bucket, f: seq<nat>, now: nat)
    requires Reflects(p, b, f) && Ordered(f, now)
    ensures Reflects(p, AfterFailure(p, b, now), f + [now])
  {
    var g := f + [now];
    assert g[..|f|] == f;
    if f != [] {
      var n := |f| - 1;
      assert f == f[..n] + [f[n]];
      RecentTwice(f[..n], f[n], now, p.window);
      RecentSnoc(Recent(f[..n], f[n], p.window), f[n], now, p.window);
      RecentSnoc(f[..n], f[n], now, p.window);
    }
  }

  /** After every log, every bucket of the plain limiter reflects its address's trail. */
  ghost predicate AllReflect(p: Policy, m: Buckets, log: seq<Event>, clock: nat) {
    forall ip :: Reflects(p, BucketOf(m, ip), Trail(p, log, ip)) && Ordered(Trail(p, log, ip), clock)
  }

  /** A check after a lockout starts a new trail. */
  predicate Ended(p: Policy, f: seq<nat>, now: nat) {
    (exists i :: 0 <= i < |f| && LocksAt(p, f, i)) && !RefusedBy(p, f, now)
  }

  lemma CheckReflects(p: Policy, b: Bucket, f: seq<nat>, now: nat)
    requires Reflects(p, b, f) && Ordered(f, now)
    ensures Reflects(p, AfterCheck(b, now), if Ended(p, f, now) then [] else f)
    ensures Locked(b, now) <==> RefusedBy(p, f, now)
  {
    hide LocksAt, RefusedBy;
    LastLockRefuses(p, f, now);
  }

  lemma NothingReflects(p: Policy)
    ensures Reflects(p, EMPTY, [])
  {
  }

  lemma TrailGrows(p: Policy, m: Buckets, log: seq<Event>, clock: nat, e: Event, ip: Ip)
    requires Reflects(p, BucketOf(m, ip), Trail(p, log, ip)) && Ordered(Trail(p, log, ip), clock)
    requires clock <= Clock(clock, e)
    ensures Reflects(p, BucketOf(PlainStep(p, m, e), ip), Trail(p, log + [e], ip))
    ensures Ordered(Trail(p, log + [e], ip), Clock(clock, e))
  {
    hide Reflects, Ended, AfterFailure;
    var f := Trail(p, log, ip);
    assert (log + [e])[..|log|] == log;
    NothingReflects(p);
    if e.ip == ip {
      match e
      case Failure(_, now) => FailureReflects(p, BucketOf(m, ip), f, now);
      case Check(_, now) => CheckReflects(p, BucketOf(m, ip), f, now);
      case Success(_) =>
      case Leave(_) =>
    }
  }

  /** The plain limiter refuses exactly what the trails say. */
  lemma {:induction false} PlainMeans(p: Policy, m: Buckets, log: seq<Event>, clock: nat, events: seq<Event>)
    requires AllReflect(p, m, log, clock) && Monotone(clock, events)
    ensures PlainAnswers(p, m, events) == MeantAnswers(p, log, events)
    decreases |events|
  {
    hide Reflects, Trail, RefusedBy, PlainStep;
    if events != [] {
      var e := events[0];
      forall ip ensures Reflects(p, BucketOf(PlainStep(p, m, e), ip), Trail(p, log + [e], ip))
                     && Ordered(Trail(p, log + [e], ip), Clock(clock, e))
      {
        TrailGrows(p, m, log, clock, e, ip);
      }
      if e.Check? {
        CheckReflects(p, BucketOf(m, e.ip), Trail(p, log, e.ip), e.now);
      }
      PlainMeans(p, PlainStep(p, m, e), log + [e], Clock(clock, e), events[1..]);
    }
  }

  /**
   * The daemon's limiter over a whole run in which time is monotone and the cap forces no eviction. If no
   * failure meets a stale lockout it answers like a limiter that never forgets, and refuses an address
   * exactly while the lockout of a limit-reaching failure since its last reset lasts. Failures that follow
   * admitted checks meet none. In every run, evictions or not, a bucket holds at most as many stamps as
   * lock it, less one, plus the attempts of its address that were in flight together.
   */
  method Serve(policy: Policy, events: seq<Event>, ghost k: nat) returns (limiter: RateLimiter, answers: seq<bool>)
    ensures Monotone(0, events) && Fits(policy, Tracked(map[], None), events)
            && NoStaleFailures(policy, map[], events) ==>
              answers == PlainAnswers(policy, map[], events) == MeantAnswers(policy, [], events)
    ensures Monotone(0, events) && FailuresFollowChecks(policy, map[], NO_ADMISSIONS, events) ==>
              NoStaleFailures(policy, map[], events)
    ensures policy.Valid() && InFlight(k, events, answers).Some? ==>
              forall ip :: ip in limiter.state.buckets ==>
                |limiter.state.buckets[ip].failures| <= Enough(policy) - 1 + k
  {
    limiter := new RateLimiter(policy);
    answers := Drive(limiter, events, k);
    if Monotone(0, events) && FailuresFollowChecks(policy, map[], NO_ADMISSIONS, events) {
      CheckedFailuresAreNotStale(policy, map[], NO_ADMISSIONS, 0, events);
    }
    if Monotone(0, events) && NoStaleFailures(policy, map[], events) {
      SweepingIsInvisible(policy, Tracked(map[], None), map[], 0, events);
      NothingReflects(policy);
      PlainMeans(policy, map[], [], 0, events);
    }
    if policy.Valid() && InFlight(k, events, answers).Some? {
      ghost var m := limiter.state.buckets;
      forall ip | ip in m ensures |m[ip].failures| <= Enough(policy) - 1 + k {
        BoundAt(policy, k, m, InFlight(k, events, answers).value, ip);
      }
    }
  }

  /** Feeds a run to a new limiter; without evictions it is the run of `Step`. */
  method Drive(limiter: RateLimiter, events: seq<Event>, ghost k: nat) returns (answers: seq<bool>)
    requires limiter.state == Tracked(map[], None)
    modifies limiter
    ensures Fits(limiter.policy, Tracked(map[], None), events) ==>
              && answers == Answers(limiter.policy, Tracked(map[], None), events)
              && limiter.state == SweptRun(limiter.policy, Tracked(map[], None), events)
    ensures BoundedAfter(limiter.policy, k, events, answers, limiter.state.buckets)
  {
    hide Step, BoundedAfter;
    answers := [];
    ghost var p, start := limiter.policy, limiter.state;
    NothingBoundedAfter(p, k);
    for i := 0 to |events|
      invariant Fits(p, start, events) ==>
                  && Fits(p, limiter.state, events[i..])
                  && Answers(p, start, events) == answers + Answers(p, limiter.state, events[i..])
                  && SweptRun(p, start, events) == SweptRun(p, limiter.state, events[i..])
      invariant BoundedAfter(p, k, events[..i], answers, limiter.state.buckets)
    {
      UnfoldRun(p, limiter.state, events, i, answers);
      ghost var m := limiter.state.buckets;
      var answer := Handle(limiter, events[i]);
      BoundedNext(p, k, events[..i], answers, m, events[i], limiter.state.buckets);
      assert events[..i + 1] == events[..i] + [events[i]];
      answers := answers + answer;
    }
    assert events[..|events|] == events;
  }

  ghost predicate BoundedAfter(p: Policy, k: nat, events: seq<Event>, answers: seq<bool>, m: Buckets) {
    p.Valid() && InFlight(k, events, answers).Some? ==> Bounded(p, k, m, InFlight(k, events, answers).value)
  }

  lemma NothingBoundedAfter(p: Policy, k: nat)
    ensures BoundedAfter(p, k, [], [], map[])
  {
  }

  lemma BoundedNext(p: Policy, k: nat, events: seq<Event>, answers: seq<bool>, m: Buckets, e: Event, after: Buckets)
    requires BoundedAfter(p, k, events, answers, m) && Agree(after, PlainStep(p, m, e))
    ensures BoundedAfter(p, k, events + [e], answers + Answer(m, e), after)
  {
    hide Bounded, Attempted, InFlight, PlainStep;
    InFlightNext(k, events, e, answers, Answer(m, e));
    if p.Valid() && InFlight(k, events + [e], answers + Answer(m, e)).Some? {
      var open := InFlight(k, events, answers).value;
      StepKeepsBounded(p, k, m, open, e);
      FewerStayBounded(p, k, PlainStep(p, m, e), after, InFlight(k, events + [e], answers + Answer(m, e)).value);
    }
  }

  method Handle(limiter: RateLimiter, e: Event) returns (answer: seq<bool>)
    modifies limiter
    ensures answer == Answer(old(limiter.state).buckets, e)
    ensures (e.Failure? ==> |Step(limiter.policy, old(limiter.state), e).buckets| <= limiter.policy.maxTracked) ==>
              limiter.state == Step(limiter.policy, old(limiter.state), e)
    ensures Agree(limiter.state.buckets, PlainStep(limiter.policy, old(limiter.state).buckets, e))
  {
    hide AfterFailure, IsDead, ExpiresAt;
    answer := [];
    match e
    case Check(ip, now) =>
      var allowed := limiter.CheckAddress(ip, now);
      answer := [allowed];
    case Failure(ip, now) => limiter.RecordFailure(ip, now);
    case Success(ip) => limiter.RecordSuccess(ip);
    case Leave(_) =>
  }

  lemma UnfoldRun(p: Policy, s: Tracked, events: seq<Event>, i: nat, done: seq<bool>)
    requires i < |events|
    ensures var next := Step(p, s, events[i]);
            && done + Answers(p, s, events[i..])
               == done + Answer(s.buckets, events[i]) + Answers(p, next, events[i + 1..])
            && SweptRun(p, s, events[i..]) == SweptRun(p, next, events[i + 1..])
            && (Fits(p, s, events[i..]) ==>
                  && (events[i].Failure? ==> |next.buckets| <= p.maxTracked)
                  && Fits(p, next, events[i + 1..]))
  {
    assert events[i..][1..] == events[i + 1..];
    ConcatAssociates(done, Answer(s.buckets, events[i]), Answers(p, Step(p, s, events[i]), events[i + 1..]));
  }

  // The condition on stale lockouts is needed: a run on which sweeping shows.

  const STALE_POLICY := Policy(2, 10, 5, 100)
  const STALE_RUN: seq<Event> :=
    [Check(1, 0), Check(1, 0), Check(1, 0), Failure(1, 0), Failure(1, 1), Check(2, 20), Failure(2, 20),
     Failure(1, 21), Check(1, 22), Failure(1, 23), Check(1, 24)]
  const SWEPT_ANSWERS := [true, true, true, true, true, false]
  const PLAIN_ANSWERS := [true, true, true, true, true, true]

  /**
   * Three attempts of address 1 are admitted at once. Two fail and lock it until 6; it is swept, dead, at 20.
   * The third attempt outlasts the lockout and fails at 21: the plain limiter keeps the stale lockout, so that
   * the check at 22 forgets the failure and the one at 23 locks nothing, while the sweeping one refuses at 24.
   */
  lemma StaleLockoutShows()
    ensures Monotone(0, STALE_RUN)
    ensures Answers(STALE_POLICY, Tracked(map[], None), STALE_RUN) == SWEPT_ANSWERS
    ensures PlainAnswers(STALE_POLICY, map[], STALE_RUN) == PLAIN_ANSWERS
    ensures InFlight(3, STALE_RUN, SWEPT_ANSWERS).Some? && InFlight(3, STALE_RUN, PLAIN_ANSWERS).Some?
  {
    hide Answers, PlainAnswers, InFlight, Monotone;
    OrderedIsMonotone(0, STALE_RUN);
    SweptStaleRun();
    PlainStaleRun();
    StaleAttempts(SWEPT_ANSWERS);
    StaleAttempts(PLAIN_ANSWERS);
  }

  lemma {:induction false} OrderedIsMonotone(clock: nat, events: seq<Event>)
    requires forall i :: 0 <= i < |events| ==> (events[i].Check? || events[i].Failure?) && clock <= events[i].now
    requires forall i, j :: 0 <= i < j < |events| ==> events[i].now <= events[j].now
    ensures Monotone(clock, events)
    decreases |events|
  {
    if events != [] { OrderedIsMonotone(events[0].now, events[1..]); }
  }

  /** Each failure of the run ends an attempt of its own, and no address has more than three in flight. */
  lemma StaleAttempts(answers: seq<bool>)
    requires |answers| == 6 && forall i :: 0 <= i < 5 ==> answers[i]
    ensures InFlight(3, STALE_RUN, answers).Some?
  {
    hide InFlight;
    var run := STALE_RUN;
    EarlyAttempts(answers);
    assert multiset{1} + multiset{2} == multiset{1, 2} && multiset{1, 2} - multiset{2} == multiset{1};
    assert multiset{1} - multiset{1} == multiset{} && multiset{} + multiset{1} == multiset{1};
    StaleAttempt(run, answers, 5, 3, multiset{1});
    StaleAttempt(run, answers, 6, 4, multiset{1, 2});
    StaleAttempt(run, answers, 7, 4, multiset{1});
    StaleAttempt(run, answers, 8, 4, multiset{});
    StaleAttempt(run, answers, 9, 5, multiset{1});
    StaleAttempt(run, answers, 10, 5, multiset{});
    assert run[..11] == run && answers[..6] == answers;
  }

  lemma EarlyAttempts(answers: seq<bool>)
    requires |answers| == 6 && forall i :: 0 <= i < 5 ==> answers[i]
    ensures InFlight(3, STALE_RUN[..5], answers[..3]) == Some(multiset{1})
  {
    hide InFlight, Attempted, Alone;
    var run := STALE_RUN;
    InFlightStart();
    Attempts(0);
    Attempts(1);
    Attempts(2);
    StaleAttempt(run, answers, 0, 0, Alone(0));
    StaleAttempt(run, answers, 1, 1, Alone(1));
    StaleAttempt(run, answers, 2, 2, Alone(2));
    StaleAttempt(run, answers, 3, 3, Alone(3));
    StaleAttempt(run, answers, 4, 3, Alone(2));
    OneAlone();
  }

  lemma OneAlone()
    ensures Alone(1) == multiset{1}
  {
  }

  /** So many attempts of address 1 and no others. */
  function Alone(n: nat): multiset<Ip> {
    multiset{}[1 := n]
  }

  lemma Attempts(n: nat)
    requires n < 3
    ensures Attempted(3, Alone(n), Check(1, 0), true) == Some(Alone(n + 1))
    ensures forall now :: Attempted(3, Alone(n + 1), Failure(1, now), false) == Some(Alone(n))
  {
    assert Alone(n) + multiset{1} == Alone(n + 1) && Alone(n + 1) - multiset{1} == Alone(n);
  }

  lemma InFlightStart()
    ensures forall answers: seq<bool> :: InFlight(3, STALE_RUN[..0], answers[..0]) == Some(Alone(0))
  {
    assert Alone(0) == multiset{};
  }

  lemma StaleAttempt(run: seq<Event>, answers: seq<bool>, i: nat, j: nat, open: multiset<Ip>)
    requires i < |run| && j < |answers|
    requires InFlight(3, run[..i], answers[..j]) == Some(open)
    ensures var e := run[i];
            InFlight(3, run[..i + 1], answers[..if e.Check? then j + 1 else j])
            == Attempted(3, open, e, e.Check? && answers[j])
  {
    hide InFlight, Attempted;
    var e := run[i];
    var answer := if e.Check? then [answers[j]] else [];
    InFlightNext(3, run[..i], e, answers[..j], answer);
    assert run[..i + 1] == run[..i] + [e];
    assert answers[..if e.Check? then j + 1 else j] == answers[..j] + answer;
  }

  const FIRST: Buckets := map[1 := Bucket([0], None)]
  const LOCKED: Buckets := map[1 := Bucket([0, 1], Some(6))]
  const SWEPT: Buckets := map[2 := Bucket([20], None)]

  /** The failures at 0 and 1 lock address 1; at 20 it is dead. */
  lemma Locking()
    ensures Failed(STALE_POLICY, map[], 1, 0) == FIRST
    ensures Failed(STALE_POLICY, FIRST, 1, 1) == LOCKED
    ensures Swept(FIRST, 0, 10) == FIRST && Swept(LOCKED[2 := Bucket([20], None)], 20, 10) == SWEPT
  {
    assert AfterFailure(STALE_POLICY, EMPTY, 0) == Bucket([0], None);
    assert Recent([0], 1, 10) == [0] && [0] + [1] == [0, 1];
    assert AfterFailure(STALE_POLICY, Bucket([0], None), 1) == Bucket([0, 1], Some(6));
    assert 20 in [20] && 0 in [0];
    assert IsDead(LOCKED[1], 20, 10) && !IsDead(Bucket([20], None), 20, 10) && !IsDead(FIRST[1], 0, 10);
  }

  lemma Forgetting()
    ensures AfterFailure(STALE_POLICY, EMPTY, 20) == Bucket([20], None)
    ensures AfterFailure(STALE_POLICY, EMPTY, 21) == Bucket([21], None)
    ensures AfterFailure(STALE_POLICY, Bucket([21], None), 23) == Bucket([21, 23], Some(28))
    ensures AfterFailure(STALE_POLICY, LOCKED[1], 21) == Bucket([21], Some(6))
    ensures AfterFailure(STALE_POLICY, EMPTY, 23) == Bucket([23], None)
  {
    assert Recent([21], 23, 10) == [21];
    NothingRecent([0, 1], 21, 10);
  }

  lemma EarlySteps()
    ensures Step(STALE_POLICY, Tracked(map[], None), Check(1, 0)) == Tracked(map[], None)
    ensures Step(STALE_POLICY, Tracked(LOCKED, Some(0)), Check(2, 20)) == Tracked(LOCKED, Some(0))
    ensures Step(STALE_POLICY, Tracked(map[], None), Failure(1, 0)) == Tracked(FIRST, Some(0))
    ensures Step(STALE_POLICY, Tracked(FIRST, Some(0)), Failure(1, 1)) == Tracked(LOCKED, Some(0))
    ensures Step(STALE_POLICY, Tracked(LOCKED, Some(0)), Failure(2, 20)) == Tracked(SWEPT, Some(20))
  {
    hide AfterFailure, Swept;
    Locking();
    Forgetting();
  }

  lemma LateSteps()
    ensures var unlocked, locked := SWEPT[1 := Bucket([21], None)], SWEPT[1 := Bucket([21, 23], Some(28))];
            && Step(STALE_POLICY, Tracked(SWEPT, Some(20)), Failure(1, 21)) == Tracked(unlocked, Some(20))
            && Step(STALE_POLICY, Tracked(unlocked, Some(20)), Check(1, 22)) == Tracked(unlocked, Some(20))
            && Step(STALE_POLICY, Tracked(unlocked, Some(20)), Failure(1, 23)) == Tracked(locked, Some(20))
  {
    hide AfterFailure, Swept;
    Forgetting();
  }

  lemma SweptStaleRun()
    ensures Answers(STALE_POLICY, Tracked(map[], None), STALE_RUN) == SWEPT_ANSWERS
  {
    hide Answers, Step;
    var p, run := STALE_POLICY, STALE_RUN;
    var s1, s2, s3 := Tracked(FIRST, Some(0)), Tracked(LOCKED, Some(0)), Tracked(SWEPT, Some(20));
    EarlySteps();
    StaleStep(0, Tracked(map[], None), Tracked(map[], None));
    StaleStep(1, Tracked(map[], None), Tracked(map[], None));
    StaleStep(2, Tracked(map[], None), Tracked(map[], None));
    StaleStep(3, Tracked(map[], None), s1);
    StaleStep(4, s1, s2);
    StaleStep(5, s2, s2);
    StaleStep(6, s2, s3);
    SweptLateRun();
    assert run[0..] == run;
  }

  lemma SweptLateRun()
    ensures Answers(STALE_POLICY, Tracked(SWEPT, Some(20)), STALE_RUN[7..]) == [true, false]
  {
    hide Answers, Step;
    var p, run := STALE_POLICY, STALE_RUN;
    var s4 := Tracked(SWEPT[1 := Bucket([21], None)], Some(20));
    var s5 := Tracked(SWEPT[1 := Bucket([21, 23], Some(28))], Some(20));
    LateSteps();
    StaleStep(7, Tracked(SWEPT, Some(20)), s4);
    StaleStep(8, s4, s4);
    StaleStep(9, s4, s5);
    StaleStep(10, s5, Step(p, s5, run[10]));
    NoMoreAnswers(p, Step(p, s5, run[10]));
    assert run[11..] == [];
  }

  lemma StaleStep(i: nat, s: Tracked, next: Tracked)
    requires i < |STALE_RUN| && Step(STALE_POLICY, s, STALE_RUN[i]) == next
    ensures Answers(STALE_POLICY, s, STALE_RUN[i..])
         == Answer(s.buckets, STALE_RUN[i]) + Answers(STALE_POLICY, next, STALE_RUN[i + 1..])
  {
    hide Step;
    assert STALE_RUN[i..][1..] == STALE_RUN[i + 1..];
  }

  lemma NoMoreAnswers(p: Policy, s: Tracked)
    ensures Answers(p, s, []) == []
  {
  }

  lemma PlainStaleRun()
    ensures PlainAnswers(STALE_POLICY, map[], STALE_RUN) == PLAIN_ANSWERS
  {
    hide AfterFailure, PlainAnswers, PlainRun;
    Locking();
    Forgetting();
    PlainStaleStep(0, map[], map[]);
    PlainStaleStep(1, map[], map[]);
    PlainStaleStep(2, map[], map[]);
    PlainStaleStep(3, map[], FIRST);
    PlainStaleStep(4, FIRST, LOCKED);
    PlainStaleStep(5, LOCKED, LOCKED);
    PlainStaleStep(6, LOCKED, LOCKED[2 := Bucket([20], None)]);
    PlainLateRun();
    assert STALE_RUN[0..] == STALE_RUN;
  }

  lemma PlainLateRun()
    ensures PlainAnswers(STALE_POLICY, LOCKED[2 := Bucket([20], None)], STALE_RUN[7..]) == [true, true]
  {
    hide AfterFailure, PlainAnswers, PlainRun;
    Forgetting();
    var m3: Buckets := LOCKED[2 := Bucket([20], None)];
    var m4 := m3[1 := Bucket([21], Some(6))];
    var m5, m6 := m3[1 := EMPTY], m3[1 := Bucket([23], None)];
    PlainStaleStep(7, m3, m4);
    PlainStaleStep(8, m4, m5);
    PlainStaleStep(9, m5, m6);
    PlainStaleStep(10, m6, m6);
    NoMorePlainAnswers(STALE_POLICY, m6);
    assert STALE_RUN[11..] == [];
  }

  lemma NoMorePlainAnswers(p: Policy, m: Buckets)
    ensures PlainAnswers(p, m, []) == []
  {
  }

  lemma PlainStaleStep(i: nat, m: Buckets, next: Buckets)
    requires i < |STALE_RUN| && PlainStep(STALE_POLICY, m, STALE_RUN[i]) == next
    ensures PlainAnswers(STALE_POLICY, m, STALE_RUN[i..])
         == Answer(m, STALE_RUN[i]) + PlainAnswers(STALE_POLICY, next, STALE_RUN[i + 1..])
  {
    assert STALE_RUN[i..][1..] == STALE_RUN[i + 1..];
  }
}
