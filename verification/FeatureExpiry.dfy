/** The time-to-live of a customer's feature keys against the velocity window. Redis counts the one on its own
    clock, the window is measured in event times; what relates them is how far an event may lag behind, or run
    ahead of, the clock when it is observed. Times are milliseconds. */
module FeatureExpiry {
  import opened Domain
  import opened Features

  /** An observe call and the time on the clock of Redis when the script runs. */
  datatype Call = Call(o: Obs, clock: int)

  /** The store with the time at which each customer's keys expire. */
  datatype Timed = Timed(redis: Redis, deadlines: map<string, int>)

  const FRESH := Timed(EMPTY_REDIS, map[])

  /** The store as a script finds it that runs for the customer at this time. */
  function Found(t: Timed, customer: string, clock: int): Redis {
    if customer in t.deadlines && clock > t.deadlines[customer] then
      t.redis.(velocity := t.redis.velocity - {customer}, devices := t.redis.devices - {customer},
        baseline := t.redis.baseline - {customer})
    else t.redis
  }

  /** _OBSERVE_SCRIPT with its EXPIRE calls; a cached snapshot returns before them. */
  function ObserveAt(t: Timed, window: int, ttl: int, c: Call): (Timed, Snapshot) {
    if c.o.eventId in t.redis.snapshots then (t, t.redis.snapshots[c.o.eventId])
    else
      var (redis, snapshot) := Observe(Found(t, c.o.customer, c.clock), window, c.o);
      (Timed(redis, t.deadlines[c.o.customer := c.clock + ttl]), snapshot)
  }

  function AfterCalls(window: int, ttl: int, cs: seq<Call>): Timed {
    if cs == [] then FRESH else ObserveAt(AfterCalls(window, ttl, cs[..|cs| - 1]), window, ttl, cs[|cs| - 1]).0
  }

  /** The snapshot the k-th call returns. */
  function ReturnedAt(window: int, ttl: int, cs: seq<Call>, k: nat): Snapshot
    requires k < |cs|
  { ObserveAt(AfterCalls(window, ttl, cs[..k]), window, ttl, cs[k]).1 }

  function Plain(cs: seq<Call>): seq<Obs> { seq(|cs|, i requires 0 <= i < |cs| => cs[i].o) }

  /** Window and time-to-live, and the bounds on observing an event late or early. */
  datatype Bounds = Bounds(window: int, ttl: int, lag: int, ahead: int)

  predicate Enough(b: Bounds) { b.ttl >= b.window + b.lag + b.ahead }

  /** The event is observed at most `lag` after and `ahead` before its time. */
  predicate InTime(c: Call, b: Bounds) { c.clock - b.lag <= c.o.at <= c.clock + b.ahead }

  /** The clock does not go back, and every event is observed in time. */
  ghost predicate Clocked(cs: seq<Call>, b: Bounds) {
    && (forall i, j | 0 <= i < j < |cs| :: cs[i].clock <= cs[j].clock)
    && (forall i | 0 <= i < |cs| :: InTime(cs[i], b))
  }

  // ---------------------------------------------------------------- lost entries are out of the window

  /** The set of a customer with expiry, against the one without: what is missing lies before every window
      still to come, and nothing in it is newer than its deadline allows. */
  ghost predicate Behind(z: SortedSet, plain: SortedSet, horizon: int, newest: int) {
    && (forall m | m in z :: m in plain && z[m] == plain[m] && z[m] <= newest)
    && (forall m | m in plain && m !in z :: plain[m] < horizon)
  }

  /** How the store with expiry relates to the one without for one customer, the clock showing `now`. */
  ghost predicate Follows(t: Timed, r: Redis, x: string, now: int, b: Bounds) {
    && t.redis.snapshots.Keys == r.snapshots.Keys
    && (x !in t.deadlines ==> Z(t.redis, x) == map[] && Z(r, x) == map[])
    && (x in t.deadlines ==>
          && t.deadlines[x] <= now + b.ttl
          && Behind(Z(t.redis, x), Z(r, x), now - b.lag - b.window, t.deadlines[x] - b.ttl + b.ahead))
  }

  /** Both sets are the same once the entries before the window are removed. */
  lemma SameInWindow(z: SortedSet, plain: SortedSet, horizon: int, newest: int, start: int)
    requires Behind(z, plain, horizon, newest) && horizon <= start
    ensures ZRemRangeBelow(z, start) == ZRemRangeBelow(plain, start)
  {
  }

  /** What a script that runs for the customer finds still follows. */
  lemma FoundFollows(t: Timed, r: Redis, x: string, before: int, now: int, b: Bounds)
    requires Follows(t, r, x, before, b) && before <= now && Enough(b)
    ensures Behind(Z(Found(t, x, now), x), Z(r, x), now - b.lag - b.window, now + b.ahead)
  {
  }

  lemma ObserveSets(r: Redis, window: int, o: Obs, x: string)
    requires o.eventId !in r.snapshots
    ensures var n := Observe(r, window, o).0;
            && n.snapshots.Keys == r.snapshots.Keys + {o.eventId}
            && (x != o.customer ==> Z(n, x) == Z(r, x))
            && (x == o.customer ==> Z(n, x) == ZRemRangeBelow(Z(r, x), o.at - window)[o.paymentId := o.at])
    ensures var (n, f) := Observe(r, window, o);
            f.velocity == ZCount(Z(n, o.customer), o.at - window, o.at)
  {
    hide ZCount, ZRemRangeBelow;
  }

  lemma OwnCall(t: Timed, r: Redis, c: Call, before: int, b: Bounds)
    requires Follows(t, r, c.o.customer, before, b) && c.o.eventId !in r.snapshots
    requires before <= c.clock && InTime(c, b) && Enough(b)
    ensures Follows(ObserveAt(t, b.window, b.ttl, c).0, Observe(r, b.window, c.o).0, c.o.customer, c.clock, b)
    ensures ObserveAt(t, b.window, b.ttl, c).1.velocity == Observe(r, b.window, c.o).1.velocity
  {
    hide Observe, ZCount, ZRemRangeBelow, Behind;
    var x, start := c.o.customer, c.o.at - b.window;
    FoundFollows(t, r, x, before, c.clock, b);
    var found := Found(t, x, c.clock);
    SameInWindow(Z(found, x), Z(r, x), c.clock - b.lag - b.window, c.clock + b.ahead, start);
    assert found.snapshots == t.redis.snapshots;
    ObserveSets(found, b.window, c.o, x);
    ObserveSets(r, b.window, c.o, x);
    NewEntryFits(Z(found, x), Z(r, x), c, b);
  }

  lemma NewEntryFits(z: SortedSet, plain: SortedSet, c: Call, b: Bounds)
    requires Behind(z, plain, c.clock - b.lag - b.window, c.clock + b.ahead) && InTime(c, b)
    ensures var start := c.o.at - b.window;
            Behind(ZRemRangeBelow(z, start)[c.o.paymentId := c.o.at],
              ZRemRangeBelow(plain, start)[c.o.paymentId := c.o.at], c.clock - b.lag - b.window, c.clock + b.ahead)
  {
  }

  lemma OtherCall(t: Timed, r: Redis, c: Call, x: string, before: int, b: Bounds)
    requires Follows(t, r, x, before, b) && c.o.customer != x && c.o.eventId !in r.snapshots && before <= c.clock
    ensures Follows(ObserveAt(t, b.window, b.ttl, c).0, Observe(r, b.window, c.o).0, x, c.clock, b)
  {
    hide Observe, ZCount, ZRemRangeBelow;
    var found := Found(t, c.o.customer, c.clock);
    assert found.snapshots == t.redis.snapshots && Z(found, x) == Z(t.redis, x);
    ObserveSets(found, b.window, c.o, x);
    ObserveSets(r, b.window, c.o, x);
  }

  /** The clock at the last of the first n calls. */
  function Latest(cs: seq<Call>, n: nat): int
    requires n <= |cs|
  { if n > 0 then cs[n - 1].clock else if |cs| > 0 then cs[0].clock else 0 }

  lemma {:induction false} StoresFollow(cs: seq<Call>, n: nat, x: string, b: Bounds)
    requires DistinctEvents(Plain(cs)) && Clocked(cs, b) && Enough(b) && n <= |cs|
    ensures Follows(AfterCalls(b.window, b.ttl, cs[..n]), After(b.window, Plain(cs)[..n]), x, Latest(cs, n), b)
    decreases n
  {
    hide DistinctEvents, Observe, Follows;
    if n > 0 {
      var t, r := AfterCalls(b.window, b.ttl, cs[..n - 1]), After(b.window, Plain(cs)[..n - 1]);
      StoresFollow(cs, n - 1, x, b);
      FreshStep(b.window, Plain(cs), n - 1);
      assert cs[..n][..n - 1] == cs[..n - 1];
      if cs[n - 1].o.customer == x { OwnCall(t, r, cs[n - 1], Latest(cs, n - 1), b); }
      else { OtherCall(t, r, cs[n - 1], x, Latest(cs, n - 1), b); }
    } else {
      NothingYet(x, Latest(cs, 0), b);
    }
  }

  lemma NothingYet(x: string, now: int, b: Bounds)
    ensures Follows(FRESH, EMPTY_REDIS, x, now, b)
  {
  }

  /** With a time-to-live of at least window, lag and lead together, expiry never shows in a velocity. */
  lemma ExpiryHarmless(cs: seq<Call>, k: nat, b: Bounds)
    requires DistinctEvents(Plain(cs)) && Clocked(cs, b) && Enough(b) && k < |cs|
    ensures ReturnedAt(b.window, b.ttl, cs, k).velocity == Returned(b.window, Plain(cs), k).velocity
  {
    hide DistinctEvents, Observe, Follows, ObserveAt, AfterCalls, After;
    StoresFollow(cs, k, cs[k].o.customer, b);
    FreshStep(b.window, Plain(cs), k);
    OwnCall(AfterCalls(b.window, b.ttl, cs[..k]), After(b.window, Plain(cs)[..k]), cs[k], Latest(cs, k), b);
  }

  // ---------------------------------------------------------------- a shorter time-to-live shows

  /** Two calls of one customer, the second just after the deadline and with an event time that keeps the
      first in its window. */
  function TooLate(b: Bounds): seq<Call> {
    var second := b.ttl + 1 - b.lag;
    var first := if second <= b.ahead then second else b.ahead;
    [Call(Obs(V4(0), V4(0), "c", "d", "DE", first, 1), 0),
     Call(Obs(V4(1), V4(1), "c", "d", "DE", second, 1), b.ttl + 1)]
  }

  lemma AloneCountsOne(r: Redis, window: int, o: Obs)
    requires Z(r, o.customer) == map[] && o.eventId !in r.snapshots && window >= 0
    ensures Observe(r, window, o).1.velocity == 1
  {
    ObserveSets(r, window, o, o.customer);
    hide Observe;
    var z := Z(Observe(r, window, o).0, o.customer);
    assert z == map[o.paymentId := o.at];
    assert (set m | m in z && o.at - window <= z[m] <= o.at) == {o.paymentId};
  }

  lemma PlainCountsBoth(b: Bounds)
    requires b.ttl > 0 && b.window >= 0 && b.lag >= 0 && b.ahead >= 0 && !Enough(b)
    ensures DistinctEvents(Plain(TooLate(b))) && Returned(b.window, Plain(TooLate(b)), 1).velocity == 2
  {
    var os := Plain(TooLate(b));
    VelocityInOrder(b.window, os, 1);
    hide Returned;
    assert InWindow(b.window, os, 1) == {0, 1};
  }

  lemma ExpiryUndercounts(b: Bounds)
    requires b.ttl > 0 && b.window >= 0 && b.lag >= 0 && b.ahead >= 0 && !Enough(b)
    ensures DistinctEvents(Plain(TooLate(b))) && Clocked(TooLate(b), b)
    ensures ReturnedAt(b.window, b.ttl, TooLate(b), 1).velocity == 1
    ensures Returned(b.window, Plain(TooLate(b)), 1).velocity == 2
  {
    hide Observe, Returned, AfterCalls, ObserveAt, Plain, DistinctEvents;
    PlainCountsBoth(b);
    var cs := TooLate(b);
    assert cs[..1] == [cs[0]];
    AfterOne(b.window, b.ttl, cs[0]);
    GoneAfter(b.window, b.ttl, cs[0], cs[1]);
  }

  lemma AfterOne(window: int, ttl: int, c: Call)
    ensures AfterCalls(window, ttl, [c]) == ObserveAt(FRESH, window, ttl, c).0
  {
    hide ObserveAt;
    assert [c][..0] == [];
  }

  /** A customer's second call, after the deadline the first one set, finds an empty set. */
  lemma GoneAfter(window: int, ttl: int, c: Call, d: Call)
    requires d.clock > c.clock + ttl && c.o.customer == d.o.customer && c.o.eventId != d.o.eventId && window >= 0
    ensures ObserveAt(ObserveAt(FRESH, window, ttl, c).0, window, ttl, d).1.velocity == 1
  {
    hide Observe;
    ObserveSets(EMPTY_REDIS, window, c.o, c.o.customer);
    AloneCountsOne(Found(ObserveAt(FRESH, window, ttl, c).0, d.o.customer, d.clock), window, d.o);
  }

  /** No history within the bounds shows a velocity that expiry has changed. */
  ghost predicate Harmless(b: Bounds) {
    forall cs, k: nat | DistinctEvents(Plain(cs)) && Clocked(cs, b) && k < |cs| ::
      ReturnedAt(b.window, b.ttl, cs, k).velocity == Returned(b.window, Plain(cs), k).velocity
  }

  /** Expiry is harmless exactly when the keys live at least as long as window, lag and lead together. */
  lemma HarmlessExactly(b: Bounds)
    requires b.ttl > 0 && b.window >= 0 && b.lag >= 0 && b.ahead >= 0
    ensures Harmless(b) <==> Enough(b)
  {
    hide ReturnedAt, Returned, DistinctEvents, Clocked;
    if Enough(b) {
      forall cs, k: nat | DistinctEvents(Plain(cs)) && Clocked(cs, b) && k < |cs|
        ensures ReturnedAt(b.window, b.ttl, cs, k).velocity == Returned(b.window, Plain(cs), k).velocity
      {
        ExpiryHarmless(cs, k, b);
      }
    } else {
      ExpiryUndercounts(b);
      assert |TooLate(b)| == 2;
    }
  }
}
