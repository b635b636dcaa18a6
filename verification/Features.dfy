/** The Redis feature store: the two Lua scripts on Redis values, and what the snapshots they return
    say about the history of observations. Scores and times are milliseconds; keys do not expire here
    (expiry is a separate step of the pipeline). */
module Features {
  import opened Text
  import opened Domain
  import opened Counting

  type SortedSet = map<Uuid, int>

  datatype Redis = Redis(
    snapshots: map<Uuid, Snapshot>, velocity: map<string, SortedSet>, devices: map<string, set<string>>,
    baseline: map<string, string>, decisions: map<Uuid, Event>)

  const EMPTY_REDIS := Redis(map[], map[], map[], map[], map[])

  /** The arguments of one observe call. */
  datatype Obs = Obs(eventId: Uuid, paymentId: Uuid, customer: string, device: string, country: string, at: int,
      decisionAt: int)

  function Z(r: Redis, customer: string): SortedSet { if customer in r.velocity then r.velocity[customer] else map[] }
  function Devices(r: Redis, customer: string): set<string> {
    if customer in r.devices then r.devices[customer] else {}
  }

  function ZRemRangeBelow(z: SortedSet, bound: int): SortedSet { map m | m in z && z[m] >= bound :: z[m] }
  function ZCount(z: SortedSet, lo: int, hi: int): nat { |set m | m in z && lo <= z[m] <= hi| }

  /** _OBSERVE_SCRIPT. */
  function Observe(r: Redis, window: int, o: Obs): (Redis, Snapshot) {
    if o.eventId in r.snapshots then (r, r.snapshots[o.eventId])
    else
      var start := o.at - window;
      var z := ZRemRangeBelow(Z(r, o.customer), start)[o.paymentId := o.at];
      var newDevice := o.device !in Devices(r, o.customer);
      var base := if o.customer in r.baseline then r.baseline[o.customer] else o.country;
      var snapshot := Snapshot(ZCount(z, start, o.at), newDevice, base != o.country, base, o.decisionAt);
      (Redis(r.snapshots[o.eventId := snapshot], r.velocity[o.customer := z],
             r.devices[o.customer := Devices(r, o.customer) + {o.device}], r.baseline[o.customer := base], r.decisions),
       snapshot)
  }

  /** _CACHE_DECISION_SCRIPT: the first decision saved for a source event wins. */
  function SaveDecision(r: Redis, e: Event): (Redis, Event) {
    var s := e.payload.sourceEventId;
    if s in r.decisions then (r, r.decisions[s]) else (r.(decisions := r.decisions[s := e]), e)
  }

  function LoadDecision(r: Redis, source: Uuid): Option<Event> {
    if source in r.decisions then Some(r.decisions[source]) else None
  }

  /** Cached decisions are filed under their source event. */
  ghost predicate Keyed(cache: map<Uuid, Event>) { forall s | s in cache :: cache[s].payload.sourceEventId == s }

  lemma ObserveLeavesDecisions(r: Redis, window: int, o: Obs)
    ensures Observe(r, window, o).0.decisions == r.decisions
  {
    hide ZCount, ZRemRangeBelow;
  }

  // ---------------------------------------------------------------- the store as it runs

  class FeatureStore {
    var snapshots: map<Uuid, Snapshot>
    var velocity: map<string, SortedSet>
    var devices: map<string, set<string>>
    var baseline: map<string, string>
    var decisions: map<Uuid, Event>
    const window: int

    function View(): Redis
      reads this
    { Redis(snapshots, velocity, devices, baseline, decisions) }

    constructor (window: int)
      ensures View() == EMPTY_REDIS && this.window == window
    {
      this.window := window;
      snapshots, velocity, devices, baseline, decisions := map[], map[], map[], map[], map[];
    }

    method ObserveEvent(o: Obs) returns (snapshot: Snapshot)
      modifies this
      ensures (View(), snapshot) == Observe(old(View()), window, o)
    {
      if o.eventId in snapshots { return snapshots[o.eventId]; }
      var start := o.at - window;
      var zset: SortedSet := if o.customer in velocity then velocity[o.customer] else map[];
      zset := ZRemRangeBelow(zset, start);
      zset := zset[o.paymentId := o.at];
      velocity := velocity[o.customer := zset];
      var count := ZCount(zset, start, o.at);
      var seen := if o.customer in devices then devices[o.customer] else {};
      var newDevice := o.device !in seen;
      devices := devices[o.customer := seen + {o.device}];
      if o.customer !in baseline { baseline := baseline[o.customer := o.country]; }
      var base := baseline[o.customer];
      assert baseline == old(baseline)[o.customer := base];
      snapshot := Snapshot(count, newDevice, base != o.country, base, o.decisionAt);
      snapshots := snapshots[o.eventId := snapshot];
    }

    method Load(source: Uuid) returns (found: Option<Event>)
      ensures found == LoadDecision(View(), source)
    {
      if source in decisions { return Some(decisions[source]); }
      return None;
    }

    method Save(e: Event) returns (winner: Event)
      modifies this
      ensures (View(), winner) == SaveDecision(old(View()), e)
    {
      if e.payload.sourceEventId in decisions { return decisions[e.payload.sourceEventId]; }
      decisions := decisions[e.payload.sourceEventId := e];
      return e;
    }
  }

  // ---------------------------------------------------------------- histories

  /** The store after a sequence of observe calls. */
  function After(window: int, os: seq<Obs>): Redis {
    if os == [] then EMPTY_REDIS else Observe(After(window, os[..|os| - 1]), window, os[|os| - 1]).0
  }

  /** The snapshot the k-th call returns. */
  function Returned(window: int, os: seq<Obs>, k: nat): Snapshot
    requires k < |os|
  { Observe(After(window, os[..k]), window, os[k]).1 }

  ghost predicate Occurs(os: seq<Obs>, e: Uuid) { exists i | 0 <= i < |os| :: os[i].eventId == e }

  /** The calls that were the first for their event. */
  function FirstCalls(os: seq<Obs>): seq<Obs> {
    if os == [] then []
    else
      var init := os[..|os| - 1];
      if exists i | 0 <= i < |init| :: init[i].eventId == os[|os| - 1].eventId then FirstCalls(init)
      else FirstCalls(init) + [os[|os| - 1]]
  }

  lemma OccursLast(os: seq<Obs>, e: Uuid)
    requires os != []
    ensures Occurs(os, e) <==> Occurs(os[..|os| - 1], e) || e == os[|os| - 1].eventId
  {
    var init, last := os[..|os| - 1], os[|os| - 1];
    if Occurs(init, e) { var i :| 0 <= i < |init| && init[i].eventId == e; assert os[i].eventId == e; }
    if Occurs(os, e) && e != last.eventId { var i :| 0 <= i < |os| && os[i].eventId == e; assert init[i].eventId == e; }
  }

  lemma {:induction false} SnapshotsKept(window: int, os: seq<Obs>)
    ensures forall e :: e in After(window, os).snapshots <==> Occurs(os, e)
  {
    if os != [] {
      var init, last := os[..|os| - 1], os[|os| - 1];
      SnapshotsKept(window, init);
      forall e { OccursLast(os, e); }
      hide Occurs, ZCount, ZRemRangeBelow;
      assert After(window, os) == Observe(After(window, init), window, last).0;
    }
  }

  /** Repeated calls for an event change nothing: the store is the one the first calls alone leave. */
  lemma {:induction false} RepeatsChangeNothing(window: int, os: seq<Obs>)
    ensures After(window, os) == After(window, FirstCalls(os))
    ensures forall i, j | 0 <= i < j < |FirstCalls(os)| :: FirstCalls(os)[i].eventId != FirstCalls(os)[j].eventId
    ensures forall o | o in FirstCalls(os) :: o in os
  {
    if os != [] {
      var init, last := os[..|os| - 1], os[|os| - 1];
      RepeatsChangeNothing(window, init);
      SnapshotsKept(window, init);
      if Occurs(init, last.eventId) {
        assert FirstCalls(os) == FirstCalls(init);
      } else {
        var f := FirstCalls(init);
        assert FirstCalls(os) == f + [last] && (f + [last])[..|f|] == f;
        forall i | 0 <= i < |f| ensures f[i].eventId != last.eventId {
          assert f[i] in init;
        }
      }
    }
  }

  /** ... and every repeat returns the snapshot of the first call for its event. */
  lemma RepeatsReturnTheSame(window: int, os: seq<Obs>, i: nat, j: nat)
    requires i < j < |os| && os[i].eventId == os[j].eventId
    requires !Occurs(os[..i], os[i].eventId)
    ensures Returned(window, os, j) == Returned(window, os, i)
  {
    SnapshotsKept(window, os[..i]);
    SnapshotStays(window, os[..j], i + 1, os[i].eventId);
    assert os[..j][..i + 1] == os[..i + 1];
    assert os[..i + 1][..i] == os[..i];
  }

  lemma {:induction false} SnapshotStays(window: int, os: seq<Obs>, n: nat, e: Uuid)
    requires n <= |os| && e in After(window, os[..n]).snapshots
    ensures e in After(window, os).snapshots && After(window, os).snapshots[e] == After(window, os[..n]).snapshots[e]
  {
    if n < |os| {
      var init := os[..|os| - 1];
      assert init[..n] == os[..n];
      SnapshotStays(window, init, n, e);
    } else {
      assert os[..n] == os;
    }
  }

  /** A snapshot in the store is the one its event's first call returned. */
  lemma SnapshotIsReturned(window: int, os: seq<Obs>, k: nat)
    requires k < |os| && !Occurs(os[..k], os[k].eventId)
    ensures os[k].eventId in After(window, os).snapshots &&
        After(window, os).snapshots[os[k].eventId] == Returned(window, os, k)
  {
    SnapshotsKept(window, os[..k]);
    assert os[..k + 1][..k] == os[..k];
    SnapshotStays(window, os, k + 1, os[k].eventId);
  }

  // ---------------------------------------------------------------- what a snapshot says

  ghost predicate DistinctEvents(os: seq<Obs>) {
    forall i, j | 0 <= i < j < |os| :: os[i].eventId != os[j].eventId
  }

  ghost predicate DistinctPayments(os: seq<Obs>) {
    forall i, j | 0 <= i < j < |os| :: os[i].paymentId != os[j].paymentId
  }

  /** Some call in (i, n) for the same customer moved the window past the i-th. */
  ghost predicate Evicted(window: int, os: seq<Obs>, n: nat, i: nat)
    requires i < n <= |os|
  {
    exists j | i < j < n :: os[j].customer == os[i].customer && os[i].at < os[j].at - window
  }

  /** The i-th call's entry is still in its customer's sorted set after n calls. */
  ghost predicate Live(window: int, os: seq<Obs>, n: nat, i: nat)
    requires i < n <= |os|
  {
    && !Evicted(window, os, n, i)
    && !(exists j | i < j < n :: os[j].customer == os[i].customer && os[j].paymentId == os[i].paymentId)
  }

  ghost predicate Holds(window: int, os: seq<Obs>, n: nat, customer: string, m: Uuid, score: int)
    requires n <= |os|
  {
    exists i: nat | i < n :: os[i].customer == customer && Live(window, os, n, i) && os[i].paymentId == m &&
        os[i].at == score
  }

  /** What the (n+1)-th call leaves of the entries before it, and its own entry. */
  ghost predicate HoldsAfter(window: int, os: seq<Obs>, n: nat, customer: string, m: Uuid, score: int)
    requires n < |os|
  {
    if os[n].customer != customer then Holds(window, os, n, customer, m, score)
    else if os[n].paymentId == m then os[n].at == score
    else Holds(window, os, n, customer, m, score) && score >= os[n].at - window
  }

  lemma HeldBefore(window: int, os: seq<Obs>, n: nat, customer: string, m: Uuid, score: int)
    requires n < |os| && Holds(window, os, n + 1, customer, m, score)
    ensures HoldsAfter(window, os, n, customer, m, score)
  {
    var i: nat :| i < n + 1 && os[i].customer == customer && Live(window, os, n + 1, i)
                  && os[i].paymentId == m && os[i].at == score;
    if i < n { assert Live(window, os, n, i); }
  }

  lemma HeldStill(window: int, os: seq<Obs>, n: nat, customer: string, m: Uuid, score: int)
    requires n < |os| && HoldsAfter(window, os, n, customer, m, score)
    ensures Holds(window, os, n + 1, customer, m, score)
  {
    if os[n].customer == customer && os[n].paymentId == m {
      assert Live(window, os, n + 1, n);
    } else {
      var i: nat :| i < n && os[i].customer == customer && Live(window, os, n, i)
                    && os[i].paymentId == m && os[i].at == score;
      assert Live(window, os, n + 1, i);
    }
  }

  lemma HoldsNext(window: int, os: seq<Obs>, n: nat, customer: string, m: Uuid, score: int)
    requires n < |os|
    ensures Holds(window, os, n + 1, customer, m, score) <==> HoldsAfter(window, os, n, customer, m, score)
  {
    hide Holds, HoldsAfter;
    if Holds(window, os, n + 1, customer, m, score) { HeldBefore(window, os, n, customer, m, score); }
    if HoldsAfter(window, os, n, customer, m, score) { HeldStill(window, os, n, customer, m, score); }
  }

  lemma NothingHeld(window: int, os: seq<Obs>, customer: string, m: Uuid, score: int)
    ensures !Holds(window, os, 0, customer, m, score)
  {
  }

  /** After n fresh calls a customer's sorted set is exactly the live entries. */
  lemma {:induction false} SortedSetIsLive(window: int, os: seq<Obs>, n: nat, customer: string, m: Uuid, score: int)
    requires DistinctEvents(os) && n <= |os|
    ensures var z := Z(After(window, os[..n]), customer);
            (m in z && z[m] == score) <==> Holds(window, os, n, customer, m, score)
    decreases n
  {
    hide DistinctEvents, Holds, ZCount, Devices;
    if n > 0 {
      SortedSetIsLive(window, os, n - 1, customer, m, score);
      FreshStep(window, os, n - 1);
      HoldsNext(window, os, n - 1, customer, m, score);
      hide After;
    } else {
      NothingHeld(window, os, customer, m, score);
    }
  }

  lemma FreshStep(window: int, os: seq<Obs>, n: nat)
    requires DistinctEvents(os) && n < |os|
    ensures os[n].eventId !in After(window, os[..n]).snapshots
    ensures After(window, os[..n + 1]) == Observe(After(window, os[..n]), window, os[n]).0
    ensures Returned(window, os, n) == Observe(After(window, os[..n]), window, os[n]).1
  {
    SnapshotsKept(window, os[..n]);
    assert os[..n + 1][..n] == os[..n];
  }

  /** Calls the k-th call should count: same customer, score in [t - W, t], entry still there. */
  ghost function Counted(window: int, os: seq<Obs>, k: nat): set<nat>
    requires k < |os|
  {
    set i: nat | i <= k && os[i].customer == os[k].customer && os[k].at - window <= os[i].at <= os[k].at &&
        Live(window, os, k + 1, i)
  }

  /** The naive count over the whole history. */
  ghost function InWindow(window: int, os: seq<Obs>, k: nat): set<nat>
    requires k < |os|
  {
    set i: nat | i <= k && os[i].customer == os[k].customer && os[k].at - window <= os[i].at <= os[k].at
  }

  ghost function CountedPayments(window: int, os: seq<Obs>, k: nat): map<nat, Uuid>
    requires k < |os|
  {
    map i: nat | i in Counted(window, os, k) :: os[i].paymentId
  }

  /** The members in the score range are the payments of the counted calls. */
  lemma RangeIsCounted(window: int, os: seq<Obs>, k: nat, z: SortedSet, x: Uuid)
    requires DistinctEvents(os) && k < |os| && z == Z(After(window, os[..k + 1]), os[k].customer)
    ensures x in z && os[k].at - window <= z[x] <= os[k].at <==> x in CountedPayments(window, os, k).Values
  {
    hide After, Z, Live, DistinctEvents;
    var m := CountedPayments(window, os, k);
    if x in z {
      SortedSetIsLive(window, os, k + 1, os[k].customer, x, z[x]);
      if os[k].at - window <= z[x] <= os[k].at {
        var i: nat :| i < k + 1 && os[i].customer == os[k].customer && Live(window, os, k + 1, i) &&
            os[i].paymentId == x && os[i].at == z[x];
        assert i in m && m[i] == x;
      }
    }
    if x in m.Values {
      var i: nat :| i in m && m[i] == x;
      SortedSetIsLive(window, os, k + 1, os[k].customer, x, os[i].at);
      assert Holds(window, os, k + 1, os[k].customer, x, os[i].at);
    }
  }

  lemma ObserveCounts(r: Redis, window: int, o: Obs)
    requires o.eventId !in r.snapshots
    ensures var (n, f) := Observe(r, window, o); f.velocity == ZCount(Z(n, o.customer), o.at - window, o.at)
  {
    hide ZCount, ZRemRangeBelow;
  }

  /** Each counted call has a payment of its own. */
  lemma CountedOnce(window: int, os: seq<Obs>, k: nat)
    requires k < |os|
    ensures |Counted(window, os, k)| == |CountedPayments(window, os, k).Values|
  {
    hide Live;
    var m := CountedPayments(window, os, k);
    forall i, j | i in m && j in m && m[i] == m[j] ensures i == j { LiveOnce(window, os, k + 1, i, j); }
    InjectiveCount(m);
    assert m.Keys == Counted(window, os, k);
  }

  lemma ReturnedCounts(window: int, os: seq<Obs>, k: nat)
    requires DistinctEvents(os) && k < |os|
    ensures var z := Z(After(window, os[..k + 1]), os[k].customer);
            Returned(window, os, k).velocity == ZCount(z, os[k].at - window, os[k].at)
  {
    hide ZCount, After, DistinctEvents, Observe, Returned;
    FreshStep(window, os, k);
    ObserveCounts(After(window, os[..k]), window, os[k]);
  }

  /** The velocity of a fresh call counts exactly the entries in its window that no later call replaced or evicted. */
  lemma VelocityCounts(window: int, os: seq<Obs>, k: nat)
    requires DistinctEvents(os) && k < |os|
    ensures Returned(window, os, k).velocity == |Counted(window, os, k)|
  {
    hide DistinctEvents, Live, After, Returned, Z, CountedPayments, Counted;
    var z := Z(After(window, os[..k + 1]), os[k].customer);
    ReturnedCounts(window, os, k);
    CountedOnce(window, os, k);
    forall x { RangeIsCounted(window, os, k, z, x); }
    assert CountedPayments(window, os, k).Values == set x | x in z && os[k].at - window <= z[x] <= os[k].at;
  }

  lemma LiveOnce(window: int, os: seq<Obs>, n: nat, i: nat, j: nat)
    requires n <= |os| && i < n && j < n && Live(window, os, n, i) && Live(window, os, n, j)
    requires os[i].customer == os[j].customer && os[i].paymentId == os[j].paymentId
    ensures i == j
  {
  }

  /** With one event per payment: velocity is at least 1, at most the naive count, and equal to it exactly
      when no entry of the window was evicted by a later event before. */
  lemma VelocityAgainstHistory(window: int, os: seq<Obs>, k: nat)
    requires window >= 0 && DistinctEvents(os) && DistinctPayments(os) && k < |os|
    ensures 1 <= Returned(window, os, k).velocity <= |InWindow(window, os, k)|
    ensures Returned(window, os, k).velocity == |InWindow(window, os, k)| <==>
              forall i | i in InWindow(window, os, k) :: !Evicted(window, os, k + 1, i)
  {
    hide *;
    VelocityCounts(window, os, k);
    CountedInWindow(window, os, k);
    var c, w := Counted(window, os, k), InWindow(window, os, k);
    TwoParts(c, {k}, c - {k});
    SubsetCount(c, w);
  }

  /** The call itself counts, and the counted calls are the whole window exactly when none was evicted. */
  lemma CountedInWindow(window: int, os: seq<Obs>, k: nat)
    requires window >= 0 && DistinctPayments(os) && k < |os|
    ensures k in Counted(window, os, k) && Counted(window, os, k) <= InWindow(window, os, k)
    ensures Counted(window, os, k) == InWindow(window, os, k) <==>
              forall i | i in InWindow(window, os, k) :: !Evicted(window, os, k + 1, i)
  {
    var c, w := Counted(window, os, k), InWindow(window, os, k);
    forall i | i in w ensures i in c <==> !Evicted(window, os, k + 1, i) {
      AloneLives(window, os, k + 1, i);
      hide Live, Evicted;
    }
    hide Live, Evicted, DistinctPayments;
  }

  lemma AloneLives(window: int, os: seq<Obs>, n: nat, i: nat)
    requires DistinctPayments(os) && i < n <= |os|
    ensures Live(window, os, n, i) <==> !Evicted(window, os, n, i)
  {
    hide Evicted;
  }

  /** In particular they agree when event times never go back. */
  lemma VelocityInOrder(window: int, os: seq<Obs>, k: nat)
    requires window >= 0 && DistinctEvents(os) && DistinctPayments(os) && k < |os|
    requires forall i, j | 0 <= i < j <= k && os[i].customer == os[k].customer && os[j].customer == os[k].customer ::
        os[i].at <= os[j].at
    ensures Returned(window, os, k).velocity == |InWindow(window, os, k)|
  {
    VelocityAgainstHistory(window, os, k);
    hide DistinctEvents, DistinctPayments, Returned;
    forall i | i in InWindow(window, os, k) ensures !Evicted(window, os, k + 1, i) { }
  }

  // ---------------------------------------------------------------- device and country

  ghost predicate SeenDevice(os: seq<Obs>, n: nat, customer: string, device: string)
    requires n <= |os|
  { exists i: nat | i < n :: os[i].customer == customer && os[i].device == device }

  ghost predicate FirstOf(os: seq<Obs>, customer: string, i: nat) {
    && i < |os| && os[i].customer == customer
    && forall j | 0 <= j < i :: os[j].customer != customer
  }

  lemma SeenNext(os: seq<Obs>, n: nat, customer: string, device: string)
    requires n < |os|
    ensures SeenDevice(os, n + 1, customer, device) <==>
        SeenDevice(os, n, customer, device) || (os[n].customer == customer && os[n].device == device)
  {
  }

  lemma ObserveDevices(r: Redis, window: int, o: Obs, customer: string)
    requires o.eventId !in r.snapshots
    ensures Devices(Observe(r, window, o).0, customer) == Devices(r,
        customer) + if o.customer == customer then {o.device} else {}
  {
    hide ZCount, ZRemRangeBelow, Z;
  }

  lemma {:induction false} DevicesAreSeen(window: int, os: seq<Obs>, n: nat, customer: string)
    requires DistinctEvents(os) && n <= |os|
    ensures forall d :: d in Devices(After(window, os[..n]), customer) <==> SeenDevice(os, n, customer, d)
    decreases n
  {
    hide DistinctEvents, Observe, SeenDevice;
    if n > 0 {
      DevicesAreSeen(window, os, n - 1, customer);
      FreshStep(window, os, n - 1);
      ObserveDevices(After(window, os[..n - 1]), window, os[n - 1], customer);
      hide After, Devices;
      forall d
        ensures SeenDevice(os, n, customer, d) <==>
            SeenDevice(os, n - 1, customer, d) || (os[n - 1].customer == customer && os[n - 1].device == d)
      {
        SeenNext(os, n - 1, customer, d);
      }
    } else {
      forall d ensures !SeenDevice(os, 0, customer, d) { NothingSeen(os, customer, d); }
    }
  }

  lemma NothingSeen(os: seq<Obs>, customer: string, device: string)
    ensures !SeenDevice(os, 0, customer, device)
  {
  }

  lemma {:induction false} BaselineIsFirst(window: int, os: seq<Obs>, n: nat, customer: string, first: nat)
    requires DistinctEvents(os) && n <= |os| && FirstOf(os, customer, first)
    ensures var b := After(window, os[..n]).baseline;
            if first < n then customer in b && b[customer] == os[first].country else customer !in b
    decreases n
  {
    hide DistinctEvents, ZCount, ZRemRangeBelow, Devices, Z;
    if n > 0 {
      BaselineIsFirst(window, os, n - 1, customer, first);
      FreshStep(window, os, n - 1);
      hide After;
    } else {
      assert os[..0] == [];
    }
  }

  /** A fresh snapshot reports a device as new exactly when no earlier call of the customer had it, and
      compares the country with the one of the customer's first call. */
  lemma DeviceAndCountry(window: int, os: seq<Obs>, k: nat, first: nat)
    requires DistinctEvents(os) && k < |os| && FirstOf(os, os[k].customer, first)
    ensures var s := Returned(window, os, k);
            && (s.newDevice <==> !SeenDevice(os, k, os[k].customer, os[k].device))
            && s.baselineCountry == os[first].country
            && (s.crossBorder <==> os[first].country != os[k].country)
            && s.decisionAt == os[k].decisionAt
  {
    assert first <= k;
    DevicesAreSeen(window, os, k, os[k].customer);
    BaselineIsFirst(window, os, k, os[k].customer, first);
    FreshStep(window, os, k);
    hide DistinctEvents, After, SeenDevice, ZCount, ZRemRangeBelow;
  }
}
