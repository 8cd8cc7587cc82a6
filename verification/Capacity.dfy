/** How many servers to start or drain (orchestrator/src/domain/capacity.ts). */
module Capacity {
  import opened Basics
  import opened Lifecycles

  datatype CapacityPolicy = CapacityPolicy(
    minimumInstances: int,
    maximumInstances: int,
    minimumWarmInstances: int,
    maximumWarmInstances: int
  )

  /** `open` is the OPEN availability state, otherwise RESERVED. */
  datatype InstanceState = InstanceState(lifecycle: Lifecycle, open: bool)

  datatype CapacityDecision = CapacityDecision(
    warmReady: int,
    warmPending: int,
    active: int,
    create: int,
    drain: int
  )

  predicate IsActive(i: InstanceState) {
    Live(i.lifecycle)
  }

  predicate IsWarmReady(i: InstanceState) {
    i.lifecycle == Running && i.open
  }

  predicate IsWarmPending(i: InstanceState) {
    (i.lifecycle == Creating || i.lifecycle == Starting) && i.open
  }

  function CountOf(instances: seq<InstanceState>, p: InstanceState -> bool): (r: nat)
    ensures r <= |instances|
  {
    if instances == [] then 0
    else CountOf(instances[..|instances| - 1], p) + if p(instances[|instances| - 1]) then 1 else 0
  }

  /** With n more servers every deficit is met. */
  predicate Meets(policy: CapacityPolicy, d: CapacityDecision, required: int, n: int) {
    && d.active + n >= policy.minimumInstances
    && d.active + n >= required
    && d.warmReady + d.warmPending + n >= policy.minimumWarmInstances
  }

  /**
   The number to create is the least that meets every deficit, cut off at the
   maximum; the number to drain is the most that keeps the floor and the warm
   limit; and a group does not grow and shrink at once.
   */
  function DecideCapacity(policy: CapacityPolicy, instances: seq<InstanceState>, enabled: bool, required: int)
    : (d: CapacityDecision)
    ensures d.create >= 0 && d.drain >= 0
    ensures !enabled ==> d.create == 0 && d.drain == d.warmReady
    ensures enabled ==> Meets(policy, d, required, d.create) || d.active + d.create >= policy.maximumInstances
    ensures d.create > 0 ==> d.active + d.create <= policy.maximumInstances
    ensures enabled ==> forall n | 0 <= n < d.create :: !Meets(policy, d, required, n)
    ensures enabled && d.drain > 0 ==>
              d.active - d.drain >= policy.minimumInstances && d.active - d.drain >= required &&
              d.drain <= d.warmReady - policy.maximumWarmInstances
    ensures enabled && d.drain < d.warmReady - policy.maximumWarmInstances ==>
              d.active - d.drain <= Max(policy.minimumInstances, required)
    ensures enabled && policy.minimumWarmInstances <= policy.maximumWarmInstances ==> d.create == 0 || d.drain == 0
  {
    var activeInstances := Keep(instances, IsActive);
    var warmReady := CountOf(activeInstances, IsWarmReady);
    var warmPending := CountOf(activeInstances, IsWarmPending);
    var active := |activeInstances|;
    if !enabled then CapacityDecision(warmReady, warmPending, active, 0, warmReady)
    else
      var desiredForMinimumInstances := Max(0, policy.minimumInstances - active);
      var desiredForPlayerDemand := Max(0, required - active);
      var desiredForWarm := Max(0, policy.minimumWarmInstances - warmReady - warmPending);
      var room := Max(0, policy.maximumInstances - active);
      var create := Min(room, Max(desiredForMinimumInstances, Max(desiredForPlayerDemand, desiredForWarm)));
      var activeFloor := Max(policy.minimumInstances, required);
      var drain := Max(0, Min(warmReady - policy.maximumWarmInstances, active - activeFloor));
      CapacityDecision(warmReady, warmPending, active, create, drain)
  }

  function Keep(instances: seq<InstanceState>, p: InstanceState -> bool): (r: seq<InstanceState>)
    ensures forall i :: i in r ==> p(i)
  {
    if instances == [] then []
    else
      Keep(instances[..|instances| - 1], p) +
      if p(instances[|instances| - 1]) then [instances[|instances| - 1]] else []
  }

  /** Terminal instances play no role, and booting ones are counted apart from ready ones. */
  lemma {:induction false} CountsAreCounts(instances: seq<InstanceState>)
    ensures |Keep(instances, IsActive)| == CountOf(instances, IsActive)
    ensures CountOf(Keep(instances, IsActive), IsWarmReady) == CountOf(instances, IsWarmReady)
    ensures CountOf(Keep(instances, IsActive), IsWarmPending) == CountOf(instances, IsWarmPending)
    ensures CountOf(instances, IsWarmReady) + CountOf(instances, IsWarmPending) <= CountOf(instances, IsActive)
  {
    if instances != [] {
      var n := |instances| - 1;
      CountsAreCounts(instances[..n]);
      if IsActive(instances[n]) {
        var kept := Keep(instances[..n], IsActive);
        assert (kept + [instances[n]])[..|kept|] == kept;
      } else {
        assert Keep(instances, IsActive) == Keep(instances[..n], IsActive);
      }
    }
  }

  /** The indices of the instances in one of these states. */
  ghost function Places(instances: seq<InstanceState>, lifecycles: set<Lifecycle>, openOnly: bool): set<int> {
    set k | 0 <= k < |instances| && instances[k].lifecycle in lifecycles && (openOnly ==> instances[k].open)
  }

  lemma {:induction false} CountIsCardinality(
      instances: seq<InstanceState>, p: InstanceState -> bool, lifecycles: set<Lifecycle>, openOnly: bool)
    requires forall i :: p(i) <==> i.lifecycle in lifecycles && (openOnly ==> i.open)
    ensures CountOf(instances, p) == |Places(instances, lifecycles, openOnly)|
  {
    if instances == [] {
      assert Places(instances, lifecycles, openOnly) == {};
    } else {
      var n := |instances| - 1;
      var before := Places(instances[..n], lifecycles, openOnly);
      CountIsCardinality(instances[..n], p, lifecycles, openOnly);
      assert Places(instances, lifecycles, openOnly) == before + if p(instances[n]) then {n} else {};
    }
  }

  /** What a decision counts: open running servers, open ones on their way, and all that are not over. */
  lemma DecisionCounts(policy: CapacityPolicy, instances: seq<InstanceState>, enabled: bool, required: int)
    ensures
      var d := DecideCapacity(policy, instances, enabled, required);
      && d.warmReady == |Places(instances, {Running}, true)|
      && d.warmPending == |Places(instances, {Creating, Starting}, true)|
      && d.active == |Places(instances, {Creating, Starting, Running, Draining}, false)|
  {
    CountsAreCounts(instances);
    CountIsCardinality(instances, IsWarmReady, {Running}, true);
    CountIsCardinality(instances, IsWarmPending, {Creating, Starting}, true);
    CountIsCardinality(instances, IsActive, {Creating, Starting, Running, Draining}, false);
  }

  // ----- Two decisions

  function Booting(n: nat): (r: seq<InstanceState>)
    ensures |r| == n
  {
    seq(n, _ => InstanceState(Creating, true))
  }

  lemma {:induction false} CountAppend(a: seq<InstanceState>, b: seq<InstanceState>, p: InstanceState -> bool)
    ensures CountOf(a + b, p) == CountOf(a, p) + CountOf(b, p)
    decreases |b|
  {
    if b == [] {
      assert a + b == a;
    } else {
      assert (a + b)[..|a + b| - 1] == a + b[..|b| - 1];
      CountAppend(a, b[..|b| - 1], p);
    }
  }

  lemma {:induction false} CountBooting(n: nat)
    ensures CountOf(Booting(n), IsActive) == n && CountOf(Booting(n), IsWarmPending) == n
    ensures CountOf(Booting(n), IsWarmReady) == 0
  {
    if n > 0 {
      assert Booting(n)[..n - 1] == Booting(n - 1);
      CountBooting(n - 1);
    }
  }

  /** Once the decided servers are being created, the next decision creates none. */
  lemma CreatedOnce(policy: CapacityPolicy, instances: seq<InstanceState>, required: int)
    ensures
      var d := DecideCapacity(policy, instances, true, required);
      d.create >= 0 && DecideCapacity(policy, instances + Booting(d.create), true, required).create == 0
  {
    var d := DecideCapacity(policy, instances, true, required);
    var later := instances + Booting(d.create);
    CountsAreCounts(instances);
    CountsAreCounts(later);
    CountAppend(instances, Booting(d.create), IsActive);
    CountAppend(instances, Booting(d.create), IsWarmReady);
    CountAppend(instances, Booting(d.create), IsWarmPending);
    CountBooting(d.create);
  }

  // ----- The floor over several decisions

  predicate IsServing(i: InstanceState) {
    Serving(i.lifecycle)
  }

  predicate IsDraining(i: InstanceState) {
    i.lifecycle == Draining
  }

  lemma {:induction false} ServingOrDraining(instances: seq<InstanceState>)
    ensures CountOf(instances, IsActive) == CountOf(instances, IsServing) + CountOf(instances, IsDraining)
  {
    if instances != [] {
      ServingOrDraining(instances[..|instances| - 1]);
    }
  }

  /**
   A draining server still counts as active. So a decision leaves the floor to
   servers that are not draining exactly when enough of them exist now and, if any
   server is draining already, the warm excess is no larger than their margin.
   */
  lemma ServingFloorKeptExactlyWhen(policy: CapacityPolicy, instances: seq<InstanceState>, required: int)
    ensures
      var d := DecideCapacity(policy, instances, true, required);
      var floor := Max(policy.minimumInstances, required);
      var serving, draining := CountOf(instances, IsServing), CountOf(instances, IsDraining);
      serving - d.drain >= floor <==>
        serving >= floor && (draining == 0 || d.warmReady - policy.maximumWarmInstances <= serving - floor)
  {
    CountsAreCounts(instances);
    ServingOrDraining(instances);
  }

  /** Three ready servers over a floor of two: the second decision drains below the floor. */
  lemma RepeatedDrainsPassTheFloor()
    ensures
      var policy := CapacityPolicy(2, 5, 0, 0);
      var ready, draining := InstanceState(Running, true), InstanceState(Draining, true);
      && DecideCapacity(policy, [ready, ready, ready], true, 0).drain == 1
      && DecideCapacity(policy, [ready, ready, draining], true, 0).drain == 1
      && CountOf([ready, draining, draining], IsServing) == 1
  {
    var policy := CapacityPolicy(2, 5, 0, 0);
    var ready, draining := InstanceState(Running, true), InstanceState(Draining, true);
    var two := [ready, ready];
    CountsAreCounts([ready, ready, ready]);
    CountsAreCounts([ready, ready, draining]);
    CountAppend(two, [ready], IsActive);
    CountAppend(two, [ready], IsWarmReady);
    CountAppend(two, [draining], IsActive);
    CountAppend(two, [draining], IsWarmReady);
    CountAppend([ready], [ready], IsActive);
    CountAppend([ready], [ready], IsWarmReady);
    CountAppend([ready], [draining], IsServing);
    CountAppend([ready, draining], [draining], IsServing);
    CountOne(ready);
    CountOne(draining);
    assert two + [ready] == [ready, ready, ready] && two + [draining] == [ready, ready, draining];
    assert [ready] + [ready] == two && [ready] + [draining] == [ready, draining];
    assert [ready, draining] + [draining] == [ready, draining, draining];
  }

  lemma CountOne(i: InstanceState)
    ensures CountOf([i], IsActive) == (if IsActive(i) then 1 else 0)
    ensures CountOf([i], IsWarmReady) == (if IsWarmReady(i) then 1 else 0)
    ensures CountOf([i], IsServing) == (if IsServing(i) then 1 else 0)
  {
    assert [i][..0] == [];
  }
}
