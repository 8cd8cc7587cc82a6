/**
 Greedy allocation of players to hubs, and why it is optimal
 (orchestrator/src/domain/hub-routing.ts). Ids are integers standing for the
 total order that localeCompare puts on hub ids.
 */
module HubRouting {
  import opened Basics

  type PlayerId = int
  type TargetId = int

  datatype Target = Target(id: TargetId, effectiveLoad: int, maximumPlayers: int)

  datatype Decision = Decision(assignments: map<TargetId, seq<PlayerId>>, rejectedPlayers: seq<PlayerId>)

  const REJECTED := -1

  // ----- What a choice of targets means

  /** choice[i] is the position of the target that takes player i, or REJECTED. */
  ghost predicate IsChoice(choice: seq<int>, players: seq<PlayerId>, targets: seq<Target>) {
    |choice| == |players| && forall i | 0 <= i < |choice| :: REJECTED <= choice[i] < |targets|
  }

  /** Players sent to the given target id, in request order. */
  ghost function SentTo(players: seq<PlayerId>, choice: seq<int>, targets: seq<Target>, id: TargetId): seq<PlayerId>
    requires IsChoice(choice, players, targets)
  {
    if players == [] then []
    else
      var n := |players| - 1;
      var front := SentTo(players[..n], choice[..n], targets, id);
      if choice[n] != REJECTED && targets[choice[n]].id == id then front + [players[n]] else front
  }

  ghost function Refused(players: seq<PlayerId>, choice: seq<int>): seq<PlayerId>
    requires |choice| == |players|
  {
    if players == [] then []
    else
      var n := |players| - 1;
      var front := Refused(players[..n], choice[..n]);
      if choice[n] == REJECTED then front + [players[n]] else front
  }

  /** How many players the choice sends to position t. */
  ghost function Given(choice: seq<int>, t: int): nat {
    if choice == [] then 0
    else Given(choice[..|choice| - 1], t) + if choice[|choice| - 1] == t then 1 else 0
  }

  ghost function GivenAll(choice: seq<int>, n: nat): (r: seq<int>)
    ensures |r| == n && forall t | 0 <= t < n :: r[t] == Given(choice, t)
  {
    seq(n, t requires 0 <= t < n => Given(choice, t))
  }

  ghost function FreeSeats(targets: seq<Target>): (r: seq<int>)
    ensures |r| == |targets|
    ensures forall t | 0 <= t < |r| :: r[t] >= 0
  {
    seq(|targets|, t requires 0 <= t < |targets| =>
      if targets[t].effectiveLoad < targets[t].maximumPlayers
      then targets[t].maximumPlayers - targets[t].effectiveLoad else 0)
  }

  /** The loads after handing out seats. */
  ghost function Filled(targets: seq<Target>, seats: seq<int>): (r: seq<int>)
    requires |seats| == |targets|
    ensures |r| == |targets|
    ensures forall t | 0 <= t < |r| :: r[t] == targets[t].effectiveLoad + seats[t]
  {
    seq(|targets|, t requires 0 <= t < |targets| => targets[t].effectiveLoad + seats[t])
  }

  /** Seats that respect what each target has free. */
  ghost predicate Allowed(targets: seq<Target>, seats: seq<int>) {
    |seats| == |targets| && forall t | 0 <= t < |seats| :: 0 <= seats[t] <= FreeSeats(targets)[t]
  }

  /**
   No used target is more than one player above a target that still has room.
   This is the exchange condition that makes an allocation optimal.
   */
  ghost predicate Levelled(targets: seq<Target>, seats: seq<int>)
    requires |seats| == |targets|
  {
    forall i, j | 0 <= i < |targets| && 0 <= j < |targets| && seats[i] > 0 &&
                  targets[j].effectiveLoad + seats[j] < targets[j].maximumPlayers ::
      targets[i].effectiveLoad + seats[i] - 1 <= targets[j].effectiveLoad + seats[j]
  }

  // ----- The greedy loop

  predicate HasRoom(t: Target) {
    t.effectiveLoad < t.maximumPlayers
  }

  predicate Precedes(a: Target, b: Target) {
    a.effectiveLoad < b.effectiveLoad || (a.effectiveLoad == b.effectiveLoad && a.id <= b.id)
  }

  /** First of the candidates with room, ordered by load and then id. */
  method LeastLoaded(targets: array<Target>) returns (best: int)
    ensures REJECTED <= best < targets.Length
    ensures best == REJECTED ==> forall t | 0 <= t < targets.Length :: !HasRoom(targets[t])
    ensures best != REJECTED ==> HasRoom(targets[best])
    ensures best != REJECTED ==>
              forall t | 0 <= t < targets.Length && HasRoom(targets[t]) :: Precedes(targets[best], targets[t])
  {
    best := REJECTED;
    for i := 0 to targets.Length
      invariant REJECTED <= best < i
      invariant best == REJECTED ==> forall t | 0 <= t < i :: !HasRoom(targets[t])
      invariant best != REJECTED ==> HasRoom(targets[best])
      invariant best != REJECTED ==> forall t | 0 <= t < i && HasRoom(targets[t]) :: Precedes(targets[best], targets[t])
    {
      if HasRoom(targets[i]) && (best == REJECTED || !Precedes(targets[best], targets[i])) {
        best := i;
      }
    }
  }

  /** The working copy of the targets after the players chosen so far. */
  ghost predicate Mirrors(now: seq<Target>, targets: seq<Target>, choice: seq<int>) {
    && |now| == |targets|
    && forall t | 0 <= t < |targets| ::
         now[t] == targets[t].(effectiveLoad := targets[t].effectiveLoad + Given(choice, t))
  }

  /** After these players, the next one goes to the target with room that has the least load, and of those to the least id. */
  ghost predicate IsNext(targets: seq<Target>, before: seq<int>, c: int) {
    if c == REJECTED then
      forall t | 0 <= t < |targets| :: targets[t].effectiveLoad + Given(before, t) >= targets[t].maximumPlayers
    else
      && 0 <= c < |targets| && targets[c].effectiveLoad + Given(before, c) < targets[c].maximumPlayers
      && forall t | 0 <= t < |targets| && targets[t].effectiveLoad + Given(before, t) < targets[t].maximumPlayers ::
           || targets[c].effectiveLoad + Given(before, c) < targets[t].effectiveLoad + Given(before, t)
           || (targets[c].effectiveLoad + Given(before, c) == targets[t].effectiveLoad + Given(before, t) &&
               targets[c].id <= targets[t].id)
  }

  ghost predicate Greedy(targets: seq<Target>, choice: seq<int>) {
    forall k | 0 <= k < |choice| :: IsNext(targets, choice[..k], choice[k])
  }

  lemma GreedyOneMore(targets: seq<Target>, choice: seq<int>, c: int)
    requires Greedy(targets, choice) && IsNext(targets, choice, c)
    ensures Greedy(targets, choice + [c])
  {
    var longer := choice + [c];
    forall k | 0 <= k < |longer| ensures IsNext(targets, longer[..k], longer[k]) {
      assert longer[..k] == choice[..k];
      assert k == |choice| ==> choice[..k] == choice;
    }
  }

  ghost predicate DifferentIds(targets: seq<Target>) {
    forall s, t | 0 <= s < t < |targets| :: targets[s].id != targets[t].id
  }

  lemma NextIsUnique(targets: seq<Target>, before: seq<int>, c: int, d: int)
    requires DifferentIds(targets) && IsNext(targets, before, c) && IsNext(targets, before, d)
    ensures c == d
  {
    if c != REJECTED && d != REJECTED {
      assert targets[c].id == targets[d].id;
    }
  }

  lemma GreedyFront(targets: seq<Target>, choice: seq<int>)
    requires Greedy(targets, choice) && choice != []
    ensures Greedy(targets, choice[..|choice| - 1])
    ensures IsNext(targets, choice[..|choice| - 1], choice[|choice| - 1])
  {
    var front := choice[..|choice| - 1];
    forall k | 0 <= k < |front| ensures IsNext(targets, front[..k], front[k]) {
      assert front[..k] == choice[..k];
    }
  }

  /** Where targets have different ids, the greedy choice is one. */
  lemma {:induction false} GreedyIsDetermined(targets: seq<Target>, a: seq<int>, b: seq<int>)
    requires DifferentIds(targets) && Greedy(targets, a) && Greedy(targets, b) && |a| == |b|
    ensures a == b
  {
    if a != [] {
      var n := |a| - 1;
      GreedyFront(targets, a);
      GreedyFront(targets, b);
      GreedyIsDetermined(targets, a[..n], b[..n]);
      NextIsUnique(targets, a[..n], a[n], b[n]);
      assert a == a[..n] + [a[n]] && b == b[..n] + [b[n]];
    }
  }

  /** The decision lists, per target id and for the refused, exactly the players the choice says, in order. */
  ghost predicate Records(decision: Decision, players: seq<PlayerId>, choice: seq<int>, targets: seq<Target>)
    requires IsChoice(choice, players, targets)
  {
    && decision.rejectedPlayers == Refused(players, choice)
    && (forall id :: id in decision.assignments <==> SentTo(players, choice, targets, id) != [])
    && (forall id | id in decision.assignments :: decision.assignments[id] == SentTo(players, choice, targets, id))
  }

  /** As many players as possible are seated, within what is free, and level. */
  ghost predicate SeatsWell(targets: seq<Target>, choice: seq<int>, players: nat) {
    var seats := GivenAll(choice, |targets|);
    && Allowed(targets, seats) && Levelled(targets, seats)
    && Sum(seats) == Min(players, Sum(FreeSeats(targets)))
  }

  /** What holds after each player: contents, working copy and quality of the allocation. */
  ghost predicate Progress(
      now: seq<Target>, decision: Decision, players: seq<PlayerId>, choice: seq<int>, targets: seq<Target>)
  {
    && IsChoice(choice, players, targets)
    && Mirrors(now, targets, choice)
    && Records(decision, players, choice, targets)
    && SeatsWell(targets, choice, |players|)
  }

  /**
   Allocates one player at a time to the least-loaded target with room.
   The ghost result says, player by player, which target that was.
   */
  method AllocateHubPlayers(playerIds: seq<PlayerId>, targets: seq<Target>)
    returns (decision: Decision, ghost choice: seq<int>)
    ensures IsChoice(choice, playerIds, targets)
    ensures Records(decision, playerIds, choice, targets)
    ensures SeatsWell(targets, choice, |playerIds|) && Greedy(targets, choice)
    ensures |decision.rejectedPlayers| == |playerIds| - Min(|playerIds|, Sum(FreeSeats(targets)))
  {
    decision, choice := SpreadPlayers(playerIds, targets);
    SeatedPlusRefused(playerIds, choice, targets);
  }

  method SpreadPlayers(playerIds: seq<PlayerId>, targets: seq<Target>)
    returns (decision: Decision, ghost choice: seq<int>)
    ensures IsChoice(choice, playerIds, targets)
    ensures Records(decision, playerIds, choice, targets)
    ensures SeatsWell(targets, choice, |playerIds|) && Greedy(targets, choice)
  {
    var mutableTargets := new Target[|targets|](i requires 0 <= i < |targets| => targets[i]);
    decision := Decision(map[], []);
    choice := [];
    NobodyPlaced(targets);
    assert mutableTargets[..] == targets;
    for i := 0 to |playerIds|
      invariant Progress(mutableTargets[..], decision, playerIds[..i], choice, targets) && Greedy(targets, choice)
    {
      assert playerIds[..i + 1] == playerIds[..i] + [playerIds[i]];
      ghost var before, next := choice, REJECTED;
      decision, next := PlacePlayer(mutableTargets, decision, playerIds[i], playerIds[..i], choice, targets);
      GreedyOneMore(targets, before, next);
      choice := before + [next];
    }
    assert playerIds[..|playerIds|] == playerIds;
  }

  lemma LeastLoadedIsNext(now: seq<Target>, targets: seq<Target>, choice: seq<int>, best: int)
    requires Mirrors(now, targets, choice) && REJECTED <= best < |now|
    requires best == REJECTED ==> forall t | 0 <= t < |now| :: !HasRoom(now[t])
    requires best != REJECTED ==> HasRoom(now[best]) && forall t | 0 <= t < |now| && HasRoom(now[t]) :: Precedes(now[best], now[t])
    ensures IsNext(targets, choice, best)
  {
    forall t | 0 <= t < |targets|
      ensures now[t].effectiveLoad == targets[t].effectiveLoad + Given(choice, t) && now[t].id == targets[t].id
      ensures HasRoom(now[t]) <==> targets[t].effectiveLoad + Given(choice, t) < targets[t].maximumPlayers
    {
    }
  }

  /** One turn of the loop: the player goes to the least-loaded target with room, or is refused. */
  method PlacePlayer(
      mutableTargets: array<Target>, decision: Decision, playerId: PlayerId,
      ghost players: seq<PlayerId>, ghost choice: seq<int>, ghost targets: seq<Target>)
    returns (after: Decision, ghost next: int)
    requires Progress(mutableTargets[..], decision, players, choice, targets)
    modifies mutableTargets
    ensures Progress(mutableTargets[..], after, players + [playerId], choice + [next], targets)
    ensures IsNext(targets, choice, next)
  {
    var best := LeastLoaded(mutableTargets);
    ghost var now := mutableTargets[..];
    next := best;
    LeastLoadedIsNext(now, targets, choice, best);
    if best == REJECTED {
      ProgressRejected(now, decision, players, playerId, choice, targets);
      after := decision.(rejectedPlayers := decision.rejectedPlayers + [playerId]);
    } else {
      ProgressSent(now, decision, players, playerId, choice, best, targets);
      after := Assign(decision, mutableTargets[best].id, playerId);
      mutableTargets[best] := mutableTargets[best].(effectiveLoad := mutableTargets[best].effectiveLoad + 1);
      assert mutableTargets[..] == now[best := now[best].(effectiveLoad := now[best].effectiveLoad + 1)];
    }
  }

  function Assign(d: Decision, id: TargetId, p: PlayerId): Decision {
    var current := if id in d.assignments then d.assignments[id] else [];
    d.(assignments := d.assignments[id := current + [p]])
  }

  lemma ProgressRejected(
      now: seq<Target>, d: Decision, players: seq<PlayerId>, p: PlayerId, choice: seq<int>, targets: seq<Target>)
    requires Progress(now, d, players, choice, targets)
    requires forall t | 0 <= t < |now| :: !HasRoom(now[t])
    ensures Progress(now, d.(rejectedPlayers := d.rejectedPlayers + [p]), players + [p], choice + [REJECTED], targets)
  {
    EveryoneFull(targets, now, choice, |players|);
    RecordRejected(d, players, p, choice, targets);
  }

  lemma ProgressSent(
      now: seq<Target>, d: Decision, players: seq<PlayerId>, p: PlayerId, choice: seq<int>, best: int, targets: seq<Target>)
    requires Progress(now, d, players, choice, targets)
    requires 0 <= best < |now| && HasRoom(now[best])
    requires forall t | 0 <= t < |now| && HasRoom(now[t]) :: Precedes(now[best], now[t])
    ensures Progress(
              now[best := now[best].(effectiveLoad := now[best].effectiveLoad + 1)],
              Assign(d, now[best].id, p), players + [p], choice + [best], targets)
  {
    OneMoreSeat(targets, now, choice, best, |players|);
    SeatMirrored(targets, now, choice, best);
    RecordSent(d, players, p, choice, best, targets);
  }

  lemma RecordRejected(d: Decision, players: seq<PlayerId>, p: PlayerId, choice: seq<int>, targets: seq<Target>)
    requires IsChoice(choice, players, targets) && Records(d, players, choice, targets)
    ensures Records(d.(rejectedPlayers := d.rejectedPlayers + [p]), players + [p], choice + [REJECTED], targets)
  {
    OneMoreRejected(players, p, choice, targets);
  }

  lemma RecordSent(d: Decision, players: seq<PlayerId>, p: PlayerId, choice: seq<int>, c: int, targets: seq<Target>)
    requires IsChoice(choice, players, targets) && Records(d, players, choice, targets)
    requires 0 <= c < |targets|
    ensures Records(Assign(d, targets[c].id, p), players + [p], choice + [c], targets)
  {
    OneMoreSent(players, p, choice, c, targets);
  }

  lemma NobodyPlaced(targets: seq<Target>)
    ensures SeatsWell(targets, [], 0)
    ensures Mirrors(targets, targets, [])
  {
    SumBounds(GivenAll([], |targets|), 0, 0);
    SumMonotone(GivenAll([], |targets|), FreeSeats(targets));
  }

  lemma GivenAppend(choice: seq<int>, c: int, t: int)
    ensures Given(choice + [c], t) == Given(choice, t) + if c == t then 1 else 0
  {
    assert (choice + [c])[..|choice|] == choice;
  }

  lemma GivenAllAppend(choice: seq<int>, c: int, n: nat)
    requires REJECTED <= c < n
    ensures GivenAll(choice + [c], n) ==
            var before := GivenAll(choice, n); if c == REJECTED then before else before[c := before[c] + 1]
  {
    forall t | 0 <= t < n {
      GivenAppend(choice, c, t);
    }
  }

  /** Everybody is seated or refused. */
  lemma {:induction false} SeatedPlusRefused(players: seq<PlayerId>, choice: seq<int>, targets: seq<Target>)
    requires IsChoice(choice, players, targets)
    ensures Sum(GivenAll(choice, |targets|)) + |Refused(players, choice)| == |players|
  {
    if players == [] {
      SumBounds(GivenAll(choice, |targets|), 0, 0);
    } else {
      var n := |players| - 1;
      SeatedPlusRefused(players[..n], choice[..n], targets);
      assert choice == choice[..n] + [choice[n]];
      GivenAllAppend(choice[..n], choice[n], |targets|);
      if choice[n] != REJECTED {
        var before := GivenAll(choice[..n], |targets|);
        SumUpdate(before, choice[n], before[choice[n]] + 1);
      }
    }
  }

  lemma OneMoreRejected(players: seq<PlayerId>, p: PlayerId, choice: seq<int>, targets: seq<Target>)
    requires IsChoice(choice, players, targets)
    ensures Refused(players + [p], choice + [REJECTED]) == Refused(players, choice) + [p]
    ensures forall id ::
              SentTo(players + [p], choice + [REJECTED], targets, id) == SentTo(players, choice, targets, id)
  {
    assert (players + [p])[..|players|] == players && (choice + [REJECTED])[..|players|] == choice;
  }

  lemma OneMoreSent(players: seq<PlayerId>, p: PlayerId, choice: seq<int>, c: int, targets: seq<Target>)
    requires IsChoice(choice, players, targets) && 0 <= c < |targets|
    ensures Refused(players + [p], choice + [c]) == Refused(players, choice)
    ensures forall id ::
              SentTo(players + [p], choice + [c], targets, id) ==
              SentTo(players, choice, targets, id) + if id == targets[c].id then [p] else []
  {
    assert (players + [p])[..|players|] == players && (choice + [c])[..|players|] == choice;
  }

  lemma SeatMirrored(targets: seq<Target>, now: seq<Target>, choice: seq<int>, best: int)
    requires Mirrors(now, targets, choice) && 0 <= best < |targets|
    ensures Mirrors(now[best := now[best].(effectiveLoad := now[best].effectiveLoad + 1)], targets, choice + [best])
  {
    forall t | 0 <= t < |targets| {
      GivenAppend(choice, best, t);
    }
  }

  /** When no target has room, all free seats are taken and the loads do not change. */
  lemma EveryoneFull(targets: seq<Target>, now: seq<Target>, choice: seq<int>, i: nat)
    requires Mirrors(now, targets, choice)
    requires forall t | 0 <= t < |now| :: !HasRoom(now[t])
    requires SeatsWell(targets, choice, i)
    ensures SeatsWell(targets, choice + [REJECTED], i + 1)
    ensures Mirrors(now, targets, choice + [REJECTED])
  {
    GivenAllAppend(choice, REJECTED, |targets|);
    forall t | 0 <= t < |targets| ensures GivenAll(choice, |targets|)[t] == FreeSeats(targets)[t] {
      assert !HasRoom(now[t]);
    }
    assert GivenAll(choice, |targets|) == FreeSeats(targets);
    forall t | 0 <= t < |targets| {
      GivenAppend(choice, REJECTED, t);
    }
  }

  /** Seating one more player at the least-loaded target keeps the allocation allowed and levelled. */
  lemma OneMoreSeat(targets: seq<Target>, now: seq<Target>, choice: seq<int>, best: int, i: nat)
    requires Mirrors(now, targets, choice)
    requires 0 <= best < |targets| && HasRoom(now[best])
    requires forall t | 0 <= t < |now| && HasRoom(now[t]) :: Precedes(now[best], now[t])
    requires SeatsWell(targets, choice, i)
    ensures SeatsWell(targets, choice + [best], i + 1)
  {
    var n := |targets|;
    var seats := GivenAll(choice, n);
    GivenAllAppend(choice, best, n);
    SumUpdate(seats, best, seats[best] + 1);
    assert HasRoom(now[best]);
    assert Allowed(targets, seats[best := seats[best] + 1]);
    SumMonotone(seats[best := seats[best] + 1], FreeSeats(targets));
    StaysLevelled(targets, seats, best) by {
      forall t | 0 <= t < n && targets[t].effectiveLoad + seats[t] < targets[t].maximumPlayers
        ensures targets[best].effectiveLoad + seats[best] <= targets[t].effectiveLoad + seats[t]
      {
        assert HasRoom(now[t]);
        assert Precedes(now[best], now[t]);
      }
    }
  }

  lemma StaysLevelled(targets: seq<Target>, seats: seq<int>, best: int)
    requires |seats| == |targets| && 0 <= best < |targets| && Levelled(targets, seats)
    requires forall t | 0 <= t < |targets| && targets[t].effectiveLoad + seats[t] < targets[t].maximumPlayers ::
               targets[best].effectiveLoad + seats[best] <= targets[t].effectiveLoad + seats[t]
    ensures Levelled(targets, seats[best := seats[best] + 1])
  {
  }

  // ----- Optimality

  ghost function Squared(s: seq<int>): (r: seq<int>)
    ensures |r| == |s| && forall i | 0 <= i < |r| :: r[i] == s[i] * s[i]
  {
    seq(|s|, i requires 0 <= i < |s| => s[i] * s[i])
  }

  ghost function SumOfSquares(s: seq<int>): int {
    Sum(Squared(s))
  }

  /** A level that separates the targets an alternative uses more from those it uses less. */
  lemma SeparatingLevel(targets: seq<Target>, seats: seq<int>, other: seq<int>) returns (level: int)
    requires Allowed(targets, seats) && Levelled(targets, seats) && Allowed(targets, other)
    ensures forall i | 0 <= i < |targets| && other[i] > seats[i] :: Filled(targets, seats)[i] >= level
    ensures (exists i :: 0 <= i < |targets| && other[i] > seats[i]) ==>
              forall i | 0 <= i < |targets| && other[i] < seats[i] :: Filled(targets, seats)[i] <= level + 1
  {
    var loads := Filled(targets, seats);
    if j :| 0 <= j < |targets| && other[j] > seats[j] {
      var k := LowestRaised(loads, seats, other);
      level := loads[k];
      forall i | 0 <= i < |targets| && other[i] < seats[i] ensures loads[i] <= level + 1 {
        assert other[k] <= FreeSeats(targets)[k];
      }
    } else {
      level := 0;
    }
  }

  lemma LowestRaised(loads: seq<int>, seats: seq<int>, other: seq<int>) returns (k: nat)
    requires |loads| == |seats| == |other|
    requires exists j :: 0 <= j < |seats| && other[j] > seats[j]
    ensures k < |loads| && other[k] > seats[k]
    ensures forall i | 0 <= i < |loads| && other[i] > seats[i] :: loads[i] >= loads[k]
  {
    k :| k < |loads| && other[k] > seats[k];
    for i := 0 to |loads|
      invariant k < |loads| && other[k] > seats[k]
      invariant forall j | 0 <= j < i && other[j] > seats[j] :: loads[j] >= loads[k]
    {
      if other[i] > seats[i] && loads[i] < loads[k] {
        k := i;
      }
    }
  }

  /** Moving d seats across a separating level costs at least d per unit of level. */
  lemma MovingCosts(d: int, e: int)
    requires d > 0 ==> e >= 0
    requires d < 0 ==> e <= 1
    ensures 2 * (d * e) + d * d - d >= 0
  {
    if d > 0 {
      assert d * e >= 0;
      assert d * d >= d;
    } else if d < 0 {
      assert (-d) * (1 - e) >= 0;
      assert (-d) * (1 - e) == -d + d * e;
      assert d * d + d >= 0;
    }
  }

  lemma SquareOfSum(l: int, d: int)
    ensures (l + d) * (l + d) == l * l + 2 * (d * l) + d * d
  {
  }

  lemma SquareGap(load: int, seat: int, other: int, level: int)
    requires other > seat ==> load + seat >= level
    requires other < seat ==> load + seat <= level + 1
    ensures (load + other) * (load + other) >=
            (load + seat) * (load + seat) + (other - seat) * (2 * level + 1)
  {
    var d, l := other - seat, load + seat;
    MovingCosts(d, l - level);
    SquareOfSum(l, d);
    assert d * (l - level) == d * l - d * level;
    assert d * (2 * level + 1) == 2 * (d * level) + d;
    assert load + other == l + d;
  }

  lemma {:induction false} SumOfGaps(a: seq<int>, b: seq<int>, x: seq<int>, y: seq<int>, rate: int)
    requires |a| == |b| == |x| == |y|
    requires forall i | 0 <= i < |a| :: b[i] >= a[i] + (y[i] - x[i]) * rate
    ensures Sum(b) >= Sum(a) + (Sum(y) - Sum(x)) * rate
  {
    if a != [] {
      var n := |a| - 1;
      SumOfGaps(a[..n], b[..n], x[..n], y[..n], rate);
      assert (Sum(y) - Sum(x)) * rate == (Sum(y[..n]) - Sum(x[..n])) * rate + (y[n] - x[n]) * rate;
    }
  }

  /**
   A levelled allocation minimises the sum of squared loads among all
   allocations that seat as many players.
   */
  lemma LevelledIsOptimal(targets: seq<Target>, seats: seq<int>, other: seq<int>)
    requires Allowed(targets, seats) && Levelled(targets, seats)
    requires Allowed(targets, other) && Sum(other) == Sum(seats)
    ensures SumOfSquares(Filled(targets, seats)) <= SumOfSquares(Filled(targets, other))
  {
    if exists i :: 0 <= i < |targets| && other[i] > seats[i] {
      var level := SeparatingLevel(targets, seats, other);
      forall i | 0 <= i < |targets|
        ensures Squared(Filled(targets, other))[i] >=
                Squared(Filled(targets, seats))[i] + (other[i] - seats[i]) * (2 * level + 1)
      {
        SquareGap(targets[i].effectiveLoad, seats[i], other[i], level);
      }
      SumOfGaps(Squared(Filled(targets, seats)), Squared(Filled(targets, other)), seats, other, 2 * level + 1);
    } else {
      SameWhenNothingRaised(seats, other);
    }
  }

  lemma {:induction false} SameWhenNothingRaised(seats: seq<int>, other: seq<int>)
    requires |seats| == |other| && Sum(seats) <= Sum(other)
    requires forall i | 0 <= i < |seats| :: other[i] <= seats[i]
    ensures seats == other
  {
    if seats != [] {
      var n := |seats| - 1;
      SumMonotone(other[..n], seats[..n]);
      SameWhenNothingRaised(seats[..n], other[..n]);
      assert seats == seats[..n] + [seats[n]] && other == other[..n] + [other[n]];
    }
  }

  /**
   The greedy allocation is best possible: nobody can seat more of the players,
   and nobody who seats as many gets a smaller sum of squared loads.
   */
  lemma GreedyIsOptimal(players: nat, targets: seq<Target>, seats: seq<int>, other: seq<int>)
    requires Allowed(targets, seats) && Levelled(targets, seats)
    requires Sum(seats) == if players <= Sum(FreeSeats(targets)) then players else Sum(FreeSeats(targets))
    requires Allowed(targets, other) && Sum(other) <= players
    ensures Sum(other) <= Sum(seats)
    ensures Sum(other) == Sum(seats) ==>
              SumOfSquares(Filled(targets, seats)) <= SumOfSquares(Filled(targets, other))
  {
    SumMonotone(other, FreeSeats(targets));
    if Sum(other) == Sum(seats) {
      LevelledIsOptimal(targets, seats, other);
    }
  }

  /** Every requested player is either sent to exactly one target or refused; nobody is lost or invented. */
  lemma {:induction false} PlayersAreConserved(players: seq<PlayerId>, choice: seq<int>, targets: seq<Target>, ids: seq<TargetId>)
    requires IsChoice(choice, players, targets)
    requires Distinct(ids)
    requires forall t | 0 <= t < |targets| :: targets[t].id in ids
    ensures multiset(players) == multiset(Refused(players, choice)) + AllSent(players, choice, targets, ids)
  {
    if players == [] {
      NothingSent(choice, targets, ids);
    } else {
      var n := |players| - 1;
      PlayersAreConserved(players[..n], choice[..n], targets, ids);
      assert players == players[..n] + [players[n]] && choice == choice[..n] + [choice[n]];
      OneMoreConserved(players[..n], players[n], choice[..n], choice[n], targets, ids);
    }
  }

  lemma OneMoreConserved(
      players: seq<PlayerId>, p: PlayerId, choice: seq<int>, c: int, targets: seq<Target>, ids: seq<TargetId>)
    requires IsChoice(choice, players, targets) && REJECTED <= c < |targets|
    requires Distinct(ids)
    requires forall t | 0 <= t < |targets| :: targets[t].id in ids
    requires multiset(players) == multiset(Refused(players, choice)) + AllSent(players, choice, targets, ids)
    ensures multiset(players + [p]) ==
            multiset(Refused(players + [p], choice + [c])) + AllSent(players + [p], choice + [c], targets, ids)
  {
    if c == REJECTED {
      OneMoreRejected(players, p, choice, targets);
      SentUnchanged(players, p, choice, targets, ids);
    } else {
      OneMoreSent(players, p, choice, c, targets);
      SentGrows(players, p, choice, c, targets, ids);
    }
  }

  ghost function AllSent(players: seq<PlayerId>, choice: seq<int>, targets: seq<Target>, ids: seq<TargetId>): multiset<PlayerId>
    requires IsChoice(choice, players, targets)
  {
    if ids == [] then multiset{}
    else AllSent(players, choice, targets, ids[1..]) + multiset(SentTo(players, choice, targets, ids[0]))
  }

  lemma {:induction false} NothingSent(choice: seq<int>, targets: seq<Target>, ids: seq<TargetId>)
    requires choice == []
    ensures AllSent([], choice, targets, ids) == multiset{}
  {
    if ids != [] {
      NothingSent(choice, targets, ids[1..]);
    }
  }

  lemma {:induction false} SentUnchanged(players: seq<PlayerId>, p: PlayerId, choice: seq<int>, targets: seq<Target>, ids: seq<TargetId>)
    requires IsChoice(choice, players, targets)
    ensures AllSent(players + [p], choice + [REJECTED], targets, ids) == AllSent(players, choice, targets, ids)
  {
    if ids != [] {
      SentUnchanged(players, p, choice, targets, ids[1..]);
      OneMoreRejected(players, p, choice, targets);
    }
  }

  lemma SentToGrows(players: seq<PlayerId>, p: PlayerId, choice: seq<int>, c: int, targets: seq<Target>, id: TargetId)
    requires IsChoice(choice, players, targets) && 0 <= c < |targets|
    ensures multiset(SentTo(players + [p], choice + [c], targets, id)) ==
            multiset(SentTo(players, choice, targets, id)) + if targets[c].id == id then multiset{p} else multiset{}
  {
    OneMoreSent(players, p, choice, c, targets);
  }

  lemma {:induction false} SentGrows(players: seq<PlayerId>, p: PlayerId, choice: seq<int>, c: int, targets: seq<Target>, ids: seq<TargetId>)
    requires IsChoice(choice, players, targets) && 0 <= c < |targets|
    requires Distinct(ids)
    ensures AllSent(players + [p], choice + [c], targets, ids) ==
            AllSent(players, choice, targets, ids) + if targets[c].id in ids then multiset{p} else multiset{}
  {
    if ids != [] {
      SentGrows(players, p, choice, c, targets, ids[1..]);
      assert ids == [ids[0]] + ids[1..];
      assert ids[0] !in ids[1..];
      SentToGrows(players, p, choice, c, targets, ids[0]);
    }
  }
}
