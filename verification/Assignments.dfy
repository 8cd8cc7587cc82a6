/**
 What team profiles are about: ways of putting whole tickets into teams.
 Every definition here is independent of the search that computes profiles.
 */
module Assignments {
  import opened Basics

  /** Occupancy of the anonymous teams, smallest first. */
  type Profile = seq<int>

  /** Players that the ticket-to-team choice `teams` puts into team t. */
  ghost function Load(sizes: seq<int>, teams: seq<nat>, t: nat): int
    requires |sizes| == |teams|
  {
    if sizes == [] then 0
    else
      var n := |sizes| - 1;
      Load(sizes[..n], teams[..n], t) + if teams[n] == t then sizes[n] else 0
  }

  ghost function Loads(sizes: seq<int>, teams: seq<nat>, teamCount: nat): (r: seq<int>)
    requires |sizes| == |teams|
    ensures |r| == teamCount && forall t | 0 <= t < teamCount :: r[t] == Load(sizes, teams, t)
  {
    seq(teamCount, t requires 0 <= t => Load(sizes, teams, t))
  }

  /** Every ticket goes, whole, to one of the teams and no team is overfull. */
  ghost predicate Assigns(teams: seq<nat>, sizes: seq<int>, teamCount: nat, teamSize: int) {
    && |teams| == |sizes|
    && (forall i | 0 <= i < |teams| :: teams[i] < teamCount)
    && (forall t: nat | t < teamCount :: Load(sizes, teams, t) <= teamSize)
  }

  ghost predicate Assignable(sizes: seq<int>, teamCount: nat, teamSize: int) {
    exists teams :: Assigns(teams, sizes, teamCount, teamSize)
  }

  ghost predicate Realises(teams: seq<nat>, p: Profile, sizes: seq<int>, teamCount: nat, teamSize: int) {
    && Assigns(teams, sizes, teamCount, teamSize)
    && Ascending(p)
    && multiset(p) == multiset(Loads(sizes, teams, teamCount))
  }

  /** p is the sorted load vector of some assignment. */
  ghost predicate Achievable(p: Profile, sizes: seq<int>, teamCount: nat, teamSize: int) {
    exists teams :: Realises(teams, p, sizes, teamCount, teamSize)
  }

  /** What the search accepts as input; anything else yields no profile. */
  predicate ValidTickets(sizes: seq<int>, teamCount: int, teamSize: int) {
    teamCount >= 1 && teamSize >= 1 && forall i | 0 <= i < |sizes| :: 1 <= sizes[i] <= teamSize
  }

  lemma LoadAppend(sizes: seq<int>, teams: seq<nat>, size: int, team: nat, t: nat)
    requires |sizes| == |teams|
    ensures Load(sizes + [size], teams + [team], t) == Load(sizes, teams, t) + if team == t then size else 0
  {
    assert (sizes + [size])[..|sizes|] == sizes && (teams + [team])[..|teams|] == teams;
  }

  /** A ticket can be taken out of any position. */
  lemma {:induction false} LoadWithout(sizes: seq<int>, teams: seq<nat>, i: nat, t: nat)
    requires |sizes| == |teams| && i < |sizes|
    ensures Load(sizes, teams, t) ==
            Load(sizes[..i] + sizes[i + 1..], teams[..i] + teams[i + 1..], t) + if teams[i] == t then sizes[i] else 0
    decreases |sizes|
  {
    var n := |sizes| - 1;
    if i == n {
      assert sizes[..i] + sizes[i + 1..] == sizes[..n] && teams[..i] + teams[i + 1..] == teams[..n];
    } else {
      LoadWithout(sizes[..n], teams[..n], i, t);
      var s, c := sizes[..i] + sizes[i + 1..], teams[..i] + teams[i + 1..];
      assert s[..n - 1] == sizes[..n][..i] + sizes[..n][i + 1..];
      assert c[..n - 1] == teams[..n][..i] + teams[..n][i + 1..];
    }
  }

  lemma {:induction false} LoadNonNegative(sizes: seq<int>, teams: seq<nat>, t: nat)
    requires |sizes| == |teams|
    requires forall i | 0 <= i < |sizes| :: sizes[i] >= 0
    ensures Load(sizes, teams, t) >= 0
  {
    if sizes != [] {
      LoadNonNegative(sizes[..|sizes| - 1], teams[..|sizes| - 1], t);
    }
  }

  lemma {:induction false} LoadMonotone(sizes: seq<int>, smaller: seq<int>, teams: seq<nat>, t: nat)
    requires |sizes| == |smaller| == |teams|
    requires forall i | 0 <= i < |sizes| :: smaller[i] <= sizes[i]
    ensures Load(smaller, teams, t) <= Load(sizes, teams, t)
  {
    if sizes != [] {
      var n := |sizes| - 1;
      LoadMonotone(sizes[..n], smaller[..n], teams[..n], t);
    }
  }

  /** Teams together hold exactly the players of the tickets. */
  lemma {:induction false} LoadsConserveSize(sizes: seq<int>, teams: seq<nat>, teamCount: nat)
    requires |sizes| == |teams|
    requires forall i | 0 <= i < |teams| :: teams[i] < teamCount
    ensures Sum(Loads(sizes, teams, teamCount)) == Sum(sizes)
  {
    if sizes == [] {
      SumBounds(Loads(sizes, teams, teamCount), 0, 0);
    } else {
      var n := |sizes| - 1;
      var before := Loads(sizes[..n], teams[..n], teamCount);
      var t := teams[n];
      LoadsConserveSize(sizes[..n], teams[..n], teamCount);
      SumUpdate(before, t, before[t] + sizes[n]);
      assert Loads(sizes, teams, teamCount) == before[t := before[t] + sizes[n]];
    }
  }

  lemma AchievableShape(p: Profile, sizes: seq<int>, teamCount: nat, teamSize: int)
    requires Achievable(p, sizes, teamCount, teamSize)
    requires forall i | 0 <= i < |sizes| :: sizes[i] >= 0
    ensures |p| == teamCount && Ascending(p) && Sum(p) == Sum(sizes)
    ensures forall i | 0 <= i < |p| :: 0 <= p[i] <= teamSize
  {
    var teams :| Realises(teams, p, sizes, teamCount, teamSize);
    var loads := Loads(sizes, teams, teamCount);
    assert |multiset(p)| == |p| && |multiset(loads)| == |loads|;
    SumOfPermutation(p, loads);
    LoadsConserveSize(sizes, teams, teamCount);
    forall i | 0 <= i < |p| ensures 0 <= p[i] <= teamSize {
      assert p[i] in multiset(loads);
      var t :| 0 <= t < |loads| && loads[t] == p[i];
      LoadNonNegative(sizes, teams, t);
    }
  }

  /** Every assignment has its profile. */
  lemma AssignmentHasProfile(teams: seq<nat>, sizes: seq<int>, teamCount: nat, teamSize: int)
    returns (p: Profile)
    requires Assigns(teams, sizes, teamCount, teamSize)
    ensures Realises(teams, p, sizes, teamCount, teamSize)
  {
    p := SortedExists(Loads(sizes, teams, teamCount));
  }

  lemma AssignableHasProfile(sizes: seq<int>, teamCount: nat, teamSize: int)
    ensures Assignable(sizes, teamCount, teamSize) <==> exists p :: Achievable(p, sizes, teamCount, teamSize)
  {
    if Assignable(sizes, teamCount, teamSize) {
      var teams :| Assigns(teams, sizes, teamCount, teamSize);
      var p := AssignmentHasProfile(teams, sizes, teamCount, teamSize);
      assert Achievable(p, sizes, teamCount, teamSize);
    }
    if p :| Achievable(p, sizes, teamCount, teamSize) {
      var teams :| Realises(teams, p, sizes, teamCount, teamSize);
    }
  }

  // ----- Extending an assignment by one ticket

  /** q is p after a ticket of this size joined one of its teams. */
  ghost predicate IsPlaced(q: Profile, p: Profile, team: nat, size: int, teamSize: int) {
    && team < |p| && p[team] + size <= teamSize
    && Ascending(q) && multiset(q) == multiset(p[team := p[team] + size])
  }

  lemma SameLength(s: seq<int>, r: seq<int>)
    requires multiset(s) == multiset(r)
    ensures |s| == |r|
  {
    assert |multiset(s)| == |s| && |multiset(r)| == |r|;
  }

  lemma SameElementIndex(s: seq<int>, r: seq<int>, i: nat) returns (j: nat)
    requires multiset(s) == multiset(r) && i < |s|
    ensures j < |r| && r[j] == s[i]
  {
    assert s[i] in multiset(r);
    j :| j < |r| && r[j] == s[i];
  }

  lemma SameReplacement(p: seq<int>, loads: seq<int>, team: nat, t: nat, x: int)
    requires multiset(p) == multiset(loads) && team < |p| && t < |loads| && p[team] == loads[t]
    ensures multiset(p[team := x]) == multiset(loads[t := x])
  {
    assert multiset(p[team := x]) == multiset(p) - multiset{p[team]} + multiset{x};
  }

  lemma LoadsAppend(sizes: seq<int>, teams: seq<nat>, size: int, team: nat, teamCount: nat)
    requires |sizes| == |teams| && team < teamCount
    ensures Loads(sizes + [size], teams + [team], teamCount) ==
            var before := Loads(sizes, teams, teamCount); before[team := before[team] + size]
  {
    forall t: nat | t < teamCount {
      LoadAppend(sizes, teams, size, team, t);
    }
  }

  lemma PlacedIsAchievable(
      q: Profile, p: Profile, team: nat, size: int, sizes: seq<int>, teamCount: nat, teamSize: int)
    requires Achievable(p, sizes, teamCount, teamSize) && |p| == teamCount
    requires IsPlaced(q, p, team, size, teamSize)
    ensures Achievable(q, sizes + [size], teamCount, teamSize)
  {
    var teams: seq<nat> :| Realises(teams, p, sizes, teamCount, teamSize);
    var loads := Loads(sizes, teams, teamCount);
    var t := SameElementIndex(p, loads, team);
    assert Load(sizes, teams, t) == loads[t] == p[team];
    AssignsAfter(teams, t, size, sizes, teamCount, teamSize);
    PlacedLoads(q, p, team, t, size, sizes, teams, teamCount);
    assert Realises(teams + [t], q, sizes + [size], teamCount, teamSize);
  }

  lemma PlacedLoads(
      q: Profile, p: Profile, team: nat, t: nat, size: int, sizes: seq<int>, teams: seq<nat>, teamCount: nat)
    requires |p| == teamCount && team < |p| && t < teamCount && |sizes| == |teams|
    requires multiset(q) == multiset(p[team := p[team] + size])
    requires multiset(p) == multiset(Loads(sizes, teams, teamCount)) && p[team] == Loads(sizes, teams, teamCount)[t]
    ensures multiset(q) == multiset(Loads(sizes + [size], teams + [t], teamCount))
  {
    SameReplacement(p, Loads(sizes, teams, teamCount), team, t, p[team] + size);
    LoadsAppend(sizes, teams, size, t, teamCount);
  }

  lemma AssignsAfter(teams: seq<nat>, team: nat, size: int, sizes: seq<int>, teamCount: nat, teamSize: int)
    requires Assigns(teams, sizes, teamCount, teamSize)
    requires team < teamCount && Load(sizes, teams, team) + size <= teamSize
    ensures Assigns(teams + [team], sizes + [size], teamCount, teamSize)
  {
    forall u: nat | u < teamCount ensures Load(sizes + [size], teams + [team], u) <= teamSize {
      LoadAppend(sizes, teams, size, team, u);
    }
  }

  lemma AssignsBeforeLast(teams: seq<nat>, team: nat, size: int, sizes: seq<int>, teamCount: nat, teamSize: int)
    requires size >= 0 && |teams| == |sizes|
    requires Assigns(teams + [team], sizes + [size], teamCount, teamSize)
    ensures Assigns(teams, sizes, teamCount, teamSize) && team < teamCount
    ensures Load(sizes, teams, team) + size <= teamSize
  {
    var all := teams + [team];
    assert all[|teams|] == team;
    assert forall i | 0 <= i < |teams| :: teams[i] == all[i];
    forall u: nat | u < teamCount ensures Load(sizes, teams, u) <= teamSize {
      LoadAppend(sizes, teams, size, team, u);
    }
    LoadAppend(sizes, teams, size, team, team);
  }

  lemma AchievableWasPlaced(q: Profile, size: int, sizes: seq<int>, teamCount: nat, teamSize: int)
    returns (p: Profile, team: nat)
    requires Achievable(q, sizes + [size], teamCount, teamSize) && size >= 0
    ensures Achievable(p, sizes, teamCount, teamSize) && |p| == teamCount
    ensures IsPlaced(q, p, team, size, teamSize)
  {
    var all: seq<nat> :| Realises(all, q, sizes + [size], teamCount, teamSize);
    var teams, t := all[..|sizes|], all[|sizes|];
    assert all == teams + [t];
    AssignsBeforeLast(teams, t, size, sizes, teamCount, teamSize);
    var loads := Loads(sizes, teams, teamCount);
    p := AssignmentHasProfile(teams, sizes, teamCount, teamSize);
    SameLength(p, loads);
    team := SameElementIndex(loads, p, t);
    WasPlacedLoads(q, p, team, t, size, sizes, teams, teamCount);
  }

  lemma WasPlacedLoads(
      q: Profile, p: Profile, team: nat, t: nat, size: int, sizes: seq<int>, teams: seq<nat>, teamCount: nat)
    requires |p| == teamCount && team < |p| && t < teamCount && |sizes| == |teams|
    requires multiset(p) == multiset(Loads(sizes, teams, teamCount)) && p[team] == Loads(sizes, teams, teamCount)[t]
    requires multiset(q) == multiset(Loads(sizes + [size], teams + [t], teamCount))
    ensures multiset(q) == multiset(p[team := p[team] + size])
  {
    SameReplacement(p, Loads(sizes, teams, teamCount), team, t, p[team] + size);
    LoadsAppend(sizes, teams, size, t, teamCount);
  }

  // ----- Properties of feasibility that the services rely on

  lemma AssignsWithout(teams: seq<nat>, sizes: seq<int>, i: nat, teamCount: nat, teamSize: int)
    requires Assigns(teams, sizes, teamCount, teamSize) && i < |sizes|
    requires sizes[i] >= 0
    ensures Assigns(teams[..i] + teams[i + 1..], sizes[..i] + sizes[i + 1..], teamCount, teamSize)
  {
    var rest, restTeams := sizes[..i] + sizes[i + 1..], teams[..i] + teams[i + 1..];
    forall t: nat | t < teamCount ensures Load(rest, restTeams, t) <= teamSize {
      LoadWithout(sizes, teams, i, t);
    }
  }

  /** A session stays feasible when one of its tickets leaves. */
  lemma RemovingTicketKeepsFeasibility(sizes: seq<int>, i: nat, teamCount: nat, teamSize: int)
    requires Assignable(sizes, teamCount, teamSize) && i < |sizes|
    requires sizes[i] >= 0
    ensures Assignable(sizes[..i] + sizes[i + 1..], teamCount, teamSize)
  {
    var teams :| Assigns(teams, sizes, teamCount, teamSize);
    AssignsWithout(teams, sizes, i, teamCount, teamSize);
  }

  /** A session stays feasible when members leave a ticket one by one. */
  lemma ShrinkingTicketsKeepsFeasibility(sizes: seq<int>, smaller: seq<int>, teamCount: nat, teamSize: int)
    requires Assignable(sizes, teamCount, teamSize) && |smaller| == |sizes|
    requires forall i | 0 <= i < |sizes| :: smaller[i] <= sizes[i]
    ensures Assignable(smaller, teamCount, teamSize)
  {
    var teams :| Assigns(teams, sizes, teamCount, teamSize);
    forall t: nat | t < teamCount ensures Load(smaller, teams, t) <= teamSize {
      LoadMonotone(sizes, smaller, teams, t);
    }
    assert Assigns(teams, smaller, teamCount, teamSize);
  }

  /** Tickets listed in another order can be given the same teams, with the same loads. */
  lemma {:induction false} ReorderAssignment(sizes: seq<int>, other: seq<int>, teams: seq<nat>, teamCount: nat)
    returns (moved: seq<nat>)
    requires multiset(sizes) == multiset(other) && |teams| == |sizes|
    requires forall i | 0 <= i < |teams| :: teams[i] < teamCount
    ensures |moved| == |other| && forall i | 0 <= i < |moved| :: moved[i] < teamCount
    ensures forall t: nat :: Load(other, moved, t) == Load(sizes, teams, t)
    decreases |other|
  {
    assert |multiset(sizes)| == |sizes| && |multiset(other)| == |other|;
    if other == [] {
      moved := [];
    } else {
      var n := |other| - 1;
      assert other[n] in multiset(sizes);
      var i :| 0 <= i < |sizes| && sizes[i] == other[n];
      MultisetWithout(sizes, i);
      MultisetWithout(other, n);
      assert other[..n] + other[n + 1..] == other[..n];
      var rest := ReorderAssignment(sizes[..i] + sizes[i + 1..], other[..n], teams[..i] + teams[i + 1..], teamCount);
      moved := rest + [teams[i]];
      forall t: nat ensures Load(other, moved, t) == Load(sizes, teams, t) {
        LoadWithout(sizes, teams, i, t);
        LoadAppend(other[..n], rest, other[n], teams[i], t);
        assert other == other[..n] + [other[n]];
      }
    }
  }

  /** The set of achievable profiles depends on the tickets, not on their order. */
  lemma ProfilesIgnoreTicketOrder(p: Profile, sizes: seq<int>, other: seq<int>, teamCount: nat, teamSize: int)
    requires multiset(sizes) == multiset(other)
    ensures Achievable(p, sizes, teamCount, teamSize) <==> Achievable(p, other, teamCount, teamSize)
  {
    if Achievable(p, sizes, teamCount, teamSize) {
      AchievableInOtherOrder(p, sizes, other, teamCount, teamSize);
    }
    if Achievable(p, other, teamCount, teamSize) {
      AchievableInOtherOrder(p, other, sizes, teamCount, teamSize);
    }
  }

  lemma AchievableInOtherOrder(p: Profile, sizes: seq<int>, other: seq<int>, teamCount: nat, teamSize: int)
    requires multiset(sizes) == multiset(other)
    requires Achievable(p, sizes, teamCount, teamSize)
    ensures Achievable(p, other, teamCount, teamSize)
  {
    var teams :| Realises(teams, p, sizes, teamCount, teamSize);
    var moved := ReorderAssignment(sizes, other, teams, teamCount);
    assert Loads(other, moved, teamCount) == Loads(sizes, teams, teamCount);
    assert Realises(moved, p, other, teamCount, teamSize);
  }

  lemma {:induction false} PrefixAssignable(sizes: seq<int>, k: nat, teamCount: nat, teamSize: int)
    requires Assignable(sizes, teamCount, teamSize) && k <= |sizes|
    requires forall i | 0 <= i < |sizes| :: sizes[i] >= 0
    ensures Assignable(sizes[..k], teamCount, teamSize)
    decreases |sizes|
  {
    var n := |sizes| - 1;
    if k <= n {
      RemovingTicketKeepsFeasibility(sizes, n, teamCount, teamSize);
      assert sizes[..n] + sizes[n + 1..] == sizes[..n];
      PrefixAssignable(sizes[..n], k, teamCount, teamSize);
      assert sizes[..n][..k] == sizes[..k];
    } else {
      assert sizes[..k] == sizes;
    }
  }
}
