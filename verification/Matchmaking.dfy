/**
 The search for team profiles (orchestrator/src/domain/matchmaking.ts): the profiles
 it yields are exactly those of the ways to put whole tickets into teams.
 */
module Matchmaking {
  import opened Basics
  import opened Assignments

  const MAX_SAFE_INTEGER := 9007199254740991

  // ----- Comparing number lists

  function At(p: Profile, i: nat): int {
    if i < |p| then p[i] else 0
  }

  function CompareFrom(left: Profile, right: Profile, i: nat): int
    decreases |left| + |right| - i
  {
    if i >= |left| && i >= |right| then 0
    else if At(left, i) != At(right, i) then At(left, i) - At(right, i)
    else CompareFrom(left, right, i + 1)
  }

  /** Lexicographic comparison; a missing position counts as 0. */
  function CompareNumbers(left: Profile, right: Profile): int {
    CompareFrom(left, right, 0)
  }

  ghost predicate AgreeBefore(left: Profile, right: Profile, k: nat) {
    forall i: nat | i < k :: At(left, i) == At(right, i)
  }

  /** What the comparison means: the first position that differs decides. */
  lemma {:induction false} FirstDifference(left: Profile, right: Profile, from: nat)
    returns (k: nat)
    requires AgreeBefore(left, right, from)
    ensures AgreeBefore(left, right, k)
    ensures CompareFrom(left, right, from) == At(left, k) - At(right, k)
    ensures CompareFrom(left, right, from) == 0 ==> k >= |left| && k >= |right|
    decreases |left| + |right| - from
  {
    if (from >= |left| && from >= |right|) || At(left, from) != At(right, from) {
      k := from;
    } else {
      k := FirstDifference(left, right, from + 1);
    }
  }

  lemma DifferenceDecides(left: Profile, right: Profile, k: nat)
    requires AgreeBefore(left, right, k) && At(left, k) != At(right, k)
    ensures CompareNumbers(left, right) == At(left, k) - At(right, k)
  {
    var j := FirstDifference(left, right, 0);
    assert k < j ==> At(left, k) == At(right, k);
  }

  lemma CompareNumbersLaws(a: Profile, b: Profile, c: Profile)
    ensures CompareNumbers(a, b) == -CompareNumbers(b, a)
    ensures CompareNumbers(a, b) <= 0 && CompareNumbers(b, c) <= 0 ==> CompareNumbers(a, c) <= 0
    ensures CompareNumbers(a, b) <= 0 && CompareNumbers(b, c) <= 0 && CompareNumbers(a, c) == 0 ==>
              CompareNumbers(a, b) == 0 && CompareNumbers(b, c) == 0
    ensures |a| == |b| && CompareNumbers(a, b) == 0 ==> a == b
  {
    var i := FirstDifference(a, b, 0);
    var j := FirstDifference(b, c, 0);
    if CompareNumbers(a, b) != 0 {
      DifferenceDecides(b, a, i);
    } else {
      var k := FirstDifference(b, a, 0);
      assert At(a, k) == At(b, k) by {
        if k < i { assert AgreeBefore(a, b, i); }
      }
      if |a| == |b| {
        forall n: nat | n < |a| ensures a[n] == b[n] {
          assert At(a, n) == At(b, n);
        }
      }
    }
    if CompareNumbers(a, b) <= 0 && CompareNumbers(b, c) <= 0 {
      CompareTransitive(a, b, c, i, j);
    }
  }

  lemma CompareTransitive(a: Profile, b: Profile, c: Profile, i: nat, j: nat)
    requires AgreeBefore(a, b, i) && CompareNumbers(a, b) == At(a, i) - At(b, i) <= 0
    requires AgreeBefore(b, c, j) && CompareNumbers(b, c) == At(b, j) - At(c, j) <= 0
    requires CompareNumbers(a, b) == 0 ==> i >= |a| && i >= |b|
    requires CompareNumbers(b, c) == 0 ==> j >= |b| && j >= |c|
    ensures CompareNumbers(a, c) <= 0
    ensures CompareNumbers(a, c) == 0 ==> CompareNumbers(a, b) == 0 && CompareNumbers(b, c) == 0
  {
    var k := FirstDifference(a, c, 0);
    if CompareNumbers(a, b) == 0 {
      assert forall n: nat :: At(a, n) == At(b, n);
    }
    if CompareNumbers(b, c) == 0 {
      assert forall n: nat :: At(b, n) == At(c, n);
    }
    var m := if i < j then i else j;
    if CompareNumbers(a, b) != 0 && CompareNumbers(b, c) != 0 {
      DifferenceDecides(a, c, m);
    } else if CompareNumbers(a, b) != 0 {
      DifferenceDecides(a, c, i);
    } else if CompareNumbers(b, c) != 0 {
      DifferenceDecides(a, c, j);
    }
  }

  // ----- The search

  ghost predicate StrictlyOrdered(profiles: seq<Profile>) {
    forall i, j :: 0 <= i < j < |profiles| ==> CompareNumbers(profiles[i], profiles[j]) < 0
  }

  ghost predicate PlacedFrom(q: Profile, p: Profile, size: int, teamSize: int, teams: nat) {
    exists team: nat :: team < teams && IsPlaced(q, p, team, size, teamSize)
  }

  /** q comes from one of the first n profiles. */
  ghost predicate PlacedFromSome(
      q: Profile, profiles: seq<Profile>, n: nat, size: int, teamSize: int, teamCount: nat)
    requires n <= |profiles|
  {
    exists i :: 0 <= i < n && PlacedFrom(q, profiles[i], size, teamSize, teamCount)
  }

  lemma LexIsTotalPreorder()
    ensures TotalPreorder((a: Profile, b: Profile) => CompareNumbers(a, b) <= 0)
  {
    forall a: Profile, b: Profile, c: Profile
      ensures CompareNumbers(a, b) <= 0 || CompareNumbers(b, a) <= 0
      ensures CompareNumbers(a, b) <= 0 && CompareNumbers(b, c) <= 0 ==> CompareNumbers(a, c) <= 0
    {
      CompareNumbersLaws(a, b, c);
    }
  }

  /** Sorting distinct profiles of one length leaves them strictly ordered. */
  method SortProfiles(next: seq<Profile>, ghost teamCount: nat) returns (r: seq<Profile>)
    requires Distinct(next) && forall p | p in next :: |p| == teamCount
    ensures StrictlyOrdered(r)
    ensures forall p :: p in r <==> p in next
  {
    LexIsTotalPreorder();
    r := SortBy(next, (a: Profile, b: Profile) => CompareNumbers(a, b) <= 0);
    SortedDistinct(next, r, teamCount);
  }

  lemma SortedDistinct(next: seq<Profile>, r: seq<Profile>, teamCount: nat)
    requires Distinct(next) && multiset(r) == multiset(next)
    requires forall p | p in next :: |p| == teamCount
    requires forall i, j :: 0 <= i < j < |r| ==> CompareNumbers(r[i], r[j]) <= 0
    ensures StrictlyOrdered(r)
    ensures forall p :: p in r <==> p in next
  {
    forall p ensures p in r <==> p in next {
      assert p in r <==> p in multiset(r);
      assert p in next <==> p in multiset(next);
    }
    forall i, j | 0 <= i < j < |r| ensures CompareNumbers(r[i], r[j]) < 0 {
      assert r[i] in next && r[j] in next;
      CompareNumbersLaws(r[i], r[j], r[j]);
      if r[i] == r[j] {
        TwiceInMultiset(r, i, j);
        DistinctCountsOnce(next, r[i]);
      }
    }
  }

  lemma TwiceInMultiset(s: seq<Profile>, i: nat, j: nat)
    requires i < j < |s| && s[i] == s[j]
    ensures multiset(s)[s[i]] >= 2
  {
    assert s == s[..j] + ([s[j]] + s[j + 1..]);
    assert s[i] in s[..j];
  }

  lemma {:induction false} DistinctCountsOnce(s: seq<Profile>, p: Profile)
    requires Distinct(s)
    ensures multiset(s)[p] <= 1
  {
    if s != [] {
      var n := |s| - 1;
      DistinctCountsOnce(s[..n], p);
      assert s == s[..n] + [s[n]];
      if s[n] == p {
        assert p !in s[..n];
      }
    }
  }

  /** Adds every placement of one ticket into one profile, keeping the first of equal results. */
  method PlaceTicket(next0: seq<Profile>, profile: Profile, size: int, teamCount: nat, teamSize: int)
    returns (next: seq<Profile>)
    requires |profile| == teamCount && Distinct(next0)
    requires forall p | p in next0 :: |p| == teamCount
    ensures Distinct(next) && forall p | p in next :: |p| == teamCount
    ensures forall q :: q in next <==> q in next0 || PlacedFrom(q, profile, size, teamSize, teamCount)
  {
    next := next0;
    var team := 0;
    while team < teamCount
      invariant 0 <= team <= teamCount
      invariant Distinct(next) && forall p | p in next :: |p| == teamCount
      invariant forall q :: q in next <==> q in next0 || PlacedFrom(q, profile, size, teamSize, team)
    {
      ghost var before := next;
      if profile[team] + size <= teamSize {
        var placed := SortNumbers(profile[team := profile[team] + size]);
        SameLength(placed, profile[team := profile[team] + size]);
        if placed !in next {
          next := next + [placed];
        }
        assert IsPlaced(placed, profile, team, size, teamSize);
        assert forall q :: q in next <==> q in before || q == placed;
        forall q ensures IsPlaced(q, profile, team, size, teamSize) ==> q == placed {
          if IsPlaced(q, profile, team, size, teamSize) {
            AscendingIsUnique(q, placed);
          }
        }
      }
      StepPlacedFrom(profile, size, teamSize, team);
      team := team + 1;
    }
  }

  lemma StepPlacedFrom(profile: Profile, size: int, teamSize: int, team: nat)
    ensures forall q :: PlacedFrom(q, profile, size, teamSize, team + 1) <==>
                        PlacedFrom(q, profile, size, teamSize, team) || IsPlaced(q, profile, team, size, teamSize)
  {
    forall q
      ensures PlacedFrom(q, profile, size, teamSize, team + 1) <==>
              PlacedFrom(q, profile, size, teamSize, team) || IsPlaced(q, profile, team, size, teamSize)
    {
      if PlacedFrom(q, profile, size, teamSize, team) {
        var u: nat :| u < team && IsPlaced(q, profile, u, size, teamSize);
        assert u < team + 1;
      }
    }
  }

  /** One round: every profile with the ticket in every team that has room, deduplicated and sorted. */
  method ExtendProfiles(profiles: seq<Profile>, size: int, teamCount: nat, teamSize: int)
    returns (extended: seq<Profile>)
    requires forall p | p in profiles :: |p| == teamCount
    ensures StrictlyOrdered(extended)
    ensures forall q :: q in extended <==> PlacedFromSome(q, profiles, |profiles|, size, teamSize, teamCount)
  {
    var next: seq<Profile> := [];
    for i := 0 to |profiles|
      invariant Distinct(next) && forall p | p in next :: |p| == teamCount
      invariant forall q :: q in next <==> PlacedFromSome(q, profiles, i, size, teamSize, teamCount)
    {
      next := PlaceTicket(next, profiles[i], size, teamCount, teamSize);
    }
    extended := SortProfiles(next, teamCount);
  }

  /**
   Rebuilds every anonymous team occupancy: the result lists, once each and in
   order, exactly the sorted load vectors of the assignments of whole tickets.
   */
  method ComputeFeasibleProfiles(ticketSizes: seq<int>, teamCount: int, teamSize: int)
    returns (profiles: seq<Profile>)
    ensures StrictlyOrdered(profiles)
    ensures forall p :: p in profiles <==>
              ValidTickets(ticketSizes, teamCount, teamSize) && Achievable(p, ticketSizes, teamCount, teamSize)
  {
    if teamCount < 1 || teamSize < 1 {
      return [];
    }
    profiles := [seq(teamCount, _ => 0)];
    var k := 0;
    OnlyEmptyProfile(profiles[0], teamCount, teamSize);
    assert ticketSizes[..0] == [];
    while k < |ticketSizes|
      invariant 0 <= k <= |ticketSizes|
      invariant ValidTickets(ticketSizes[..k], teamCount, teamSize)
      invariant StrictlyOrdered(profiles)
      invariant forall p :: p in profiles <==> Achievable(p, ticketSizes[..k], teamCount, teamSize)
    {
      var ticketSize := ticketSizes[k];
      if ticketSize < 1 || ticketSize > teamSize {
        return [];
      }
      forall p | p in profiles ensures |p| == teamCount {
        AchievableShape(p, ticketSizes[..k], teamCount, teamSize);
      }
      NextProfiles(profiles, ticketSizes[..k], ticketSize, teamCount, teamSize);
      assert ticketSizes[..k + 1] == ticketSizes[..k] + [ticketSize];
      profiles := ExtendProfiles(profiles, ticketSize, teamCount, teamSize);
      k := k + 1;
      if profiles == [] {
        NothingLeft(ticketSizes, k, teamCount, teamSize);
        return [];
      }
    }
    assert ticketSizes[..k] == ticketSizes;
  }

  lemma OnlyEmptyProfile(zero: Profile, teamCount: nat, teamSize: int)
    requires teamCount >= 1 && teamSize >= 1 && zero == seq(teamCount, _ => 0)
    ensures forall p :: p == zero <==> Achievable(p, [], teamCount, teamSize)
  {
    var loads := Loads([], [], teamCount);
    assert loads == zero;
    assert Realises([], zero, [], teamCount, teamSize);
    forall p | Achievable(p, [], teamCount, teamSize) ensures p == zero {
      var teams :| Realises(teams, p, [], teamCount, teamSize);
      AscendingIsUnique(p, zero);
    }
  }

  /** One round of the search is exact: sound and complete for one more ticket. */
  lemma NextProfiles(profiles: seq<Profile>, sizes: seq<int>, size: int, teamCount: nat, teamSize: int)
    requires forall p :: p in profiles <==> Achievable(p, sizes, teamCount, teamSize)
    requires forall p | p in profiles :: |p| == teamCount
    requires size >= 0
    ensures forall q :: PlacedFromSome(q, profiles, |profiles|, size, teamSize, teamCount) <==>
                        Achievable(q, sizes + [size], teamCount, teamSize)
  {
    forall q
      ensures PlacedFromSome(q, profiles, |profiles|, size, teamSize, teamCount) <==>
              Achievable(q, sizes + [size], teamCount, teamSize)
    {
      if PlacedFromSome(q, profiles, |profiles|, size, teamSize, teamCount) {
        var i :| 0 <= i < |profiles| && PlacedFrom(q, profiles[i], size, teamSize, teamCount);
        var team: nat :| team < teamCount && IsPlaced(q, profiles[i], team, size, teamSize);
        assert profiles[i] in profiles;
        PlacedIsAchievable(q, profiles[i], team, size, sizes, teamCount, teamSize);
      }
      if Achievable(q, sizes + [size], teamCount, teamSize) {
        var p, team := AchievableWasPlaced(q, size, sizes, teamCount, teamSize);
        assert p in profiles;
        var i :| 0 <= i < |profiles| && profiles[i] == p;
        assert PlacedFrom(q, profiles[i], size, teamSize, teamCount);
      }
    }
  }

  lemma NothingLeft(sizes: seq<int>, k: nat, teamCount: nat, teamSize: int)
    requires k <= |sizes|
    requires forall p :: !Achievable(p, sizes[..k], teamCount, teamSize)
    ensures ValidTickets(sizes, teamCount, teamSize) ==> forall p :: !Achievable(p, sizes, teamCount, teamSize)
  {
    if ValidTickets(sizes, teamCount, teamSize) {
      AssignableHasProfile(sizes[..k], teamCount, teamSize);
      AssignableHasProfile(sizes, teamCount, teamSize);
      if Assignable(sizes, teamCount, teamSize) {
        PrefixAssignable(sizes, k, teamCount, teamSize);
      }
    }
  }
}
