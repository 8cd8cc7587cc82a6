/**
 The public quality order on profiles, the recommended profile, eligibility,
 and the ranking of sessions for one ticket
 (orchestrator/src/domain/matchmaking.ts).
 */
module ProfileRanking {
  import opened Basics
  import opened Assignments
  import opened Matchmaking

  // ----- Profile quality

  datatype ProfileQuality = ProfileQuality(
    spread: int,
    variance: int,
    emptyTeams: int,
    distanceFromMean: int,
    lexicographic: Profile
  )

  function Abs(x: int): int {
    if x < 0 then -x else x
  }

  function ScaledDistances(p: Profile): (r: seq<int>)
    ensures |r| == |p|
  {
    seq(|p|, i requires 0 <= i < |p| => Abs(p[i] * |p| - Sum(p)))
  }

  function Squares(s: seq<int>): (r: seq<int>)
    ensures |r| == |s|
  {
    seq(|s|, i requires 0 <= i < |s| => s[i] * s[i])
  }

  function CountZeros(p: Profile): int {
    if p == [] then 0 else CountZeros(p[..|p| - 1]) + if p[|p| - 1] == 0 then 1 else 0
  }

  function Quality(p: Profile): ProfileQuality {
    if p == [] then
      ProfileQuality(MAX_SAFE_INTEGER, MAX_SAFE_INTEGER, MAX_SAFE_INTEGER, MAX_SAFE_INTEGER, p)
    else
      ProfileQuality(
        p[|p| - 1] - p[0],
        Sum(Squares(ScaledDistances(p))),
        CountZeros(p),
        Sum(ScaledDistances(p)),
        p)
  }

  function CompareQuality(a: ProfileQuality, b: ProfileQuality): int {
    if a.spread != b.spread then a.spread - b.spread
    else if a.variance != b.variance then a.variance - b.variance
    else if a.emptyTeams != b.emptyTeams then a.emptyTeams - b.emptyTeams
    else if a.distanceFromMean != b.distanceFromMean then a.distanceFromMean - b.distanceFromMean
    else CompareNumbers(a.lexicographic, b.lexicographic)
  }

  function CompareProfileQuality(left: Profile, right: Profile): int {
    CompareQuality(Quality(left), Quality(right))
  }

  lemma CompareQualityLaws(a: ProfileQuality, b: ProfileQuality, c: ProfileQuality)
    ensures CompareQuality(a, b) == -CompareQuality(b, a)
    ensures CompareQuality(a, b) <= 0 && CompareQuality(b, c) <= 0 ==> CompareQuality(a, c) <= 0
    ensures CompareQuality(a, b) <= 0 && CompareQuality(b, c) <= 0 && CompareQuality(a, c) == 0 ==>
              CompareQuality(a, b) == 0 && CompareQuality(b, c) == 0
    ensures CompareQuality(a, b) == 0 && |a.lexicographic| == |b.lexicographic| ==>
              a.lexicographic == b.lexicographic
  {
    CompareNumbersLaws(a.lexicographic, b.lexicographic, c.lexicographic);
  }

  /** On profiles with the same number of teams the public order is a strict total order. */
  lemma QualityIsStrictTotalOrder(a: Profile, b: Profile, c: Profile)
    requires |a| == |b| == |c|
    ensures CompareProfileQuality(a, a) == 0
    ensures CompareProfileQuality(a, b) == 0 <==> a == b
    ensures a != b ==> (CompareProfileQuality(a, b) < 0 <==> !(CompareProfileQuality(b, a) < 0))
    ensures CompareProfileQuality(a, b) < 0 && CompareProfileQuality(b, c) < 0 ==> CompareProfileQuality(a, c) < 0
  {
    CompareQualityLaws(Quality(a), Quality(b), Quality(c));
    CompareQualityLaws(Quality(a), Quality(a), Quality(a));
  }

  // ----- The recommended profile

  /** What the composition of search and selection yields for these tickets. */
  ghost predicate IsRecommended(rec: Option<Profile>, sizes: seq<int>, teamCount: int, teamSize: int) {
    match rec
    case None => forall q :: !(ValidTickets(sizes, teamCount, teamSize) && Achievable(q, sizes, teamCount, teamSize))
    case Some(p) =>
      && ValidTickets(sizes, teamCount, teamSize)
      && Achievable(p, sizes, teamCount, teamSize)
      && forall q | Achievable(q, sizes, teamCount, teamSize) :: q == p || CompareProfileQuality(p, q) < 0
  }

  method SelectRecommendedProfile(profiles: seq<Profile>) returns (recommended: Option<Profile>)
    ensures recommended.None? <==> profiles == []
    ensures recommended.Some? ==> recommended.value in profiles
    ensures recommended.Some? ==> forall q | q in profiles :: CompareProfileQuality(recommended.value, q) <= 0
  {
    recommended := None;
    for i := 0 to |profiles|
      invariant recommended.None? <==> i == 0
      invariant recommended.Some? ==> recommended.value in profiles
      invariant recommended.Some? ==> forall j | 0 <= j < i :: CompareProfileQuality(recommended.value, profiles[j]) <= 0
    {
      if recommended.None? || CompareProfileQuality(profiles[i], recommended.value) < 0 {
        BetterThanAll(profiles[i], recommended, profiles, i);
        recommended := Some(profiles[i]);
      } else {
        CompareQualityLaws(Quality(profiles[i]), Quality(recommended.value), Quality(profiles[i]));
      }
    }
  }

  lemma BetterThanAll(p: Profile, previous: Option<Profile>, profiles: seq<Profile>, n: nat)
    requires n < |profiles| && p == profiles[n]
    requires previous.None? ==> n == 0
    requires previous.Some? ==> CompareProfileQuality(p, previous.value) < 0
    requires previous.Some? ==> forall j | 0 <= j < n :: CompareProfileQuality(previous.value, profiles[j]) <= 0
    ensures forall j | 0 <= j <= n :: CompareProfileQuality(p, profiles[j]) <= 0
  {
    CompareQualityLaws(Quality(p), Quality(p), Quality(p));
    forall j | 0 <= j < n ensures CompareProfileQuality(p, profiles[j]) <= 0 {
      CompareQualityLaws(Quality(p), Quality(previous.value), Quality(profiles[j]));
    }
  }

  /** Search and selection as the services use them: the unique best achievable profile. */
  method Recommend(ticketSizes: seq<int>, teamCount: int, teamSize: int) returns (recommended: Option<Profile>)
    ensures IsRecommended(recommended, ticketSizes, teamCount, teamSize)
  {
    var profiles := ComputeFeasibleProfiles(ticketSizes, teamCount, teamSize);
    recommended := SelectRecommendedProfile(profiles);
    BestIsRecommended(recommended, profiles, ticketSizes, teamCount, teamSize);
  }

  lemma BestIsRecommended(
      rec: Option<Profile>, profiles: seq<Profile>, sizes: seq<int>, teamCount: int, teamSize: int)
    requires forall p :: p in profiles <==>
               ValidTickets(sizes, teamCount, teamSize) && Achievable(p, sizes, teamCount, teamSize)
    requires rec.None? <==> profiles == []
    requires rec.Some? ==> rec.value in profiles
    requires rec.Some? ==> forall q | q in profiles :: CompareProfileQuality(rec.value, q) <= 0
    ensures IsRecommended(rec, sizes, teamCount, teamSize)
  {
    if rec.None? {
      forall q ensures !(ValidTickets(sizes, teamCount, teamSize) && Achievable(q, sizes, teamCount, teamSize)) {
        assert q !in profiles;
      }
    } else {
      forall q | Achievable(q, sizes, teamCount, teamSize) ensures q == rec.value || CompareProfileQuality(rec.value, q) < 0 {
        assert q in profiles;
        AchievableShape(q, sizes, teamCount, teamSize);
        AchievableShape(rec.value, sizes, teamCount, teamSize);
        CompareQualityLaws(Quality(rec.value), Quality(q), Quality(q));
      }
    }
  }

  /** The recommendation depends on the tickets only, not on their order, and is unique. */
  lemma RecommendationIsUnique(
      rec: Option<Profile>, other: Option<Profile>, sizes: seq<int>, reordered: seq<int>, teamCount: int, teamSize: int)
    requires IsRecommended(rec, sizes, teamCount, teamSize)
    requires IsRecommended(other, reordered, teamCount, teamSize)
    requires multiset(sizes) == multiset(reordered)
    ensures rec == other
  {
    ValidTicketsIgnoreOrder(sizes, reordered, teamCount, teamSize);
    if rec.Some? {
      ProfilesIgnoreTicketOrder(rec.value, sizes, reordered, teamCount, teamSize);
    }
    if other.Some? {
      ProfilesIgnoreTicketOrder(other.value, sizes, reordered, teamCount, teamSize);
    }
    if rec.Some? && other.Some? {
      CompareQualityLaws(Quality(rec.value), Quality(other.value), Quality(rec.value));
    }
  }

  lemma ValidTicketsIgnoreOrder(sizes: seq<int>, reordered: seq<int>, teamCount: int, teamSize: int)
    requires multiset(sizes) == multiset(reordered)
    ensures ValidTickets(sizes, teamCount, teamSize) <==> ValidTickets(reordered, teamCount, teamSize)
  {
    assert forall x :: x in multiset(sizes) <==> x in sizes;
    assert forall x :: x in multiset(reordered) <==> x in reordered;
    assert forall i | 0 <= i < |sizes| :: sizes[i] in reordered;
    assert forall i | 0 <= i < |reordered| :: reordered[i] in sizes;
  }

  // ----- Eligibility

  predicate IsProfileEligible(profile: Option<Profile>, minimumPlayersPerTeam: int, maximumTeamSpread: int) {
    && profile.Some? && profile.value != []
    && profile.value[0] >= minimumPlayersPerTeam
    && profile.value[|profile.value| - 1] - profile.value[0] <= maximumTeamSpread
  }

  /** The policy's wish: an assignment with enough players in every team and a small enough spread. */
  ghost predicate Balanced(teams: seq<nat>, sizes: seq<int>, teamCount: nat, teamSize: int, least: int, spread: int) {
    && Assigns(teams, sizes, teamCount, teamSize)
    && (forall t: nat | t < teamCount :: Load(sizes, teams, t) >= least)
    && (forall t: nat, u: nat | t < teamCount && u < teamCount ::
          Load(sizes, teams, t) - Load(sizes, teams, u) <= spread)
  }

  ghost predicate CanBalance(sizes: seq<int>, teamCount: nat, teamSize: int, least: int, spread: int) {
    exists teams :: Balanced(teams, sizes, teamCount, teamSize, least, spread)
  }

  /** A profile reads off the smallest and largest load of the assignments behind it. */
  lemma ProfileShowsBalance(p: Profile, teams: seq<nat>, sizes: seq<int>, teamCount: nat, teamSize: int, least: int, spread: int)
    requires teamCount >= 1 && Realises(teams, p, sizes, teamCount, teamSize)
    ensures IsProfileEligible(Some(p), least, spread) <==> Balanced(teams, sizes, teamCount, teamSize, least, spread)
  {
    var loads := Loads(sizes, teams, teamCount);
    SameLength(p, loads);
    var n := teamCount - 1;
    if IsProfileEligible(Some(p), least, spread) {
      forall t: nat | t < teamCount ensures p[0] <= Load(sizes, teams, t) <= p[n] {
        var j := SameElementIndex(loads, p, t);
      }
    }
    if Balanced(teams, sizes, teamCount, teamSize, least, spread) {
      var lo := SameElementIndex(p, loads, 0);
      var hi := SameElementIndex(p, loads, n);
      assert Load(sizes, teams, lo) >= least;
      assert Load(sizes, teams, hi) - Load(sizes, teams, lo) <= spread;
    }
  }

  /** An eligible recommendation is always backed by a balanced assignment. */
  lemma EligibilityIsSound(rec: Option<Profile>, sizes: seq<int>, teamCount: int, teamSize: int, least: int, spread: int)
    requires IsRecommended(rec, sizes, teamCount, teamSize)
    requires IsProfileEligible(rec, least, spread)
    ensures CanBalance(sizes, teamCount, teamSize, least, spread)
  {
    var teams :| Realises(teams, rec.value, sizes, teamCount, teamSize);
    ProfileShowsBalance(rec.value, teams, sizes, teamCount, teamSize, least, spread);
  }

  /** No achievable profile has a smaller spread than the recommended one. */
  lemma RecommendationMinimisesSpread(rec: Profile, q: Profile, sizes: seq<int>, teamCount: int, teamSize: int)
    requires IsRecommended(Some(rec), sizes, teamCount, teamSize)
    requires Achievable(q, sizes, teamCount, teamSize)
    ensures rec != [] && q != []
    ensures rec[|rec| - 1] - rec[0] <= q[|q| - 1] - q[0]
  {
    AchievableShape(rec, sizes, teamCount, teamSize);
    AchievableShape(q, sizes, teamCount, teamSize);
  }

  lemma BalancedProfile(sizes: seq<int>, teamCount: int, teamSize: int, least: int, spread: int)
    returns (q: Profile)
    requires ValidTickets(sizes, teamCount, teamSize)
    requires CanBalance(sizes, teamCount, teamSize, least, spread)
    ensures Achievable(q, sizes, teamCount, teamSize) && IsProfileEligible(Some(q), least, spread)
  {
    var teams :| Balanced(teams, sizes, teamCount, teamSize, least, spread);
    q := AssignmentHasProfile(teams, sizes, teamCount, teamSize);
    ProfileShowsBalance(q, teams, sizes, teamCount, teamSize, least, spread);
  }

  /** A refusal because of the spread is final: no assignment of these tickets is balanced. */
  lemma SpreadRefusalIsFinal(rec: Option<Profile>, sizes: seq<int>, teamCount: int, teamSize: int, least: int, spread: int)
    requires IsRecommended(rec, sizes, teamCount, teamSize) && ValidTickets(sizes, teamCount, teamSize)
    requires rec.None? || rec.value[|rec.value| - 1] - rec.value[0] > spread
    requires rec.Some? ==> rec.value != []
    ensures !CanBalance(sizes, teamCount, teamSize, least, spread)
  {
    if CanBalance(sizes, teamCount, teamSize, least, spread) {
      var q := BalancedProfile(sizes, teamCount, teamSize, least, spread);
      if rec.Some? {
        RecommendationMinimisesSpread(rec.value, q, sizes, teamCount, teamSize);
      }
    }
  }

  // ----- No ticket of the recommended profile is better off elsewhere

  function Deviation(x: int, n: int, total: int): int {
    (x * n - total) * (x * n - total)
  }

  function Deviations(s: seq<int>, n: int, total: int): (r: seq<int>)
    ensures |r| == |s|
  {
    seq(|s|, i requires 0 <= i < |s| => Deviation(s[i], n, total))
  }

  lemma VarianceIsDeviations(p: Profile, n: int, total: int)
    requires n == |p| && total == Sum(p)
    ensures Sum(Squares(ScaledDistances(p))) == Sum(Deviations(p, n, total))
  {
    var distances := ScaledDistances(p);
    forall i | 0 <= i < |p| ensures Squares(distances)[i] == Deviations(p, n, total)[i] {
      assert distances[i] == Abs(p[i] * n - total);
      AbsSquare(p[i] * n - total);
    }
    assert Squares(distances) == Deviations(p, n, total);
  }

  lemma AbsSquare(d: int)
    ensures Abs(d) * Abs(d) == d * d
  {
  }

  lemma {:induction false} DeviationsOfPermutation(s: seq<int>, r: seq<int>, n: int, total: int)
    requires multiset(s) == multiset(r)
    ensures Sum(Deviations(s, n, total)) == Sum(Deviations(r, n, total))
    decreases |s|
  {
    SameLength(s, r);
    if s != [] {
      var k := |s| - 1;
      var i := SameElementIndex(s, r, k);
      MultisetFront(s);
      MultisetWithout(r, i);
      DeviationsOfPermutation(s[..k], r[..i] + r[i + 1..], n, total);
      DeviationsWithout(s, k, n, total);
      assert s[..k] + s[k + 1..] == s[..k];
      DeviationsWithout(r, i, n, total);
    }
  }

  lemma DeviationsWithout(s: seq<int>, i: nat, n: int, total: int)
    requires i < |s|
    ensures Sum(Deviations(s, n, total)) == Sum(Deviations(s[..i] + s[i + 1..], n, total)) + Deviation(s[i], n, total)
  {
    var all := Deviations(s, n, total);
    SumWithout(all, i);
    assert all[..i] + all[i + 1..] == Deviations(s[..i] + s[i + 1..], n, total);
  }

  /** Levelling two loads lowers their deviations. */
  lemma LevellingHelps(low: int, high: int, x: int, n: int, total: int)
    requires x > 0 && n > 0 && low + x < high
    ensures Deviation(low + x, n, total) + Deviation(high - x, n, total) < Deviation(low, n, total) + Deviation(high, n, total)
  {
    Scaled(low, x, high, n);
    LevelSquares(low * n - total, high * n - total, x * n);
  }

  lemma Scaled(low: int, x: int, high: int, n: int)
    requires x > 0 && n > 0 && low + x < high
    ensures x * n > 0 && low * n + x * n < high * n
    ensures (low + x) * n == low * n + x * n && (high - x) * n == high * n - x * n
  {
    NonNegativeProduct(x - 1, n);
    NonNegativeProduct(high - low - x - 1, n);
    assert (high - low - x - 1) * n == high * n - low * n - x * n - n;
    assert (x - 1) * n == x * n - n;
  }

  lemma LevelSquares(a: int, b: int, x: int)
    requires x > 0 && a + x < b
    ensures (a + x) * (a + x) + (b - x) * (b - x) < a * a + b * b
  {
    assert (a + x) * (a + x) + (b - x) * (b - x) == a * a + b * b - 2 * (x * (b - a - x));
    NonNegativeProduct(x - 1, b - a - x);
    assert x * (b - a - x) == (x - 1) * (b - a - x) + (b - a - x);
  }

  lemma {:induction false} LoadMoved(sizes: seq<int>, teams: seq<nat>, i: nat, u: nat, t: nat)
    requires |teams| == |sizes| && i < |sizes|
    ensures Load(sizes, teams[i := u], t) ==
            Load(sizes, teams, t) - (if teams[i] == t then sizes[i] else 0) + (if u == t then sizes[i] else 0)
  {
    var n := |sizes| - 1;
    if i == n {
      assert teams[i := u][..n] == teams[..n];
    } else {
      LoadMoved(sizes[..n], teams[..n], i, u, t);
      assert teams[i := u][..n] == teams[..n][i := u];
    }
  }

  /** The deviations after ticket i moved to team u. */
  lemma MoveHelps(sizes: seq<int>, teams: seq<nat>, i: nat, u: nat, n: nat, total: int)
    requires |teams| == |sizes| && i < |sizes| && teams[i] < n && u < n && sizes[i] > 0
    requires Load(sizes, teams, u) + sizes[i] < Load(sizes, teams, teams[i])
    ensures Sum(Deviations(Loads(sizes, teams[i := u], n), n, total)) < Sum(Deviations(Loads(sizes, teams, n), n, total))
  {
    var v, x := teams[i], sizes[i];
    var before := Deviations(Loads(sizes, teams, n), n, total);
    var low, high := Load(sizes, teams, u), Load(sizes, teams, v);
    forall t: nat | t < n ensures Load(sizes, teams[i := u], t) ==
        if t == u then low + x else if t == v then high - x else Load(sizes, teams, t) {
      LoadMoved(sizes, teams, i, u, t);
    }
    var mid := before[v := Deviation(high - x, n, total)];
    assert Deviations(Loads(sizes, teams[i := u], n), n, total) == mid[u := Deviation(low + x, n, total)];
    SumUpdate(before, v, Deviation(high - x, n, total));
    SumUpdate(mid, u, Deviation(low + x, n, total));
    LevellingHelps(low, high, x, n, total);
  }

  /** The profile after a move that levels two teams is better. */
  lemma MovedIsBetter(p: Profile, q: Profile, teams: seq<nat>, i: nat, u: nat, sizes: seq<int>, teamCount: nat, teamSize: int)
    requires Realises(teams, p, sizes, teamCount, teamSize) && i < |sizes| && u < teamCount && sizes[i] > 0
    requires Load(sizes, teams, u) + sizes[i] < Load(sizes, teams, teams[i])
    requires Realises(teams[i := u], q, sizes, teamCount, teamSize)
    ensures CompareProfileQuality(q, p) < 0
  {
    var before, after := Loads(sizes, teams, teamCount), Loads(sizes, teams[i := u], teamCount);
    SameLength(p, before);
    SameLength(q, after);
    MovedSpread(p, q, teams, i, u, sizes, teamCount, teamSize);
    SumOfPermutation(p, before);
    SumOfPermutation(q, after);
    LoadsConserveSize(sizes, teams, teamCount);
    LoadsConserveSize(sizes, teams[i := u], teamCount);
    VarianceIsDeviations(p, teamCount, Sum(sizes));
    VarianceIsDeviations(q, teamCount, Sum(sizes));
    DeviationsOfPermutation(p, before, teamCount, Sum(sizes));
    DeviationsOfPermutation(q, after, teamCount, Sum(sizes));
    MoveHelps(sizes, teams, i, u, teamCount, Sum(sizes));
  }

  lemma MovedSpread(p: Profile, q: Profile, teams: seq<nat>, i: nat, u: nat, sizes: seq<int>, teamCount: nat, teamSize: int)
    requires Realises(teams, p, sizes, teamCount, teamSize) && i < |sizes| && u < teamCount && sizes[i] > 0
    requires Load(sizes, teams, u) + sizes[i] < Load(sizes, teams, teams[i])
    requires Realises(teams[i := u], q, sizes, teamCount, teamSize)
    ensures |p| == |q| == teamCount && p[0] <= q[0] && q[|q| - 1] <= p[|p| - 1]
  {
    var before, after := Loads(sizes, teams, teamCount), Loads(sizes, teams[i := u], teamCount);
    SameLength(p, before);
    SameLength(q, after);
    forall t: nat | t < teamCount ensures p[0] <= before[t] <= p[|p| - 1] {
      var j := SameElementIndex(before, p, t);
    }
    forall t: nat | t < teamCount ensures p[0] <= after[t] <= p[|p| - 1] {
      LoadMoved(sizes, teams, i, u, t);
      assert p[0] <= before[t] <= p[|p| - 1] && p[0] <= before[u] && before[teams[i]] <= p[|p| - 1];
    }
    var lo := SameElementIndex(q, after, 0);
    var hi := SameElementIndex(q, after, |q| - 1);
  }

  /**
   No ticket of a recommended profile could move to another team and leave that
   team smaller than its own was: every such profile is level up to single tickets.
   */
  lemma TicketsAreSettled(
      rec: Profile, teams: seq<nat>, sizes: seq<int>, teamCount: nat, teamSize: int, i: nat, u: nat)
    requires IsRecommended(Some(rec), sizes, teamCount, teamSize)
    requires Realises(teams, rec, sizes, teamCount, teamSize) && i < |sizes| && u < teamCount
    ensures Load(sizes, teams, teams[i]) <= Load(sizes, teams, u) + sizes[i]
  {
    if Load(sizes, teams, teams[i]) > Load(sizes, teams, u) + sizes[i] {
      var moved := teams[i := u];
      forall t: nat | t < teamCount ensures Load(sizes, moved, t) <= teamSize {
        LoadMoved(sizes, teams, i, u, t);
      }
      assert Assigns(moved, sizes, teamCount, teamSize);
      var q := AssignmentHasProfile(moved, sizes, teamCount, teamSize);
      MovedIsBetter(rec, q, teams, i, u, sizes, teamCount, teamSize);
      CompareQualityLaws(Quality(rec), Quality(q), Quality(rec));
      assert Achievable(q, sizes, teamCount, teamSize);
    }
  }

  // ----- Per-team minimums of one and two players

  /** Tickets count towards a minimum at most with the minimum itself. */
  function Truncated(sizes: seq<int>, least: int): (r: seq<int>)
    ensures |r| == |sizes|
  {
    seq(|sizes|, i requires 0 <= i < |sizes| => Min(sizes[i], least))
  }

  lemma {:induction false} TruncatedReaches(sizes: seq<int>, teams: seq<nat>, t: nat, least: int)
    requires |teams| == |sizes| && least >= 0 && forall i | 0 <= i < |sizes| :: sizes[i] >= 0
    ensures Load(Truncated(sizes, least), teams, t) >= Min(least, Load(sizes, teams, t))
  {
    if sizes != [] {
      var n := |sizes| - 1;
      TruncatedReaches(sizes[..n], teams[..n], t, least);
      LoadNonNegative(sizes[..n], teams[..n], t);
      assert Truncated(sizes, least)[..n] == Truncated(sizes[..n], least);
    }
  }

  function Ones(n: nat): seq<int> {
    seq(n, _ => 1)
  }

  lemma {:induction false} TicketsBelow(sizes: seq<int>, teams: seq<nat>, t: nat, low: int)
    requires |teams| == |sizes| && forall i | 0 <= i < |sizes| && teams[i] == t :: low <= sizes[i]
    ensures low * Load(Ones(|sizes|), teams, t) <= Load(sizes, teams, t)
  {
    if sizes != [] {
      var n := |sizes| - 1;
      TicketsBelow(sizes[..n], teams[..n], t, low);
      assert Ones(|sizes|)[..n] == Ones(n);
      OneMore(low, Load(Ones(n), teams[..n], t));
    }
  }

  lemma {:induction false} TicketsAbove(sizes: seq<int>, teams: seq<nat>, t: nat, high: int)
    requires |teams| == |sizes| && forall i | 0 <= i < |sizes| && teams[i] == t :: sizes[i] <= high
    ensures Load(sizes, teams, t) <= high * Load(Ones(|sizes|), teams, t)
  {
    if sizes != [] {
      var n := |sizes| - 1;
      TicketsAbove(sizes[..n], teams[..n], t, high);
      assert Ones(|sizes|)[..n] == Ones(n);
      OneMore(high, Load(Ones(n), teams[..n], t));
    }
  }

  lemma OneMore(x: int, count: int)
    ensures x * (count + 1) == x * count + x
  {
  }

  /** A team that no ticket would better leave has one ticket, or no more players than the minimum. */
  lemma SettledTeam(sizes: seq<int>, teams: seq<nat>, t: nat, least: int)
    requires |teams| == |sizes| && 1 <= least <= 2 && forall i | 0 <= i < |sizes| :: sizes[i] >= 1
    requires forall i | 0 <= i < |sizes| && teams[i] == t :: Load(sizes, teams, t) <= sizes[i] + least - 1
    ensures Load(Truncated(sizes, least), teams, t) <= least
  {
    var load, count := Load(sizes, teams, t), Load(Ones(|sizes|), teams, t);
    LoadMonotone(sizes, Truncated(sizes, least), teams, t);
    TicketsBelow(sizes, teams, t, load - least + 1);
    TicketsAbove(Truncated(sizes, least), teams, t, least);
    if load > least {
      FewTickets(load, least, count);
      NonNegativeProduct(least, 1 - count);
      assert least * (1 - count) == least - least * count;
    }
  }

  lemma FewTickets(load: int, least: int, count: int)
    requires 1 <= least <= 2 && load > least && (load - least + 1) * count <= load
    ensures count <= 1
  {
    var rest := load - least + 1;
    assert rest * (count - 2) == rest * count - 2 * rest;
    if count >= 2 {
      NonNegativeProduct(rest, count - 2);
    }
  }

  /** Where a minimum of one or two players per team can be met at all, the recommendation meets it. */
  lemma SmallMinimumIsMet(p: Profile, filled: seq<nat>, sizes: seq<int>, teamCount: nat, teamSize: int, least: int)
    requires IsRecommended(Some(p), sizes, teamCount, teamSize) && 1 <= least <= 2
    requires Assigns(filled, sizes, teamCount, teamSize)
    requires forall t: nat | t < teamCount :: Load(sizes, filled, t) >= least
    ensures p != [] && p[0] >= least
  {
    var teams :| Realises(teams, p, sizes, teamCount, teamSize);
    var loads := Loads(sizes, teams, teamCount);
    SameLength(p, loads);
    if p[0] < least {
      var u := SameElementIndex(p, loads, 0);
      forall t: nat | t < teamCount ensures Load(Truncated(sizes, least), teams, t) <= least {
        forall i | 0 <= i < |sizes| && teams[i] == t ensures Load(sizes, teams, t) <= sizes[i] + least - 1 {
          TicketsAreSettled(p, teams, sizes, teamCount, teamSize, i, u);
        }
        SettledTeam(sizes, teams, t, least);
      }
      LoadMonotone(sizes, Truncated(sizes, least), teams, u);
      forall t: nat | t < teamCount ensures Load(Truncated(sizes, least), filled, t) >= least {
        TruncatedReaches(sizes, filled, t, least);
      }
      TooFewPlayers(Truncated(sizes, least), teams, filled, teamCount, least, u);
    }
  }

  /** The same tickets cannot fill every team and leave one short while none is above. */
  lemma TooFewPlayers(sizes: seq<int>, teams: seq<nat>, filled: seq<nat>, teamCount: nat, least: int, u: nat)
    requires |teams| == |filled| == |sizes| && u < teamCount
    requires forall i | 0 <= i < |teams| :: teams[i] < teamCount && filled[i] < teamCount
    requires forall t: nat | t < teamCount :: Load(sizes, teams, t) <= least <= Load(sizes, filled, t)
    ensures Load(sizes, teams, u) >= least
  {
    var short, full := Loads(sizes, teams, teamCount), Loads(sizes, filled, teamCount);
    LoadsConserveSize(sizes, teams, teamCount);
    LoadsConserveSize(sizes, filled, teamCount);
    var levelled := short[u := least];
    SumUpdate(short, u, least);
    SumMonotone(levelled, full);
  }

  /** With at most two teams, or a per-team minimum of at most two players, eligibility decides exactly whether balance is possible. */
  lemma EligibilityIsExact(rec: Option<Profile>, sizes: seq<int>, teamCount: int, teamSize: int, least: int, spread: int)
    requires IsRecommended(rec, sizes, teamCount, teamSize) && ValidTickets(sizes, teamCount, teamSize)
    requires least <= 2 || teamCount <= 2
    ensures IsProfileEligible(rec, least, spread) <==> CanBalance(sizes, teamCount, teamSize, least, spread)
  {
    if IsProfileEligible(rec, least, spread) {
      EligibilityIsSound(rec, sizes, teamCount, teamSize, least, spread);
    }
    if CanBalance(sizes, teamCount, teamSize, least, spread) {
      var q := BalancedProfile(sizes, teamCount, teamSize, least, spread);
      var p := rec.value;
      RecommendationMinimisesSpread(p, q, sizes, teamCount, teamSize);
      AchievableShape(p, sizes, teamCount, teamSize);
      AchievableShape(q, sizes, teamCount, teamSize);
      if teamCount <= 2 {
        FewTeamsSum(p);
        FewTeamsSum(q);
      } else if least >= 1 {
        var filled :| Balanced(filled, sizes, teamCount, teamSize, least, spread);
        SmallMinimumIsMet(p, filled, sizes, teamCount, teamSize, least);
      }
    }
  }

  lemma FewTeamsSum(p: Profile)
    requires 1 <= |p| <= 2
    ensures Sum(p) == if |p| == 1 then p[0] else p[0] + p[1]
  {
    assert p[..0] == [];
    if |p| == 2 {
      assert p[..1] == [p[0]];
      assert [p[0]][..0] == [];
    }
  }

  // ----- Where eligibility is incomplete: three or more teams, and a minimum of ten or more

  /** Six tickets for three teams, and one ticket for every further team. */
  ghost function RefusedTickets(least: int, more: nat): (r: seq<int>)
    ensures |r| == 6 + more
  {
    if more == 0 then [least - 1, least - 4, 6, least - 6, 4, 4] else RefusedTickets(least, more - 1) + [least + 1]
  }

  lemma {:induction false} RefusedSizes(least: int, more: nat)
    requires least >= 10
    ensures RefusedTickets(least, more)[0] == least - 1
    ensures forall i | 0 <= i < 6 + more :: 4 <= RefusedTickets(least, more)[i] <= least + 1
  {
    if more > 0 {
      RefusedSizes(least, more - 1);
    }
  }

  /** What the first six tickets put into team t. */
  ghost function SixLoad(least: int, teams: seq<nat>, t: nat): int
    requires |teams| == 6
  {
    (if teams[0] == t then least - 1 else 0) + (if teams[1] == t then least - 4 else 0) +
    (if teams[2] == t then 6 else 0) + (if teams[3] == t then least - 6 else 0) +
    (if teams[4] == t then 4 else 0) + (if teams[5] == t then 4 else 0)
  }

  lemma SixLoads(least: int, teams: seq<nat>, t: nat)
    requires |teams| == 6
    ensures Load(RefusedTickets(least, 0), teams, t) == SixLoad(least, teams, t)
  {
    var a, b, c, d := least - 1, least - 4, 6, least - 6;
    LoadAppend([], [], a, teams[0], t);
    LoadAppend([a], [teams[0]], b, teams[1], t);
    LoadAppend([a, b], teams[..2], c, teams[2], t);
    LoadAppend([a, b, c], teams[..3], d, teams[3], t);
    LoadAppend([a, b, c, d], teams[..4], 4, teams[4], t);
    LoadAppend([a, b, c, d, 4], teams[..5], 4, teams[5], t);
    assert [] + [teams[0]] == [teams[0]] && [teams[0]] + [teams[1]] == teams[..2];
    assert teams[..2] + [teams[2]] == teams[..3] && teams[..3] + [teams[3]] == teams[..4];
    assert teams[..4] + [teams[4]] == teams[..5] && teams[..5] + [teams[5]] == teams;
    assert [] + [a] == [a] && [a] + [b] == [a, b] && [a, b] + [c] == [a, b, c];
    assert [a, b, c] + [d] == [a, b, c, d] && [a, b, c, d] + [4] == [a, b, c, d, 4];
    assert [a, b, c, d, 4] + [4] == RefusedTickets(least, 0);
  }

  /** The first six tickets as given, every further ticket in a team of its own. */
  ghost function Spread(first: seq<nat>, more: nat): (r: seq<nat>)
    requires |first| == 6
    ensures |r| == 6 + more
  {
    if more == 0 then first else Spread(first, more - 1) + [more + 2]
  }

  lemma {:induction false} SpreadTeams(first: seq<nat>, more: nat)
    requires |first| == 6 && forall i | 0 <= i < 6 :: first[i] < 3
    ensures forall i | 0 <= i < 6 + more :: Spread(first, more)[i] < more + 3
  {
    if more > 0 {
      SpreadTeams(first, more - 1);
    }
  }

  lemma {:induction false} SpreadLoad(least: int, first: seq<nat>, more: nat, t: nat)
    requires |first| == 6 && forall i | 0 <= i < 6 :: first[i] < 3
    ensures Load(RefusedTickets(least, more), Spread(first, more), t) ==
            if t < 3 then SixLoad(least, first, t) else if t < more + 3 then least + 1 else 0
  {
    if more == 0 {
      SixLoads(least, first, t);
    } else {
      SpreadLoad(least, first, more - 1, t);
      SpreadStep(least, first, more, t);
    }
  }

  lemma SpreadStep(least: int, first: seq<nat>, more: nat, t: nat)
    requires |first| == 6 && more >= 1
    ensures Load(RefusedTickets(least, more), Spread(first, more), t) ==
            Load(RefusedTickets(least, more - 1), Spread(first, more - 1), t) + if more + 2 == t then least + 1 else 0
  {
    LoadAppend(RefusedTickets(least, more - 1), Spread(first, more - 1), least + 1, more + 2, t);
  }

  /** least + 3 | least | least | least + 1 ...: the minimum in every team, with a spread of three. */
  lemma RefusedCanBalance(least: int, more: nat, teamSize: int)
    requires least >= 10 && teamSize >= least + 3
    ensures CanBalance(RefusedTickets(least, more), more + 3, teamSize, least, 3)
  {
    var first: seq<nat> := [0, 1, 2, 2, 0, 1];
    var teams := Spread(first, more);
    forall t: nat | t < more + 3 ensures least <= Load(RefusedTickets(least, more), teams, t) <= least + 3 {
      SpreadLoad(least, first, more, t);
    }
    SpreadTeams(first, more);
    assert Balanced(teams, RefusedTickets(least, more), more + 3, teamSize, least, 3);
  }

  /** A short team, two teams above it, and the others between. */
  ghost function ShortProfile(least: int, more: nat): Profile {
    [least - 1] + seq(more, _ => least + 1) + [least + 2, least + 2]
  }

  lemma ShortLoads(least: int, more: nat, teams: seq<nat>, n: nat) returns (loads: seq<int>)
    requires n == more + 3 && teams == Spread([0, 1, 1, 2, 2, 2], more)
    ensures loads == Loads(RefusedTickets(least, more), teams, n)
    ensures loads == [least - 1] + [least + 2, least + 2] + seq(more, _ => least + 1)
  {
    var ends, middle := [least - 1] + [least + 2, least + 2], seq(more, _ => least + 1);
    loads := Loads(RefusedTickets(least, more), teams, n);
    forall t: nat | t < n ensures loads[t] == (ends + middle)[t] {
      SpreadLoad(least, [0, 1, 1, 2, 2, 2], more, t);
    }
    assert loads == ends + middle;
  }

  /** least - 1 | least + 2 | least + 2 | least + 1 ...: one short team, with a spread of three as well. */
  lemma ShortIsAchievable(least: int, more: nat, teamSize: int)
    requires least >= 10 && teamSize >= least + 3
    ensures Achievable(ShortProfile(least, more), RefusedTickets(least, more), more + 3, teamSize)
  {
    var teams := Spread([0, 1, 1, 2, 2, 2], more);
    var loads := ShortLoads(least, more, teams, more + 3);
    SpreadTeams([0, 1, 1, 2, 2, 2], more);
    EndsMoved([least - 1], seq(more, _ => least + 1), [least + 2, least + 2]);
    ShortAscends(least, more);
    LoadsAreAchievable(ShortProfile(least, more), loads, teams, RefusedTickets(least, more), more + 3, teamSize);
  }

  lemma ShortAscends(least: int, more: nat)
    ensures Ascending(ShortProfile(least, more))
  {
  }

  lemma LoadsAreAchievable(
      p: Profile, loads: seq<int>, teams: seq<nat>, sizes: seq<int>, teamCount: nat, teamSize: int)
    requires |teams| == |sizes| && loads == Loads(sizes, teams, teamCount)
    requires Ascending(p) && multiset(p) == multiset(loads)
    requires forall i | 0 <= i < |teams| :: teams[i] < teamCount
    requires forall t | 0 <= t < teamCount :: loads[t] <= teamSize
    ensures Achievable(p, sizes, teamCount, teamSize)
  {
    assert Realises(teams, p, sizes, teamCount, teamSize);
  }

  lemma EndsMoved(a: seq<int>, b: seq<int>, c: seq<int>)
    ensures multiset(a + b + c) == multiset(a + c + b)
  {
  }

  // ----- Quality in terms of the distances from a whole mean

  function Offsets(p: seq<int>, mean: int): (r: seq<int>)
    ensures |r| == |p|
  {
    seq(|p|, i requires 0 <= i < |p| => p[i] - mean)
  }

  function Magnitudes(s: seq<int>): (r: seq<int>)
    ensures |r| == |s|
  {
    seq(|s|, i requires 0 <= i < |s| => Abs(s[i]))
  }

  lemma {:induction false} OffsetsSum(p: seq<int>, mean: int)
    ensures Sum(Offsets(p, mean)) == Sum(p) - |p| * mean
  {
    if p != [] {
      var n := |p| - 1;
      OffsetsSum(p[..n], mean);
      assert Offsets(p, mean)[..n] == Offsets(p[..n], mean);
      OneMore(mean, n);
    }
  }

  lemma {:induction false} SumScaled(s: seq<int>, r: seq<int>, factor: int)
    requires |s| == |r| && forall i | 0 <= i < |s| :: r[i] == factor * s[i]
    ensures Sum(r) == factor * Sum(s)
  {
    if s != [] {
      var n := |s| - 1;
      SumScaled(s[..n], r[..n], factor);
      assert factor * (Sum(s[..n]) + s[n]) == factor * Sum(s[..n]) + factor * s[n];
    }
  }

  lemma ScaledOffset(x: int, n: int, mean: int)
    requires n > 0
    ensures x * n - n * mean == n * (x - mean)
    ensures Abs(x * n - n * mean) == n * Abs(x - mean)
    ensures Deviation(x, n, n * mean) == (n * n) * ((x - mean) * (x - mean))
  {
    var d := x - mean;
    assert x * n - n * mean == n * d;
    AbsScaled(n, d);
    assert (n * d) * (n * d) == (n * n) * (d * d);
  }

  lemma AbsScaled(n: int, d: int)
    requires n > 0
    ensures Abs(n * d) == n * Abs(d)
  {
    if d >= 0 {
      NonNegativeProduct(n, d);
    } else {
      NonNegativeProduct(n, -d);
      assert n * -d == -(n * d);
    }
  }

  lemma QualityAroundMean(p: Profile, n: int, mean: int, total: int)
    requires n == |p| > 0 && total == Sum(p) == n * mean
    ensures Sum(Squares(ScaledDistances(p))) == (n * n) * Sum(Squares(Offsets(p, mean)))
    ensures Sum(ScaledDistances(p)) == n * Sum(Magnitudes(Offsets(p, mean)))
  {
    VarianceIsDeviations(p, n, total);
    forall i | 0 <= i < n ensures Deviations(p, n, total)[i] == (n * n) * Squares(Offsets(p, mean))[i] {
      ScaledOffset(p[i], n, mean);
    }
    SumScaled(Squares(Offsets(p, mean)), Deviations(p, n, total), n * n);
    forall i | 0 <= i < n ensures ScaledDistances(p)[i] == n * Magnitudes(Offsets(p, mean))[i] {
      ScaledOffset(p[i], n, mean);
    }
    SumScaled(Magnitudes(Offsets(p, mean)), ScaledDistances(p), n);
  }

  /** One offset of two or more costs six squares and four steps, whatever makes up for it. */
  lemma {:induction false} HighTeamCosts(o: seq<int>, at: int)
    requires -1 <= at < |o| && (at >= 0 ==> o[at] >= 2)
    ensures Sum(Squares(o)) + Sum(o) >= if at >= 0 then 6 else 0
    ensures Sum(Magnitudes(o)) + Sum(o) >= if at >= 0 then 4 else 0
  {
    if o != [] {
      var n := |o| - 1;
      HighTeamCosts(o[..n], if at == n then -1 else at);
      assert Squares(o)[..n] == Squares(o[..n]) && Magnitudes(o)[..n] == Magnitudes(o[..n]);
      SquareAndStep(o[n]);
    }
  }

  lemma SquareAndStep(d: int)
    ensures d * d + d >= 0 && Abs(d) + d >= 0
    ensures d >= 2 ==> d * d + d >= 6 && Abs(d) + d >= 4
  {
    if d >= 2 {
      NonNegativeProduct(d - 2, d + 3);
    } else if d >= 0 {
      NonNegativeProduct(d, d + 1);
    } else {
      NonNegativeProduct(-d, -d - 1);
    }
  }

  lemma ZeroSum(s: seq<int>)
    requires forall i | 0 <= i < |s| :: s[i] == 0
    ensures Sum(s) == 0
  {
    SumBounds(s, 0, 0);
  }

  lemma SumOfEnds(first: int, zeros: seq<int>, last: int)
    requires forall i | 0 <= i < |zeros| :: zeros[i] == 0
    ensures Sum([first] + zeros + [last, last]) == first + 2 * last
  {
    var front, ends := [first] + zeros, [last, last];
    ZeroSum(zeros);
    SumConcat([first], zeros);
    SumConcat(front, ends);
    SumOfFew(first, last);
  }

  lemma SumOfFew(first: int, last: int)
    ensures Sum([first]) == first && Sum([last, last]) == 2 * last
  {
    SumAppend([], first);
    SumAppend([], last);
    SumAppend([last], last);
    assert [] + [first] == [first] && [] + [last] == [last] && [last] + [last] == [last, last];
  }

  lemma ShortQuality(least: int, more: nat, n: int)
    requires least >= 10 && n == more + 3
    ensures
      var p := ShortProfile(least, more);
      && |p| == n && Sum(p) == n * (least + 1) && CountZeros(p) == 0
      && Sum(Squares(ScaledDistances(p))) == (n * n) * 6 && Sum(ScaledDistances(p)) == n * 4
  {
    var p, o := ShortProfile(least, more), Offsets(ShortProfile(least, more), least + 1);
    var zeros := seq(more, _ => 0);
    assert o == [-2] + zeros + [1, 1];
    SumOfEnds(-2, zeros, 1);
    OffsetsSum(p, least + 1);
    assert Squares(o) == [4] + zeros + [1, 1];
    SumOfEnds(4, zeros, 1);
    assert Magnitudes(o) == [2] + zeros + [1, 1];
    SumOfEnds(2, zeros, 1);
    QualityAroundMean(p, n, least + 1, Sum(p));
    NoZeros(p);
  }

  lemma {:induction false} NoZeros(p: Profile)
    requires forall i | 0 <= i < |p| :: p[i] > 0
    ensures CountZeros(p) == 0
  {
    if p != [] {
      NoZeros(p[..|p| - 1]);
    }
  }

  /** Whoever shares a team with the first ticket brings four players or more. */
  lemma FirstTicketIsFar(sizes: seq<int>, teams: seq<nat>, least: int)
    requires |teams| == |sizes| > 0 && sizes[0] == least - 1 && least >= 1
    requires forall i | 0 <= i < |sizes| :: sizes[i] >= 4
    ensures Load(sizes, teams, teams[0]) == least - 1 || Load(sizes, teams, teams[0]) >= least + 3
  {
    var u := teams[0];
    LoadWithout(sizes, teams, 0, u);
    assert sizes[..0] + sizes[1..] == sizes[1..] && teams[..0] + teams[1..] == teams[1..];
    LoadAtLeast(sizes[1..], teams[1..], u, 4);
    if u !in teams[1..] {
      LoadOfNobody(sizes[1..], teams[1..], u);
    }
  }

  lemma {:induction false} LoadAtLeast(sizes: seq<int>, teams: seq<nat>, u: nat, least: int)
    requires |teams| == |sizes| && least >= 0 && forall i | 0 <= i < |sizes| :: sizes[i] >= least
    ensures u in teams ==> Load(sizes, teams, u) >= least
  {
    if sizes != [] {
      var n := |sizes| - 1;
      assert teams == teams[..n] + [teams[n]];
      LoadAtLeast(sizes[..n], teams[..n], u, least);
      LoadNonNegative(sizes[..n], teams[..n], u);
    }
  }

  lemma {:induction false} LoadOfNobody(sizes: seq<int>, teams: seq<nat>, u: nat)
    requires |teams| == |sizes| && u !in teams
    ensures Load(sizes, teams, u) == 0
  {
    if sizes != [] {
      var n := |sizes| - 1;
      assert teams == teams[..n] + [teams[n]];
      LoadOfNobody(sizes[..n], teams[..n], u);
    }
  }

  lemma {:induction false} RefusedInParts(least: int, more: nat)
    ensures RefusedTickets(least, more) == RefusedTickets(least, 0) + seq(more, _ => least + 1)
  {
    if more == 0 {
      assert RefusedTickets(least, 0) + seq(0, _ => least + 1) == RefusedTickets(least, 0);
    } else {
      RefusedInParts(least, more - 1);
      assert seq(more - 1, _ => least + 1) + [least + 1] == seq(more, _ => least + 1);
    }
  }

  lemma RefusedSum(least: int, more: nat, mean: int, n: int, total: int)
    requires mean == least + 1 && n == more + 3 && total == Sum(RefusedTickets(least, more))
    ensures total == mean * n
  {
    var later := seq(more, _ => mean);
    RefusedInParts(least, more);
    assert seq(more, _ => least + 1) == later;
    SumConcat(RefusedTickets(least, 0), later);
    SixSum(least - 1, least - 4, 6, least - 6, 4, 4);
    SumBounds(later, mean, mean);
    InTotal(mean, more, Sum(later));
  }

  lemma InTotal(mean: int, more: int, rest: int)
    requires rest == more * mean
    ensures 3 * mean + rest == mean * (more + 3)
  {
  }

  lemma SixSum(a: int, b: int, c: int, d: int, e: int, f: int)
    ensures Sum([a, b, c, d, e, f]) == a + b + c + d + e + f
  {
    SumAppend([], a);
    SumAppend([a], b);
    SumAppend([a, b], c);
    SumAppend([a, b, c], d);
    SumAppend([a, b, c, d], e);
    SumAppend([a, b, c, d, e], f);
    assert [] + [a] == [a] && [a] + [b] == [a, b] && [a, b] + [c] == [a, b, c];
    assert [a, b, c] + [d] == [a, b, c, d] && [a, b, c, d] + [e] == [a, b, c, d, e];
    assert [a, b, c, d, e] + [f] == [a, b, c, d, e, f];
  }

  /** A profile that meets the minimum has a team of least + 3. */
  lemma EligibleIsHigh(p: Profile, least: int, more: nat, teamSize: int)
    requires least >= 10 && Achievable(p, RefusedTickets(least, more), more + 3, teamSize) && IsProfileEligible(Some(p), least, 3)
    ensures |p| == more + 3 && Ascending(p) && Sum(p) == (more + 3) * (least + 1)
    ensures p[|p| - 1] >= least + 3
  {
    var sizes := RefusedTickets(least, more);
    RefusedSizes(least, more);
    RefusedSum(least, more, least + 1, more + 3, Sum(sizes));
    AchievableShape(p, sizes, more + 3, teamSize);
    var teams :| Realises(teams, p, sizes, more + 3, teamSize);
    var loads := Loads(sizes, teams, more + 3);
    FirstTicketIsFar(sizes, teams, least);
    var j := SameElementIndex(loads, p, teams[0]);
    assert p[0] <= p[j] <= p[|p| - 1];
  }

  /** So the short profile, which is no wider, is better. */
  lemma ShortIsBetter(p: Profile, least: int, more: nat, n: int)
    requires least >= 10 && n == more + 3 == |p| && Ascending(p) && Sum(p) == n * (least + 1)
    requires p[0] >= least && p[n - 1] >= least + 3 && p[n - 1] - p[0] <= 3
    ensures CompareProfileQuality(ShortProfile(least, more), p) < 0
  {
    var q := ShortProfile(least, more);
    ShortQuality(least, more, n);
    EligibleCosts(p, n, least + 1, Sum(p));
    NoZeros(p);
    assert q[0] == least - 1 && q[n - 1] == least + 2;
    BetterByParts(q, p);
  }

  lemma EligibleCosts(p: Profile, n: int, mean: int, total: int)
    requires n == |p| > 0 && Ascending(p) && total == Sum(p) == n * mean && p[n - 1] >= mean + 2
    ensures Sum(Squares(ScaledDistances(p))) >= (n * n) * 6 && Sum(ScaledDistances(p)) >= n * 4
    ensures p[0] < mean
  {
    var o := Offsets(p, mean);
    OffsetsSum(p, mean);
    HighTeamCosts(o, n - 1);
    QualityAroundMean(p, n, mean, total);
    NonNegativeProduct(n, n);
    Monotone(n * n, 6, Sum(Squares(o)));
    Monotone(n, 4, Sum(Magnitudes(o)));
    if p[0] >= mean {
      SumNonNegative(o[..n - 1]);
    }
  }

  lemma {:induction false} SumNonNegative(s: seq<int>)
    requires forall i | 0 <= i < |s| :: s[i] >= 0
    ensures Sum(s) >= 0
  {
    if s != [] {
      SumNonNegative(s[..|s| - 1]);
    }
  }

  lemma BetterByParts(q: Profile, p: Profile)
    requires |q| == |p| > 0 && q[|q| - 1] - q[0] <= p[|p| - 1] - p[0]
    requires Sum(Squares(ScaledDistances(q))) <= Sum(Squares(ScaledDistances(p)))
    requires CountZeros(q) <= CountZeros(p) && Sum(ScaledDistances(q)) <= Sum(ScaledDistances(p)) && q[0] < p[0]
    ensures CompareProfileQuality(q, p) < 0
  {
    var a, b := Quality(q), Quality(p);
    assert a.lexicographic == q && b.lexicographic == p;
  }

  lemma Monotone(factor: int, a: int, b: int)
    requires factor >= 0 && a <= b
    ensures factor * a <= factor * b
  {
    NonNegativeProduct(factor, b - a);
    assert factor * (b - a) == factor * b - factor * a;
  }

  /**
   With three or more teams and any per-team minimum from ten on, the service refuses
   tickets that could be balanced: whatever is recommended for them is not eligible for
   a spread of three, although one of their assignments meets the minimum and the spread.
   */
  lemma EligibilityIsIncomplete(rec: Option<Profile>, least: int, more: nat, teamSize: int)
    requires least >= 10 && teamSize >= least + 3
    requires IsRecommended(rec, RefusedTickets(least, more), more + 3, teamSize)
    ensures ValidTickets(RefusedTickets(least, more), more + 3, teamSize)
    ensures !IsProfileEligible(rec, least, 3)
    ensures CanBalance(RefusedTickets(least, more), more + 3, teamSize, least, 3)
  {
    RefusedSizes(least, more);
    RefusedCanBalance(least, more, teamSize);
    if IsProfileEligible(rec, least, 3) {
      var q := ShortProfile(least, more);
      EligibleIsHigh(rec.value, least, more, teamSize);
      ShortIsBetter(rec.value, least, more, more + 3);
      ShortIsAchievable(least, more, teamSize);
      CompareQualityLaws(Quality(rec.value), Quality(q), Quality(q));
    }
  }

  /** All lists of k loads up to the team size. */
  ghost function LoadLists(k: nat, teamSize: nat): set<Profile> {
    if k == 0 then {[]}
    else set p, x: nat | p in LoadLists(k - 1, teamSize) && x <= teamSize :: p + [x]
  }

  lemma {:induction false} IsLoadList(p: Profile, teamSize: nat)
    requires forall i | 0 <= i < |p| :: 0 <= p[i] <= teamSize
    ensures p in LoadLists(|p|, teamSize)
  {
    if p != [] {
      var n := |p| - 1;
      IsLoadList(p[..n], teamSize);
      assert p == p[..n] + [p[n]];
    }
  }

  lemma {:induction false} BestOf(profiles: set<Profile>, k: nat) returns (best: Profile)
    requires profiles != {} && forall p | p in profiles :: |p| == k
    ensures best in profiles && forall q | q in profiles :: q == best || CompareProfileQuality(best, q) < 0
    decreases profiles
  {
    var p := Witness(profiles);
    if profiles == {p} {
      best := p;
    } else {
      var before := BestOf(profiles - {p}, k);
      best := if CompareProfileQuality(p, before) < 0 then p else before;
      forall q | q in profiles ensures q == best || CompareProfileQuality(best, q) < 0 {
        QualityIsStrictTotalOrder(p, before, q);
        QualityIsStrictTotalOrder(before, p, q);
      }
    }
  }

  /** Valid tickets always have a recommendation, which may be nothing. */
  lemma RecommendationExists(sizes: seq<int>, teamCount: nat, teamSize: nat) returns (rec: Option<Profile>)
    requires ValidTickets(sizes, teamCount, teamSize)
    ensures IsRecommended(rec, sizes, teamCount, teamSize)
  {
    var profiles := set p | p in LoadLists(teamCount, teamSize) && Achievable(p, sizes, teamCount, teamSize);
    forall p | Achievable(p, sizes, teamCount, teamSize) ensures p in profiles && |p| == teamCount {
      AchievableShape(p, sizes, teamCount, teamSize);
      IsLoadList(p, teamSize);
    }
    if profiles == {} {
      rec := None;
    } else {
      var best := BestOf(profiles, teamCount);
      rec := Some(best);
    }
  }

  /** For every ticket list and every limit, the eligibility of the recommendation decides whether balance is possible. */
  ghost predicate DecidesBalance(teamCount: int) {
    forall rec, sizes, teamSize, least, spread |
      IsRecommended(rec, sizes, teamCount, teamSize) && ValidTickets(sizes, teamCount, teamSize) ::
      IsProfileEligible(rec, least, spread) <==> CanBalance(sizes, teamCount, teamSize, least, spread)
  }

  /** The same for one minimum. */
  ghost predicate DecidesMinimum(teamCount: int, least: int) {
    forall rec, sizes, teamSize, spread |
      IsRecommended(rec, sizes, teamCount, teamSize) && ValidTickets(sizes, teamCount, teamSize) ::
      IsProfileEligible(rec, least, spread) <==> CanBalance(sizes, teamCount, teamSize, least, spread)
  }

  /** Minimums of one and two players are always decided, those of ten and more with two teams at most. */
  lemma MinimumIsDecided(teamCount: nat, least: int)
    requires teamCount >= 1
    ensures least <= 2 || teamCount <= 2 ==> DecidesMinimum(teamCount, least)
    ensures least >= 10 ==> (DecidesMinimum(teamCount, least) <==> teamCount <= 2)
  {
    if least <= 2 || teamCount <= 2 {
      forall rec, sizes, teamSize, spread |
        IsRecommended(rec, sizes, teamCount, teamSize) && ValidTickets(sizes, teamCount, teamSize)
        ensures IsProfileEligible(rec, least, spread) <==> CanBalance(sizes, teamCount, teamSize, least, spread)
      {
        EligibilityIsExact(rec, sizes, teamCount, teamSize, least, spread);
      }
    } else if least >= 10 {
      MinimumIsUndecided(teamCount, least);
    }
  }

  lemma MinimumIsUndecided(teamCount: nat, least: int)
    requires teamCount >= 3 && least >= 10
    ensures !DecidesMinimum(teamCount, least)
  {
    var more := teamCount - 3;
    RefusedSizes(least, more);
    var rec := RecommendationExists(RefusedTickets(least, more), teamCount, least + 3);
    EligibilityIsIncomplete(rec, least, more, least + 3);
  }

  /** It does so exactly for one and two teams. */
  lemma BalanceIsDecidedForTwoTeams(teamCount: nat)
    requires teamCount >= 1
    ensures DecidesBalance(teamCount) <==> teamCount <= 2
  {
    if teamCount <= 2 {
      forall rec, sizes, teamSize, least, spread |
        IsRecommended(rec, sizes, teamCount, teamSize) && ValidTickets(sizes, teamCount, teamSize)
        ensures IsProfileEligible(rec, least, spread) <==> CanBalance(sizes, teamCount, teamSize, least, spread)
      {
        EligibilityIsExact(rec, sizes, teamCount, teamSize, least, spread);
      }
    } else {
      MinimumIsUndecided(teamCount, 10);
    }
  }

  // ----- Single-player tickets

  /** Spreads n single players over the teams in turn. */
  lemma {:induction false} RoundRobin(n: nat, teamCount: nat) returns (teams: seq<nat>)
    requires teamCount >= 1
    ensures |teams| == n && forall i | 0 <= i < n :: teams[i] < teamCount
    ensures forall t: nat | t < teamCount ::
              Load(Ones(n), teams, t) == n / teamCount + if t < n % teamCount then 1 else 0
  {
    if n == 0 {
      teams := [];
    } else {
      var before := RoundRobin(n - 1, teamCount);
      var t := (n - 1) % teamCount;
      teams := before + [t];
      NextRemainder(n - 1, teamCount);
      assert Ones(n) == Ones(n - 1) + [1];
      forall u: nat | u < teamCount
        ensures Load(Ones(n), teams, u) == n / teamCount + if u < n % teamCount then 1 else 0
      {
        LoadAppend(Ones(n - 1), before, 1, t, u);
      }
    }
  }

  lemma NextRemainder(n: nat, d: nat)
    requires d >= 1
    ensures n % d + 1 < d ==> (n + 1) / d == n / d && (n + 1) % d == n % d + 1
    ensures n % d + 1 == d ==> (n + 1) / d == n / d + 1 && (n + 1) % d == 0
  {
    if n % d + 1 < d {
      QuotientIsUnique(n + 1, d, n / d, n % d + 1);
    } else {
      QuotientIsUnique(n + 1, d, n / d + 1, 0);
    }
  }

  lemma QuotientIsUnique(n: int, d: int, q: int, r: int)
    requires d >= 1 && n == q * d + r && 0 <= r < d
    ensures n / d == q && n % d == r
  {
    var q', r' := n / d, n % d;
    assert (q' - q) * d == r - r' by {
      assert n == q' * d + r';
      Distribute(q', q, d);
    }
    if q' < q {
      Distribute(q, q' + 1, d);
      Distribute(q', q, d);
      NonNegativeProduct(q - q' - 1, d);
      Distribute(q' + 1, q', d);
    } else if q' > q {
      NonNegativeProduct(q' - q - 1, d);
      Distribute(q', q + 1, d);
      Distribute(q + 1, q, d);
    }
  }

  lemma Distribute(a: int, b: int, d: int)
    ensures (a - b) * d == a * d - b * d
  {
  }

  function EvenSplit(players: nat, teamCount: nat): Profile
    requires teamCount >= 1
  {
    seq(teamCount, i => players / teamCount + if i < teamCount - players % teamCount then 0 else 1)
  }

  /** With only single players the recommendation is the even split. */
  lemma SinglesAreSplitEvenly(rec: Option<Profile>, sizes: seq<int>, teamCount: int, teamSize: int)
    requires IsRecommended(rec, sizes, teamCount, teamSize)
    requires teamCount >= 1 && teamSize >= 1
    requires forall i | 0 <= i < |sizes| :: sizes[i] == 1
    ensures rec == if |sizes| <= teamCount * teamSize then Some(EvenSplit(|sizes|, teamCount)) else None
  {
    var n := |sizes|;
    assert sizes == Ones(n);
    SumBounds(sizes, 1, 1);
    if n <= teamCount * teamSize {
      var teams := RoundRobin(n, teamCount);
      EvenFits(n, teamCount, teamSize);
      assert Balanced(teams, sizes, teamCount, teamSize, 0, 1);
      EligibilityIsExact(rec, sizes, teamCount, teamSize, 0, 1);
      AchievableShape(rec.value, sizes, teamCount, teamSize);
      NearlyEven(rec.value);
    } else if rec.Some? {
      AchievableShape(rec.value, sizes, teamCount, teamSize);
      SumBounds(rec.value, 0, teamSize);
    }
  }

  lemma EvenFits(n: nat, teamCount: int, teamSize: int)
    requires teamCount >= 1 && n <= teamCount * teamSize
    ensures n / teamCount + (if 0 < n % teamCount then 1 else 0) <= teamSize
    ensures n / teamCount >= 0
  {
    if n / teamCount >= teamSize {
      assert (n / teamCount - teamSize) * teamCount >= 0;
    }
  }

  lemma NearlyEven(p: Profile)
    requires p != [] && Ascending(p) && p[0] >= 0 && p[|p| - 1] - p[0] <= 1
    ensures Sum(p) >= 0 && p == EvenSplit(Sum(p), |p|)
  {
    SumBounds(p, 0, p[|p| - 1]);
    var high := CountAbove(p);
    QuotientIsUnique(Sum(p), |p|, p[0], high);
    assert Sum(p) / |p| == p[0] && Sum(p) % |p| == high;
  }

  /** In an ascending list of spread at most one, the larger values are the last ones. */
  lemma {:induction false} CountAbove(p: Profile) returns (high: nat)
    requires p != [] && Ascending(p) && p[|p| - 1] - p[0] <= 1
    ensures high < |p| && Sum(p) == p[0] * |p| + high
    ensures forall i | 0 <= i < |p| :: p[i] == p[0] + if i < |p| - high then 0 else 1
  {
    var n := |p| - 1;
    if n == 0 {
      high := 0;
      assert p[..0] == [];
    } else {
      var before := CountAbove(p[..n]);
      assert Sum(p) == Sum(p[..n]) + p[n];
      assert p[0] * |p| == p[0] * n + p[0];
      high := if p[n] == p[0] then 0 else before + 1;
      assert p[n] == p[0] ==> p[n - 1] == p[0];
    }
  }

  // ----- Ranking sessions for one ticket

  datatype SessionPlacementCandidate = SessionPlacementCandidate(
    sessionId: int,
    createdAt: int,
    ticketSizes: seq<int>
  )

  datatype RankedSessionCandidate = RankedSessionCandidate(
    candidate: SessionPlacementCandidate,
    profiles: seq<Profile>,
    recommendedProfile: Profile,
    playerCount: int,
    placesRemaining: int,
    complete: bool
  )

  function Rank(b: bool): int {
    if b then 1 else 0
  }

  function CompareRanked(l: RankedSessionCandidate, r: RankedSessionCandidate): int {
    if l.complete != r.complete then Rank(r.complete) - Rank(l.complete)
    else if l.placesRemaining != r.placesRemaining then l.placesRemaining - r.placesRemaining
    else
      var quality := CompareProfileQuality(l.recommendedProfile, r.recommendedProfile);
      if quality != 0 then quality
      else if l.candidate.createdAt != r.candidate.createdAt then l.candidate.createdAt - r.candidate.createdAt
      else if |r.profiles| != |l.profiles| then |r.profiles| - |l.profiles|
      else l.candidate.sessionId - r.candidate.sessionId
  }

  lemma RankingIsTotalPreorder()
    ensures TotalPreorder((a: RankedSessionCandidate, b: RankedSessionCandidate) => CompareRanked(a, b) <= 0)
  {
    forall a: RankedSessionCandidate, b: RankedSessionCandidate, c: RankedSessionCandidate
      ensures CompareRanked(a, b) <= 0 || CompareRanked(b, a) <= 0
      ensures CompareRanked(a, b) <= 0 && CompareRanked(b, c) <= 0 ==> CompareRanked(a, c) <= 0
    {
      CompareRankedLaws(a, b, c);
    }
  }

  lemma CompareRankedLaws(a: RankedSessionCandidate, b: RankedSessionCandidate, c: RankedSessionCandidate)
    ensures CompareRanked(a, b) <= 0 || CompareRanked(b, a) <= 0
    ensures CompareRanked(a, b) <= 0 && CompareRanked(b, c) <= 0 ==> CompareRanked(a, c) <= 0
  {
    var x, y, z := Quality(a.recommendedProfile), Quality(b.recommendedProfile), Quality(c.recommendedProfile);
    CompareQualityLaws(x, y, z);
    CompareQualityLaws(y, z, x);
    CompareQualityLaws(z, x, y);
  }

  /** The session can take the ticket: room within the player limit and a team for every whole ticket. */
  ghost predicate FitsTicket(
      sizes: seq<int>, ticketSize: int, teamCount: int, teamSize: int, maximumPlayers: int) {
    var all := sizes + [ticketSize];
    Sum(all) <= maximumPlayers && ValidTickets(all, teamCount, teamSize) && Assignable(all, teamCount, teamSize)
  }

  /** r is the ranked form of s. */
  ghost predicate RankedForm(
      r: RankedSessionCandidate, s: SessionPlacementCandidate,
      ticketSize: int, teamCount: int, teamSize: int, maximumPlayers: int) {
    var all := s.ticketSizes + [ticketSize];
    && r.candidate == s
    && StrictlyOrdered(r.profiles)
    && (forall p :: p in r.profiles <==>
          ValidTickets(all, teamCount, teamSize) && Achievable(p, all, teamCount, teamSize))
    && IsRecommended(Some(r.recommendedProfile), all, teamCount, teamSize)
    && r.playerCount == Sum(all) && r.placesRemaining == maximumPlayers - Sum(all) >= 0
    && r.complete == (Sum(all) == maximumPlayers)
  }

  /** The places of the sessions that can take the ticket. */
  ghost function FittingPlaces(
      sessions: seq<SessionPlacementCandidate>, ticketSize: int, teamCount: int, teamSize: int, maximumPlayers: int): set<nat>
  {
    set i: nat | i < |sessions| && FitsTicket(sessions[i].ticketSizes, ticketSize, teamCount, teamSize, maximumPlayers)
  }

  /** Those of the first n places that are wanted, each once and in order. */
  ghost predicate Enumerates(places: seq<nat>, n: nat, wanted: set<nat>) {
    && (forall k, l :: 0 <= k < l < |places| ==> places[k] < places[l])
    && forall i: nat :: i in places <==> i < n && i in wanted
  }

  lemma EnumeratesNext(places: seq<nat>, n: nat, wanted: set<nat>)
    requires Enumerates(places, n, wanted)
    ensures Enumerates(if n in wanted then places + [n] else places, n + 1, wanted)
  {
    assert forall k | 0 <= k < |places| :: places[k] in places;
  }

  /** Exactly the sessions that can take the ticket, in their ranked forms. */
  ghost predicate AllFitting(
      entries: seq<RankedSessionCandidate>, places: seq<nat>, sessions: seq<SessionPlacementCandidate>,
      ticketSize: int, teamCount: int, teamSize: int, maximumPlayers: int)
  {
    && Enumerates(places, |sessions|, FittingPlaces(sessions, ticketSize, teamCount, teamSize, maximumPlayers))
    && |entries| == |places|
    && forall k | 0 <= k < |places| ::
         places[k] < |sessions| &&
         RankedForm(entries[k], sessions[places[k]], ticketSize, teamCount, teamSize, maximumPlayers)
  }

  /** Ranks exactly the sessions that can take the ticket, each as often as it is given, by the public policy. */
  method RankSessionCandidates(
      sessions: seq<SessionPlacementCandidate>, ticketSize: int, teamCount: int, teamSize: int, maximumPlayers: int)
    returns (ranked: seq<RankedSessionCandidate>, ghost entries: seq<RankedSessionCandidate>, ghost places: seq<nat>)
    ensures AllFitting(entries, places, sessions, ticketSize, teamCount, teamSize, maximumPlayers)
    ensures multiset(ranked) == multiset(entries)
    ensures forall r | r in ranked :: r.candidate in sessions &&
              RankedForm(r, r.candidate, ticketSize, teamCount, teamSize, maximumPlayers)
    ensures forall s | s in sessions ::
              FitsTicket(s.ticketSizes, ticketSize, teamCount, teamSize, maximumPlayers) <==>
              exists r :: r in ranked && r.candidate == s
    ensures forall i, j :: 0 <= i < j < |ranked| ==> CompareRanked(ranked[i], ranked[j]) <= 0
  {
    var found: seq<RankedSessionCandidate> := [];
    places := [];
    ghost var fitting := FittingPlaces(sessions, ticketSize, teamCount, teamSize, maximumPlayers);
    for i := 0 to |sessions|
      invariant Enumerates(places, i, fitting) && |found| == |places|
      invariant forall k | 0 <= k < |places| ::
                  places[k] < |sessions| &&
                  RankedForm(found[k], sessions[places[k]], ticketSize, teamCount, teamSize, maximumPlayers)
    {
      var entry := RankSession(sessions[i], ticketSize, teamCount, teamSize, maximumPlayers);
      EnumeratesNext(places, i, fitting);
      if entry.Some? {
        found := found + [entry.value];
        places := places + [i];
      }
    }
    RankingIsTotalPreorder();
    ranked := SortBy(found, (a: RankedSessionCandidate, b: RankedSessionCandidate) => CompareRanked(a, b) <= 0);
    SameMembers(ranked, found);
    entries := found;
    FittingAreRanked(entries, places, sessions, ticketSize, teamCount, teamSize, maximumPlayers);
  }

  lemma FittingAreRanked(
      entries: seq<RankedSessionCandidate>, places: seq<nat>, sessions: seq<SessionPlacementCandidate>,
      ticketSize: int, teamCount: int, teamSize: int, maximumPlayers: int)
    requires AllFitting(entries, places, sessions, ticketSize, teamCount, teamSize, maximumPlayers)
    ensures forall r | r in entries :: r.candidate in sessions &&
              RankedForm(r, r.candidate, ticketSize, teamCount, teamSize, maximumPlayers)
    ensures forall s | s in sessions ::
              FitsTicket(s.ticketSizes, ticketSize, teamCount, teamSize, maximumPlayers) <==>
              exists r :: r in entries && r.candidate == s
  {
    forall r | r in entries ensures r.candidate in sessions {
      var k :| 0 <= k < |entries| && entries[k] == r;
      assert sessions[places[k]] == r.candidate;
    }
    forall s | s in sessions
      ensures FitsTicket(s.ticketSizes, ticketSize, teamCount, teamSize, maximumPlayers) <==>
              exists r :: r in entries && r.candidate == s
    {
      var i :| 0 <= i < |sessions| && sessions[i] == s;
      if FitsTicket(s.ticketSizes, ticketSize, teamCount, teamSize, maximumPlayers) {
        assert i in FittingPlaces(sessions, ticketSize, teamCount, teamSize, maximumPlayers) && i in places;
        var k :| 0 <= k < |places| && places[k] == i;
        assert entries[k] in entries && entries[k].candidate == s;
      } else if r :| r in entries && r.candidate == s {
        var k :| 0 <= k < |entries| && entries[k] == r;
        RankedFits(r, ticketSize, teamCount, teamSize, maximumPlayers);
      }
    }
  }

  lemma RankedFits(r: RankedSessionCandidate, ticketSize: int, teamCount: int, teamSize: int, maximumPlayers: int)
    requires RankedForm(r, r.candidate, ticketSize, teamCount, teamSize, maximumPlayers)
    ensures FitsTicket(r.candidate.ticketSizes, ticketSize, teamCount, teamSize, maximumPlayers)
  {
    AssignableHasProfile(r.candidate.ticketSizes + [ticketSize], teamCount, teamSize);
  }

  method RankSession(
      session: SessionPlacementCandidate, ticketSize: int, teamCount: int, teamSize: int, maximumPlayers: int)
    returns (entry: Option<RankedSessionCandidate>)
    ensures entry.Some? <==> FitsTicket(session.ticketSizes, ticketSize, teamCount, teamSize, maximumPlayers)
    ensures entry.Some? ==> RankedForm(entry.value, session, ticketSize, teamCount, teamSize, maximumPlayers)
  {
    var ticketSizes := session.ticketSizes + [ticketSize];
    var playerCount := Sum(ticketSizes);
    if playerCount > maximumPlayers {
      return None;
    }
    var profiles := ComputeFeasibleProfiles(ticketSizes, teamCount, teamSize);
    var recommended := SelectRecommendedProfile(profiles);
    BestIsRecommended(recommended, profiles, ticketSizes, teamCount, teamSize);
    if ValidTickets(ticketSizes, teamCount, teamSize) {
      AssignableHasProfile(ticketSizes, teamCount, teamSize);
    }
    if recommended.None? {
      return None;
    }
    return Some(RankedSessionCandidate(
      session, profiles, recommended.value, playerCount, maximumPlayers - playerCount, playerCount == maximumPlayers));
  }

  /** Of two sessions that fit equally well the older one comes first, then the one with more profiles, then the smaller id. */
  lemma TiesAreBroken(l: RankedSessionCandidate, r: RankedSessionCandidate)
    requires l.complete == r.complete && l.placesRemaining == r.placesRemaining
    requires CompareProfileQuality(l.recommendedProfile, r.recommendedProfile) == 0
    ensures CompareRanked(l, r) < 0 <==>
              || l.candidate.createdAt < r.candidate.createdAt
              || (l.candidate.createdAt == r.candidate.createdAt && |l.profiles| > |r.profiles|)
              || (l.candidate.createdAt == r.candidate.createdAt && |l.profiles| == |r.profiles| &&
                  l.candidate.sessionId < r.candidate.sessionId)
    ensures CompareRanked(l, r) == 0 <==>
              l.candidate.createdAt == r.candidate.createdAt && |l.profiles| == |r.profiles| &&
              l.candidate.sessionId == r.candidate.sessionId
  {
  }

  /**
   The first-ranked session is a best fit: none that can take the ticket would be left
   with fewer free places; among those with as many, none has a better profile; and
   among those none is older.
   */
  lemma FirstIsBestFit(
      ranked: seq<RankedSessionCandidate>, k: nat, ticketSize: int, teamCount: int, teamSize: int, maximumPlayers: int)
    requires forall r | r in ranked :: RankedForm(r, r.candidate, ticketSize, teamCount, teamSize, maximumPlayers)
    requires forall i, j :: 0 <= i < j < |ranked| ==> CompareRanked(ranked[i], ranked[j]) <= 0
    requires k < |ranked|
    ensures ranked[0].placesRemaining <= ranked[k].placesRemaining
    ensures ranked[0].placesRemaining == ranked[k].placesRemaining ==>
              CompareProfileQuality(ranked[0].recommendedProfile, ranked[k].recommendedProfile) <= 0
    ensures ranked[0].placesRemaining == ranked[k].placesRemaining &&
            CompareProfileQuality(ranked[0].recommendedProfile, ranked[k].recommendedProfile) == 0 ==>
              || ranked[0].candidate.createdAt < ranked[k].candidate.createdAt
              || (ranked[0].candidate.createdAt == ranked[k].candidate.createdAt && |ranked[0].profiles| > |ranked[k].profiles|)
              || (ranked[0].candidate.createdAt == ranked[k].candidate.createdAt && |ranked[0].profiles| == |ranked[k].profiles| &&
                  ranked[0].candidate.sessionId <= ranked[k].candidate.sessionId)
  {
    assert ranked[0] in ranked && ranked[k] in ranked;
    if k > 0 {
      assert CompareRanked(ranked[0], ranked[k]) <= 0;
    } else {
      CompareQualityLaws(
        Quality(ranked[0].recommendedProfile), Quality(ranked[0].recommendedProfile), Quality(ranked[0].recommendedProfile));
    }
  }
}
