/**
 Weighted choice of a variant (orchestrator/src/domain/variant-selection.ts):
 one choice, and the shares after any number of choices whatever the random numbers.
 */
module VariantSelection {
  import opened Basics

  datatype VariantCandidate = VariantCandidate(id: int, weight: int, warmCount: int)

  predicate ValidCandidates(candidates: seq<VariantCandidate>) {
    forall i | 0 <= i < |candidates| :: candidates[i].weight > 0 && candidates[i].warmCount >= 0
  }

  function Ratio(c: VariantCandidate): real
    requires c.weight > 0
  {
    c.warmCount as real / c.weight as real
  }

  function Weights(candidates: seq<VariantCandidate>): (r: seq<int>)
    ensures |r| == |candidates|
  {
    seq(|candidates|, i requires 0 <= i < |candidates| => candidates[i].weight)
  }

  /** Comparing ratios is comparing cross products. */
  lemma RatioOrder(a: VariantCandidate, b: VariantCandidate)
    requires a.weight > 0 && b.weight > 0
    ensures Ratio(a) <= Ratio(b) <==> a.warmCount * b.weight <= b.warmCount * a.weight
  {
    var x, y := Ratio(a), Ratio(b);
    var v, w := a.weight as real, b.weight as real;
    assert x * v == a.warmCount as real && y * w == b.warmCount as real;
    ScaleOrder(x, y, v * w);
    assert x * (v * w) == (x * v) * w && y * (v * w) == (y * w) * v;
    assert (a.warmCount * b.weight) as real == a.warmCount as real * w;
    assert (b.warmCount * a.weight) as real == b.warmCount as real * v;
  }

  lemma ScaleOrder(x: real, y: real, factor: real)
    requires factor > 0.0
    ensures x <= y <==> x * factor <= y * factor
  {
  }

  /** The smallest ratio of warm servers to weight. */
  ghost predicate IsBestRatio(best: real, candidates: seq<VariantCandidate>)
    requires ValidCandidates(candidates)
  {
    && (exists i | 0 <= i < |candidates| :: Ratio(candidates[i]) == best)
    && forall i | 0 <= i < |candidates| :: best <= Ratio(candidates[i])
  }

  /** The candidates with this ratio, in their order. */
  function Balanced(candidates: seq<VariantCandidate>, best: real): (r: seq<VariantCandidate>)
    requires ValidCandidates(candidates)
    ensures forall c :: c in r <==> c in candidates && c.weight > 0 && Ratio(c) == best
  {
    if candidates == [] then []
    else
      var n := |candidates| - 1;
      assert candidates == candidates[..n] + [candidates[n]];
      Balanced(candidates[..n], best) + if Ratio(candidates[n]) == best then [candidates[n]] else []
  }

  /** Candidate k owns the interval of its weight after those before it. */
  ghost predicate Owns(balanced: seq<VariantCandidate>, k: nat, x: real)
    requires k < |balanced|
  {
    Sum(Weights(balanced[..k])) as real <= x < Sum(Weights(balanced[..k + 1])) as real
  }

  lemma PrefixWeight(balanced: seq<VariantCandidate>, k: nat)
    requires k < |balanced|
    ensures Sum(Weights(balanced[..k + 1])) == Sum(Weights(balanced[..k])) + balanced[k].weight
  {
    assert Weights(balanced[..k + 1]) == Weights(balanced[..k]) + [balanced[k].weight];
    SumAppend(Weights(balanced[..k]), balanced[k].weight);
  }

  lemma {:induction false} PrefixesGrow(balanced: seq<VariantCandidate>, j: nat, k: nat)
    requires j <= k <= |balanced| && ValidCandidates(balanced)
    ensures Sum(Weights(balanced[..j])) <= Sum(Weights(balanced[..k]))
    decreases k - j
  {
    if j < k {
      PrefixesGrow(balanced, j, k - 1);
      PrefixWeight(balanced, k - 1);
    }
  }

  /** A point belongs to one candidate only, on an interval exactly as long as its weight. */
  lemma OwnerIsUnique(balanced: seq<VariantCandidate>, j: nat, k: nat, x: real)
    requires ValidCandidates(balanced) && j < |balanced| && k < |balanced|
    requires Owns(balanced, j, x) && Owns(balanced, k, x)
    ensures j == k
  {
    if j < k {
      PrefixesGrow(balanced, j + 1, k);
    } else if k < j {
      PrefixesGrow(balanced, k + 1, j);
    }
  }

  /**
   None without candidates; otherwise a candidate of the smallest ratio, namely
   the one that owns the drawn point of the total weight.
   */
  method SelectVariant(candidates: seq<VariantCandidate>, random: real)
    returns (chosen: Option<VariantCandidate>, ghost best: real, ghost k: nat)
    requires ValidCandidates(candidates) && 0.0 <= random < 1.0
    ensures chosen.None? <==> candidates == []
    ensures chosen.Some? ==> IsChosen(chosen.value, candidates, best, k, random)
  {
    best, k := 0.0, 0;
    if |candidates| == 0 {
      return None, best, k;
    }
    var bestRatio := MinimumRatio(candidates);
    var balanced := KeepBalanced(candidates, bestRatio);
    var point := DrawPoint(balanced, random);
    var index := Walk(balanced, point);
    return Some(balanced[index]), bestRatio, index;
  }

  ghost predicate IsChosen(c: VariantCandidate, candidates: seq<VariantCandidate>, best: real, k: nat, random: real)
    requires ValidCandidates(candidates)
  {
    var balanced := Balanced(candidates, best);
    && IsBestRatio(best, candidates)
    && k < |balanced| && balanced[k] == c
    && Owns(balanced, k, PointOf(balanced, random))
  }

  function PointOf(balanced: seq<VariantCandidate>, random: real): real {
    random * Sum(Weights(balanced)) as real
  }

  /** The choice is determined by the draw, and no candidate is less represented. */
  lemma ChoiceIsDetermined(
      c: VariantCandidate, d: VariantCandidate, candidates: seq<VariantCandidate>,
      best: real, other: real, j: nat, k: nat, random: real)
    requires ValidCandidates(candidates)
    requires IsChosen(c, candidates, best, j, random) && IsChosen(d, candidates, other, k, random)
    ensures c == d && c in candidates
    ensures forall i | 0 <= i < |candidates| :: c.weight > 0 && Ratio(c) <= Ratio(candidates[i])
  {
    assert best == other;
    var balanced := Balanced(candidates, best);
    assert c in balanced;
    forall i | 0 <= i < |balanced| ensures balanced[i].weight > 0 && balanced[i].warmCount >= 0 {
      assert balanced[i] in balanced;
    }
    OwnerIsUnique(balanced, j, k, PointOf(balanced, random));
  }

  method MinimumRatio(candidates: seq<VariantCandidate>) returns (best: real)
    requires ValidCandidates(candidates) && candidates != []
    ensures IsBestRatio(best, candidates)
    ensures Balanced(candidates, best) != []
  {
    best := Ratio(candidates[0]);
    ghost var at := 0;
    for i := 1 to |candidates|
      invariant 0 <= at < |candidates| && Ratio(candidates[at]) == best
      invariant forall j | 0 <= j < i :: best <= Ratio(candidates[j])
    {
      if Ratio(candidates[i]) < best {
        best, at := Ratio(candidates[i]), i;
      }
    }
    assert candidates[at] in Balanced(candidates, best);
  }

  method KeepBalanced(candidates: seq<VariantCandidate>, best: real) returns (balanced: seq<VariantCandidate>)
    requires ValidCandidates(candidates)
    ensures balanced == Balanced(candidates, best) && ValidCandidates(balanced)
  {
    balanced := [];
    for i := 0 to |candidates|
      invariant balanced == Balanced(candidates[..i], best)
    {
      assert candidates[..i + 1][..i] == candidates[..i];
      if Ratio(candidates[i]) == best {
        balanced := balanced + [candidates[i]];
      }
    }
    assert candidates[..|candidates|] == candidates;
    forall i | 0 <= i < |balanced| ensures balanced[i].weight > 0 && balanced[i].warmCount >= 0 {
      assert balanced[i] in candidates;
    }
  }

  method DrawPoint(balanced: seq<VariantCandidate>, random: real) returns (point: real)
    requires balanced != [] && ValidCandidates(balanced) && 0.0 <= random < 1.0
    ensures point == PointOf(balanced, random) && 0.0 <= point < Sum(Weights(balanced)) as real
  {
    PrefixWeight(balanced, 0);
    PrefixesGrow(balanced, 1, |balanced|);
    assert balanced[..|balanced|] == balanced && Weights(balanced[..0]) == [];
    var total := Sum(Weights(balanced)) as real;
    point := random * total;
    PointIsInside(random, total, point);
  }

  /** Subtracts weights from the drawn point until it goes negative; the last candidate takes the rest. */
  method Walk(balanced: seq<VariantCandidate>, point: real) returns (index: nat)
    requires balanced != [] && ValidCandidates(balanced) && 0.0 <= point < Sum(Weights(balanced)) as real
    ensures index < |balanced| && Owns(balanced, index, point)
  {
    var cursor := point;
    assert Weights(balanced[..0]) == [];
    for i := 0 to |balanced| - 1
      invariant cursor == point - Sum(Weights(balanced[..i])) as real
      invariant cursor >= 0.0
    {
      PrefixWeight(balanced, i);
      cursor := cursor - balanced[i].weight as real;
      if cursor < 0.0 {
        return i;
      }
    }
    assert balanced[..|balanced| - 1 + 1] == balanced;
    return |balanced| - 1;
  }

  lemma PointIsInside(random: real, total: real, point: real)
    requires 0.0 <= random < 1.0 && total > 0.0 && point == random * total
    ensures 0.0 <= point < total
  {
  }

  // ----- Shares after many choices

  function Count(picks: seq<nat>, i: nat): nat {
    if picks == [] then 0
    else Count(picks[..|picks| - 1], i) + if picks[|picks| - 1] == i then 1 else 0
  }

  function Counts(picks: seq<nat>, k: nat): (r: seq<int>)
    ensures |r| == k
  {
    seq(k, i requires 0 <= i < k => Count(picks, i))
  }

  predicate PositiveWeights(weights: seq<int>) {
    forall i | 0 <= i < |weights| :: weights[i] > 0
  }

  /** After these picks, variant j is as little represented as any other. */
  ghost predicate IsLeast(weights: seq<int>, picks: seq<nat>, j: nat) {
    && j < |weights|
    && forall i: nat | i < |weights| :: Count(picks, j) * weights[i] <= Count(picks, i) * weights[j]
  }

  /** Every pick was least represented when it was made; ties were broken in any way. */
  ghost predicate BalancedRun(weights: seq<int>, picks: seq<nat>) {
    forall t | 0 <= t < |picks| :: IsLeast(weights, picks[..t], picks[t])
  }

  /** The choice of the selector is such a pick when the warm counts are the picks so far. */
  lemma ChoiceIsLeast(
      candidates: seq<VariantCandidate>, picks: seq<nat>, j: nat, c: VariantCandidate,
      best: real, k: nat, random: real)
    requires ValidCandidates(candidates) && IsChosen(c, candidates, best, k, random)
    requires j < |candidates| && candidates[j] == c
    requires forall i | 0 <= i < |candidates| :: candidates[i].warmCount == Count(picks, i)
    ensures IsLeast(Weights(candidates), picks, j)
  {
    ChoiceIsDetermined(c, c, candidates, best, best, k, k, random);
    forall i: nat | i < |candidates|
      ensures Count(picks, j) * Weights(candidates)[i] <= Count(picks, i) * Weights(candidates)[j]
    {
      RatioOrder(c, candidates[i]);
    }
  }

  /** No variant is more than one server ahead of its share against any other. */
  lemma {:induction false} PairwiseFair(weights: seq<int>, picks: seq<nat>, i: nat, j: nat)
    requires PositiveWeights(weights) && BalancedRun(weights, picks) && i < |weights| && j < |weights|
    ensures (Count(picks, j) - 1) * weights[i] <= Count(picks, i) * weights[j]
  {
    if picks == [] {
    } else {
      var n := |picks| - 1;
      var before := picks[..n];
      forall t | 0 <= t < n ensures IsLeast(weights, before[..t], before[t]) {
        assert picks[..t] == before[..t];
        assert IsLeast(weights, picks[..t], picks[t]);
      }
      PairwiseFair(weights, before, i, j);
      assert IsLeast(weights, before, picks[n]);
      if picks[n] == j {
        assert Count(before, j) * weights[i] <= Count(before, i) * weights[j];
        More(Count(before, i), Count(picks, i), weights[j]);
      } else {
        More(Count(before, i), Count(picks, i), weights[j]);
      }
    }
  }

  lemma More(a: int, b: int, w: int)
    requires a <= b && w > 0
    ensures a * w <= b * w
  {
  }

  lemma {:induction false} CountsAddUp(weights: seq<int>, picks: seq<nat>)
    requires BalancedRun(weights, picks)
    ensures Sum(Counts(picks, |weights|)) == |picks|
  {
    var k := |weights|;
    if picks == [] {
      assert forall i | 0 <= i < k :: Counts(picks, k)[i] == 0;
      SumBounds(Counts(picks, k), 0, 0);
    } else {
      var n := |picks| - 1;
      var before, j := picks[..n], picks[n];
      forall t | 0 <= t < n ensures IsLeast(weights, before[..t], before[t]) {
        assert picks[..t] == before[..t];
        assert IsLeast(weights, picks[..t], picks[t]);
      }
      CountsAddUp(weights, before);
      assert IsLeast(weights, picks[..n], j);
      assert Counts(picks, k) == Counts(before, k)[j := Count(before, j) + 1];
      SumUpdate(Counts(before, k), j, Count(before, j) + 1);
    }
  }

  function Here(i: nat, m: nat): int {
    if i < m then 1 else 0
  }

  lemma Prefixes(weights: seq<int>, picks: seq<nat>, j: nat)
    requires j < |weights|
    ensures Sum(weights[..j + 1]) == Sum(weights[..j]) + weights[j]
    ensures Sum(Counts(picks, j + 1)) == Sum(Counts(picks, j)) + Count(picks, j)
  {
    assert weights[..j + 1] == weights[..j] + [weights[j]];
    SumAppend(weights[..j], weights[j]);
    assert Counts(picks, j + 1) == Counts(picks, j) + [Count(picks, j)];
    SumAppend(Counts(picks, j), Count(picks, j));
  }

  /** What variant i is owed by the first m variants. */
  lemma {:induction false} AddedLower(weights: seq<int>, picks: seq<nat>, i: nat, m: nat)
    requires PositiveWeights(weights) && BalancedRun(weights, picks) && i < |weights| && m <= |weights|
    ensures (Sum(Counts(picks, m)) - m + Here(i, m)) * weights[i] <= Count(picks, i) * Sum(weights[..m])
  {
    if m == 0 {
      assert weights[..0] == [] && Counts(picks, 0) == [];
    } else {
      var j := m - 1;
      AddedLower(weights, picks, i, j);
      Prefixes(weights, picks, j);
      PairwiseFair(weights, picks, i, j);
      AddLower(Sum(Counts(picks, j)), Count(picks, j), j, Here(i, j), Here(i, m), weights[i], weights[j],
               Count(picks, i), Sum(weights[..j]));
    }
  }

  /** What variant i may be ahead of the first m variants. */
  lemma {:induction false} AddedUpper(weights: seq<int>, picks: seq<nat>, i: nat, m: nat)
    requires PositiveWeights(weights) && BalancedRun(weights, picks) && i < |weights| && m <= |weights|
    ensures (Count(picks, i) - 1) * Sum(weights[..m]) + Here(i, m) * weights[i] <= Sum(Counts(picks, m)) * weights[i]
  {
    if m == 0 {
      assert weights[..0] == [] && Counts(picks, 0) == [];
    } else {
      var j := m - 1;
      AddedUpper(weights, picks, i, j);
      Prefixes(weights, picks, j);
      PairwiseFair(weights, picks, j, i);
      AddUpper(Sum(Counts(picks, j)), Count(picks, j), Here(i, j), Here(i, m), weights[i], weights[j],
               Count(picks, i), Sum(weights[..j]));
    }
  }

  lemma AddLower(total: int, c: int, m: int, h: int, h': int, w: int, v: int, own: int, sum: int)
    requires (total - m + h) * w <= own * sum
    requires (c - 1) * w <= own * v
    requires h' == h || (h' == h + 1 && own == c && w == v)
    ensures (total + c - (m + 1) + h') * w <= own * (sum + v)
  {
    assert own * (sum + v) == own * sum + own * v;
    assert (total + c - (m + 1) + h') * w == (total - m + h) * w + (c - 1) * w + (h' - h) * w;
    assert (c - 1) * w == c * w - w;
  }

  lemma AddUpper(total: int, c: int, h: int, h': int, w: int, v: int, own: int, sum: int)
    requires (own - 1) * sum + h * w <= total * w
    requires (own - 1) * v <= c * w
    requires h' == h || (h' == h + 1 && own == c && w == v)
    ensures (own - 1) * (sum + v) + h' * w <= (total + c) * w
  {
    assert (own - 1) * (sum + v) == (own - 1) * sum + (own - 1) * v;
    assert (total + c) * w == total * w + c * w;
    assert h' * w == h * w + (h' - h) * w;
    assert (own - 1) * v == own * v - v;
  }

  lemma Totals(weights: seq<int>, picks: seq<nat>, i: nat) returns (counted: int, sum: int)
    requires PositiveWeights(weights) && BalancedRun(weights, picks) && i < |weights|
    ensures counted == |picks| && sum == Sum(weights)
    ensures (counted - |weights| + 1) * weights[i] <= Count(picks, i) * sum
    ensures (Count(picks, i) - 1) * sum + 1 * weights[i] <= counted * weights[i]
  {
    AddedLower(weights, picks, i, |weights|);
    AddedUpper(weights, picks, i, |weights|);
    CountsAddUp(weights, picks);
    assert weights[..|weights|] == weights;
    counted, sum := Sum(Counts(picks, |weights|)), Sum(weights[..|weights|]);
  }

  lemma WholeShare(n: int, k: int, w: int, own: int, total: int, counted: int, sum: int)
    requires counted == n && sum == total
    requires (counted - k + 1) * w <= own * sum
    requires (own - 1) * sum + 1 * w <= counted * w
    ensures (n - k + 1) * w <= own * total
    ensures own * total <= (n - 1) * w + total
  {
    assert (own - 1) * total == own * total - total;
    assert (n - 1) * w == n * w - w;
  }

  /**
   Whatever the random numbers: after n choices, each variant has its share of
   the n servers up to one server above, and up to one server per other variant below.
   */
  lemma SharesAreFair(weights: seq<int>, picks: seq<nat>, i: nat, n: int, total: int)
    requires PositiveWeights(weights) && BalancedRun(weights, picks) && i < |weights|
    requires n == |picks| && total == Sum(weights)
    ensures (n - |weights| + 1) * weights[i] <= Count(picks, i) * total
    ensures Count(picks, i) * total <= (n - 1) * weights[i] + total
  {
    var counted, sum := Totals(weights, picks, i);
    WholeShare(n, |weights|, weights[i], Count(picks, i), total, counted, sum);
  }

  // ----- Choosing again and again

  function Candidates(weights: seq<int>, warm: seq<int>): (r: seq<VariantCandidate>)
    requires |warm| == |weights|
    ensures |r| == |weights|
  {
    seq(|weights|, i requires 0 <= i < |weights| => VariantCandidate(i, weights[i], warm[i]))
  }

  lemma AddBalancedPick(weights: seq<int>, picks: seq<nat>, j: nat)
    requires BalancedRun(weights, picks) && IsLeast(weights, picks, j)
    ensures BalancedRun(weights, picks + [j])
  {
    var longer := picks + [j];
    forall t | 0 <= t < |longer| ensures longer[..t] == picks[..t] {
    }
    assert picks[..|picks|] == picks;
  }

  lemma CountsAfter(picks: seq<nat>, k: nat, j: nat)
    requires j < k
    ensures Counts(picks + [j], k) == Counts(picks, k)[j := Counts(picks, k)[j] + 1]
  {
    assert (picks + [j])[..|picks|] == picks;
  }

  /** One choice by the servers counted so far: a least represented variant gets the next one. */
  method ChooseNext(weights: seq<int>, warm: seq<int>, random: real, ghost picks: seq<nat>) returns (j: nat)
    requires weights != [] && PositiveWeights(weights) && 0.0 <= random < 1.0
    requires warm == Counts(picks, |weights|) && forall i | 0 <= i < |warm| :: warm[i] >= 0
    ensures IsLeast(weights, picks, j)
  {
    var candidates := Candidates(weights, warm);
    var chosen;
    ghost var best, k;
    chosen, best, k := SelectVariant(candidates, random);
    assert Weights(candidates) == weights;
    assert chosen.value in Balanced(candidates, best);
    j := chosen.value.id;
    ChoiceIsLeast(candidates, picks, j, chosen.value, best, k, random);
  }

  /** At most one server above the share, and at most one per other variant below it. */
  predicate InShare(own: int, weight: int, n: int, others: int, total: int) {
    (n - others) * weight <= own * total <= (n - 1) * weight + total
  }

  lemma SharesOf(weights: seq<int>, picks: seq<nat>, total: int)
    requires PositiveWeights(weights) && BalancedRun(weights, picks) && total == Sum(weights)
    ensures forall i: nat | i < |weights| :: InShare(Count(picks, i), weights[i], |picks|, |weights| - 1, total)
  {
    forall i: nat | i < |weights| ensures InShare(Count(picks, i), weights[i], |picks|, |weights| - 1, total) {
      SharesAreFair(weights, picks, i, |picks|, total);
    }
  }

  /**
   Starting without servers and choosing once per server, with the counts kept up
   to date, every variant ends in its share whatever the random numbers are.
   */
  method ChooseAll(weights: seq<int>, randoms: seq<real>) returns (warm: seq<int>)
    requires weights != [] && PositiveWeights(weights)
    requires forall k | 0 <= k < |randoms| :: 0.0 <= randoms[k] < 1.0
    ensures |warm| == |weights| && Sum(warm) == |randoms|
    ensures forall i | 0 <= i < |weights| :: InShare(warm[i], weights[i], |randoms|, |weights| - 1, Sum(weights))
  {
    warm := seq(|weights|, _ => 0);
    ghost var picks: seq<nat> := [];
    for k := 0 to |randoms|
      invariant |picks| == k && BalancedRun(weights, picks)
      invariant warm == Counts(picks, |weights|)
    {
      var j := ChooseNext(weights, warm, randoms[k], picks);
      AddBalancedPick(weights, picks, j);
      CountsAfter(picks, |weights|, j);
      warm := warm[j := warm[j] + 1];
      picks := picks + [j];
    }
    CountsAddUp(weights, picks);
    SharesOf(weights, picks, Sum(weights));
  }
}
