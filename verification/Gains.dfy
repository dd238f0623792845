/** Discounted cumulative gain over exact reals, and the rearrangement argument behind its ideal. */
module Gains {
  import opened Sorting

  ghost predicate IsDiscount(d: nat -> real) {
    && (forall r :: r >= 1 ==> d(r) > 0.0)
    && (forall r, s :: 1 <= r < s ==> d(r) < d(s))
  }

  /** `log2(rank + 1)` as a function of the rank: positive and strictly increasing. */
  type Discount = d: nat -> real | IsDiscount(d) witness r => r as real

  function Pow2(n: nat): (p: nat)
    ensures p >= 1
  {
    if n == 0 then 1 else 2 * Pow2(n - 1)
  }

  /** The powers of two. */
  lemma {:induction false} PowersMultiply(a: nat, b: nat)
    ensures Pow2(1) == 2 && Pow2(a + b) == Pow2(a) * Pow2(b)
  {
    assert Pow2(0) == 1;
    if a > 0 { PowersMultiply(a - 1, b); }
  }

  function Gain(relevance: nat): real {
    Pow2(relevance) as real - 1.0
  }

  lemma {:induction false} GainIncreases(a: nat, b: nat)
    requires a < b
    ensures Gain(a) < Gain(b)
    decreases b
  {
    if a < b - 1 { GainIncreases(a, b - 1); }
  }

  lemma GainIsNonNegative(a: nat)
    ensures Gain(a) >= 0.0 && (Gain(a) == 0.0 <==> a == 0)
  {
    if a > 0 { GainIncreases(0, a); }
  }

  /** The gain of a list whose first element has the given rank. */
  function GainFrom(d: Discount, relevances: seq<nat>, rank: nat): real
    requires rank >= 1
  {
    if relevances == [] then 0.0 else Gain(relevances[0]) / d(rank) + GainFrom(d, relevances[1..], rank + 1)
  }

  function TotalGain(d: Discount, relevances: seq<nat>): real {
    GainFrom(d, relevances, 1)
  }

  lemma {:induction false} GainOfAppend(d: Discount, relevances: seq<nat>, x: nat, rank: nat)
    requires rank >= 1
    ensures GainFrom(d, relevances + [x], rank) == GainFrom(d, relevances, rank) + Gain(x) / d(rank + |relevances|)
  {
    if relevances == [] {
      assert ([] + [x])[1..] == [];
    } else {
      GainOfAppend(d, relevances[1..], x, rank + 1);
      assert (relevances + [x])[1..] == relevances[1..] + [x];
    }
  }

  /** `_discounted_gain` */
  method DiscountedGain(d: Discount, relevances: seq<nat>) returns (gain: real)
    ensures gain == TotalGain(d, relevances)
  {
    gain := 0.0;
    for i := 0 to |relevances|
      invariant gain == TotalGain(d, relevances[..i])
    {
      var rank := i + 1;
      GainOfAppend(d, relevances[..i], relevances[i], 1);
      assert relevances[..i] + [relevances[i]] == relevances[..i + 1];
      gain := gain + (Pow2(relevances[i]) as real - 1.0) / d(rank);
    }
    assert relevances[..|relevances|] == relevances;
  }

  lemma {:induction false} GainFromIsNonNegative(d: Discount, relevances: seq<nat>, rank: nat)
    requires rank >= 1
    ensures GainFrom(d, relevances, rank) >= 0.0
    ensures relevances != [] && relevances[0] > 0 ==> GainFrom(d, relevances, rank) > 0.0
  {
    if relevances != [] {
      GainIsNonNegative(relevances[0]);
      QuotientSign(Gain(relevances[0]), d(rank));
      GainFromIsNonNegative(d, relevances[1..], rank + 1);
    }
  }

  lemma QuotientSign(a: real, b: real)
    requires a >= 0.0 && b > 0.0
    ensures a / b >= 0.0 && (a > 0.0 ==> a / b > 0.0)
  {
  }

  predicate AllZero(relevances: seq<nat>) {
    forall i :: 0 <= i < |relevances| ==> relevances[i] == 0
  }

  lemma {:induction false} ZerosGainNothing(d: Discount, relevances: seq<nat>, rank: nat)
    requires rank >= 1 && AllZero(relevances)
    ensures GainFrom(d, relevances, rank) == 0.0
  {
    if relevances != [] {
      GainIsNonNegative(0);
      ZerosGainNothing(d, relevances[1..], rank + 1);
    }
  }

  lemma {:induction false} GainOfConcat(d: Discount, a: seq<nat>, b: seq<nat>, rank: nat)
    requires rank >= 1
    ensures GainFrom(d, a + b, rank) == GainFrom(d, a, rank) + GainFrom(d, b, rank + |a|)
  {
    if a == [] {
      assert a + b == b;
    } else {
      GainOfConcat(d, a[1..], b, rank + 1);
      assert (a + b)[1..] == a[1..] + b;
    }
  }

  lemma {:induction false} GainOfUpdate(d: Discount, relevances: seq<nat>, p: nat, x: nat, rank: nat)
    requires rank >= 1 && p < |relevances|
    ensures GainFrom(d, relevances[p := x], rank)
            == GainFrom(d, relevances, rank) + (Gain(x) - Gain(relevances[p])) / d(rank + p)
  {
    var after := relevances[p := x];
    if p == 0 {
      assert after[1..] == relevances[1..];
      DifferenceOfQuotients(Gain(x), Gain(relevances[0]), d(rank));
    } else {
      GainOfUpdate(d, relevances[1..], p - 1, x, rank + 1);
      assert after[1..] == relevances[1..][p - 1 := x];
    }
  }

  lemma DifferenceOfQuotients(a: real, b: real, c: real)
    requires c > 0.0
    ensures (a - b) / c == a / c - b / c
  {
  }

  lemma LargerDivisor(a: real, b: real, c: real)
    requires a > 0.0 && 0.0 < b < c
    ensures a / c < a / b
  {
    assert a / b - a / c == a * (c - b) / (b * c);
  }

  // ---- the ideal

  predicate NonIncreasing(s: seq<nat>) {
    forall i, j :: 0 <= i < j < |s| ==> s[i] >= s[j]
  }

  predicate AllPositive(s: seq<nat>) {
    forall i :: 0 <= i < |s| ==> s[i] > 0
  }

  /** Python's `s[:n]` */
  function Top<T>(s: seq<T>, n: nat): (r: seq<T>)
    ensures |r| == if n <= |s| then n else |s|
    ensures r == s[..|r|]
  {
    if n <= |s| then s[..n] else s
  }

  /** Each positive value of `list` is used at most as often as `best` offers it. */
  predicate Fits(list: seq<nat>, best: seq<nat>) {
    forall v: nat :: v > 0 && v in list ==> multiset(list)[v] <= multiset(best)[v]
  }

  /** The list starts with the ideal and has nothing of value behind it. */
  predicate Agrees(list: seq<nat>, ideal: seq<nat>) {
    |ideal| <= |list| && list[..|ideal|] == ideal && AllZero(list[|ideal|..])
  }

  lemma FitsAtMost(list: seq<nat>, best: seq<nat>, v: nat)
    requires Fits(list, best) && v > 0
    ensures multiset(list)[v] <= multiset(best)[v]
  {
    if v !in list { assert v !in multiset(list); }
  }

  lemma HeadIsBest(list: seq<nat>, best: seq<nat>)
    requires Fits(list, best) && NonIncreasing(best) && list != [] && best != []
    ensures list[0] <= best[0]
  {
    if list[0] > 0 {
      assert list[0] in multiset(list);
      FitsAtMost(list, best, list[0]);
      assert list[0] in multiset(best);
      assert list[0] in best;
    }
  }

  lemma NothingFitsNothing(list: seq<nat>)
    requires Fits(list, [])
    ensures AllZero(list)
  {
    forall i | 0 <= i < |list| ensures list[i] == 0 {
      assert list[i] in multiset(list);
      if list[i] > 0 { FitsAtMost(list, [], list[i]); }
    }
  }

  /** Taking the best value away on both sides. */
  lemma FitsBehindBest(list: seq<nat>, best: seq<nat>, rest: seq<nat>)
    requires Fits(list, best) && best != []
    requires multiset(rest) == multiset(list) - multiset{best[0]}
             || (best[0] !in rest && forall v :: multiset(rest)[v] <= multiset(list)[v])
    ensures Fits(rest, best[1..])
  {
    assert best == [best[0]] + best[1..];
    assert multiset(best) == multiset{best[0]} + multiset(best[1..]);
    forall v: nat | v > 0 && v in rest ensures multiset(rest)[v] <= multiset(best[1..])[v] {
      FitsAtMost(list, best, v);
    }
  }

  lemma TopOfTail(best: seq<nat>, n: nat)
    requires best != [] && n > 0
    ensures Top(best, n) != [] && Top(best, n)[0] == best[0] && Top(best, n)[1..] == Top(best[1..], n - 1)
  {
  }

  lemma AgreesCons(list: seq<nat>, ideal: seq<nat>)
    requires list != [] && ideal != [] && list[0] == ideal[0] && Agrees(list[1..], ideal[1..])
    ensures Agrees(list, ideal)
  {
    assert list == [list[0]] + list[1..] && ideal == [ideal[0]] + ideal[1..];
    assert list[|ideal|..] == list[1..][|ideal| - 1..];
  }

  /** Rearrangement: no list that fits the values gains more than the best of them in
      non-increasing order, and only that order gains as much. */
  lemma {:induction false} NothingBeatsTheBest(d: Discount, list: seq<nat>, best: seq<nat>, rank: nat)
    requires rank >= 1 && NonIncreasing(best) && Fits(list, best)
    ensures var ideal := Top(best, |list|);
            && GainFrom(d, list, rank) <= GainFrom(d, ideal, rank)
            && (GainFrom(d, list, rank) == GainFrom(d, ideal, rank) ==> Agrees(list, ideal))
    decreases |list|
  {
    hide Fits, Agrees, Gain;
    if list == [] {
      EmptyAgrees(list);
    } else if best == [] {
      NothingFitsNothing(list);
      ZerosGainNothing(d, list, rank);
      EmptyAgrees(list);
    } else {
      HeadIsBest(list, best);
      TopOfTail(best, |list|);
      if list[0] == best[0] {
        SameHead(d, list, best, rank);
      } else if best[0] in list[1..] {
        BestIsLater(d, list, best, rank);
      } else {
        BestIsMissing(d, list, best, rank);
      }
    }
  }

  lemma EmptyAgrees(list: seq<nat>)
    requires AllZero(list)
    ensures Agrees(list, [])
  {
    assert list[0..] == list;
  }

  lemma {:induction false} SameHead(d: Discount, list: seq<nat>, best: seq<nat>, rank: nat)
    requires rank >= 1 && NonIncreasing(best) && Fits(list, best)
    requires list != [] && best != [] && list[0] == best[0]
    ensures var ideal := Top(best, |list|);
            && GainFrom(d, list, rank) <= GainFrom(d, ideal, rank)
            && (GainFrom(d, list, rank) == GainFrom(d, ideal, rank) ==> Agrees(list, ideal))
    decreases |list|, 0
  {
    hide Fits, Agrees, Gain, Top;
    assert list == [list[0]] + list[1..];
    FitsBehindBest(list, best, list[1..]);
    NothingBeatsTheBest(d, list[1..], best[1..], rank + 1);
    TopOfTail(best, |list|);
    if Agrees(list[1..], Top(best[1..], |list| - 1)) { AgreesCons(list, Top(best, |list|)); }
  }

  lemma {:induction false} BestIsMissing(d: Discount, list: seq<nat>, best: seq<nat>, rank: nat)
    requires rank >= 1 && NonIncreasing(best) && Fits(list, best)
    requires list != [] && best != [] && list[0] < best[0] && best[0] !in list[1..]
    ensures GainFrom(d, list, rank) < GainFrom(d, Top(best, |list|), rank)
    decreases |list|, 0
  {
    hide Fits, Agrees, Gain, Top;
    assert list == [list[0]] + list[1..];
    assert multiset(list) == multiset{list[0]} + multiset(list[1..]);
    FitsBehindBest(list, best, list[1..]);
    NothingBeatsTheBest(d, list[1..], best[1..], rank + 1);
    TopOfTail(best, |list|);
    GainIncreases(list[0], best[0]);
    DifferenceOfQuotients(Gain(best[0]), Gain(list[0]), d(rank));
    QuotientSign(Gain(best[0]) - Gain(list[0]), d(rank));
  }

  /** The best value stands further back: swapping it to the front gains. */
  lemma {:induction false} BestIsLater(d: Discount, list: seq<nat>, best: seq<nat>, rank: nat)
    requires rank >= 1 && NonIncreasing(best) && Fits(list, best)
    requires list != [] && best != [] && list[0] < best[0] && best[0] in list[1..]
    ensures GainFrom(d, list, rank) < GainFrom(d, Top(best, |list|), rank)
    decreases |list|, 0
  {
    hide Fits, Agrees, Gain, Top, GainFrom, NonIncreasing;
    var p := SwapFits(list, best);
    var rest, low, high := list[1..], list[0], best[0];
    var swapped := rest[p := low];
    NonIncreasingTail(best);
    NothingBeatsTheBest(d, swapped, best[1..], rank + 1);
    GainOfUpdate(d, rest, p, low, rank + 1);
    GainIncreases(low, high);
    TopOfTail(best, |list|);
    GainOfHead(d, list, rank);
    GainOfHead(d, Top(best, |list|), rank);
    SwapGains(Gain(low), Gain(high), d(rank), d(rank + 1 + p), GainFrom(d, rest, rank + 1),
              GainFrom(d, Top(best[1..], |rest|), rank + 1));
  }

  lemma NonIncreasingTail(best: seq<nat>)
    requires NonIncreasing(best) && best != []
    ensures NonIncreasing(best[1..])
  {
  }

  lemma GainOfHead(d: Discount, list: seq<nat>, rank: nat)
    requires rank >= 1 && list != []
    ensures GainFrom(d, list, rank) == Gain(list[0]) / d(rank) + GainFrom(d, list[1..], rank + 1)
  {
  }

  lemma SwapFits(list: seq<nat>, best: seq<nat>) returns (p: nat)
    requires Fits(list, best) && list != [] && best != [] && best[0] in list[1..]
    ensures p < |list| - 1 && list[1..][p] == best[0]
    ensures Fits(list[1..][p := list[0]], best[1..])
  {
    hide Fits;
    var rest := list[1..];
    p :| 0 <= p < |rest| && rest[p] == best[0];
    assert list == [list[0]] + rest;
    assert multiset(rest[p := list[0]]) == multiset(rest) - multiset{best[0]} + multiset{list[0]};
    FitsBehindBest(list, best, rest[p := list[0]]);
  }

  lemma SwapGains(low: real, high: real, near: real, far: real, rest: real, ideal: real)
    requires low < high && 0.0 < near < far && rest + (low - high) / far <= ideal
    ensures low / near + rest < high / near + ideal
  {
    DifferenceOfQuotients(high, low, near);
    DifferenceOfQuotients(high, low, far);
    DifferenceOfQuotients(low, high, far);
    LargerDivisor(high - low, near, far);
  }
}
