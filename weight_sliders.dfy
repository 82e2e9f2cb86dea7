/**
 * The weight sliders of the configuration panel: moving one asset's slider sets that asset's
 * weight and redistributes the rest of the unit mass over the other selected assets.
 */
module WeightSliders {
  import opened Util
  import opened Records

  /** `Math.min(pct, 100) / 100`: the slider percentage as a fraction, capped at 1 (negatives pass through). */
  function Fraction(pct: real): (f: real)
    ensures f <= 1.0
    ensures pct <= 100.0 ==> f * 100.0 == pct
    ensures pct >= 100.0 ==> f == 1.0
  {
    (if pct < 100.0 then pct else 100.0) / 100.0
  }

  /** `weights` summed over every entry whose key is not the edited asset. */
  function OthersTotal(weights: Record<real>, asset: string): real {
    SumExcept(weights, asset)
  }

  /** `remaining / othersTotal`: the factor applied to every other weight when they weigh something. */
  function Scale(weights: Record<real>, asset: string, pct: real): real
    requires OthersTotal(weights, asset) != 0.0
  {
    (1.0 - Fraction(pct)) / OthersTotal(weights, asset)
  }

  /** `remaining / (assets.length - 1)`, or 0 when the edited asset is the only one. */
  function Share(assets: seq<string>, pct: real): real {
    if |assets| - 1 > 0 then (1.0 - Fraction(pct)) / (|assets| - 1) as real else 0.0
  }

  /** The weight one pass of the redistribution loop gives asset `a`. */
  function NewWeight(assets: seq<string>, weights: Record<real>, asset: string, pct: real, a: string): real {
    if a == asset then Fraction(pct)
    else if OthersTotal(weights, asset) > 0.0 then GetOr0(weights, a) * Scale(weights, asset, pct)
    else Share(assets, pct)
  }

  /**
   * The conditions under which the redistribution keeps the weights on the simplex: the
   * selection has no duplicates and at least two assets, the edited asset is one of them, and
   * the current weights have no key outside the selection.
   */
  predicate Rebalanceable(assets: seq<string>, weights: Record<real>, asset: string) {
    && Distinct(assets)
    && |assets| >= 2
    && asset in assets
    && DistinctKeys(weights)
    && forall k :: k in Keys(weights) ==> k in assets
  }

  /**
   * `handleChange`: a fresh record with one entry per selected asset, the edited one set to the
   * capped fraction and every other one scaled (or split equally when the others weigh nothing).
   */
  method HandleChange(assets: seq<string>, weights: Record<real>, asset: string, pct: real)
    returns (updated: Record<real>)
    ensures DistinctKeys(updated)
    ensures forall a :: a in Keys(updated) <==> a in assets
    ensures Distinct(assets) ==> Keys(updated) == assets
    ensures forall a :: a in assets ==> Lookup(updated, a) == Some(NewWeight(assets, weights, asset, pct, a))
    ensures asset in assets ==> Lookup(updated, asset) == Some(Fraction(pct))
    ensures Rebalanceable(assets, weights, asset) ==> ValueSum(updated) == 1.0
  {
    var fraction := Fraction(pct);
    var remaining := 1.0 - fraction;
    var othersTotal := OthersTotal(weights, asset);
    updated := [];
    for i := 0 to |assets|
      invariant DistinctKeys(updated)
      invariant forall a :: a in Keys(updated) <==> a in assets[..i]
      invariant Distinct(assets) ==> Keys(updated) == assets[..i]
      invariant forall a :: a in assets[..i] ==> Lookup(updated, a) == Some(NewWeight(assets, weights, asset, pct, a))
    {
      var a := assets[i];
      var w: real;
      if a == asset {
        w := fraction;
      } else if othersTotal > 0.0 {
        w := GetOr0(weights, a) * (remaining / othersTotal);
      } else {
        var otherCount := |assets| - 1;
        w := if otherCount > 0 then remaining / otherCount as real else 0.0;
      }
      assert assets[..i + 1] == assets[..i] + [a];
      assert Distinct(assets) ==> a !in assets[..i];
      AssignStep(updated, assets[..i], a, w, assets, weights, asset, pct);
      updated := Assign(updated, a, w);
    }
    assert assets[..|assets|] == assets;
    if Rebalanceable(assets, weights, asset) {
      UpdatedSumsToOne(assets, weights, asset, pct, updated);
    }
  }

  /** A record holding exactly the new weights of a rebalanceable selection sums to 1. */
  lemma UpdatedSumsToOne(assets: seq<string>, weights: Record<real>, asset: string, pct: real, updated: Record<real>)
    requires Rebalanceable(assets, weights, asset)
    requires DistinctKeys(updated) && Keys(updated) == assets
    requires forall a :: a in assets ==> Lookup(updated, a) == Some(NewWeight(assets, weights, asset, pct, a))
    ensures ValueSum(updated) == 1.0
  {
    ValueSumByKeys(updated);
    LookupsMatchNewSum(assets, updated, weights, asset, pct, assets);
    SumToOne(assets, weights, asset, pct);
  }

  /** One pass of the loop: the record built for `done` extended by the new weight of `a`. */
  lemma AssignStep(r: Record<real>, done: seq<string>, a: string, w: real,
                   assets: seq<string>, weights: Record<real>, asset: string, pct: real)
    requires DistinctKeys(r)
    requires forall x :: x in Keys(r) <==> x in done
    requires forall x :: x in done ==> Lookup(r, x) == Some(NewWeight(assets, weights, asset, pct, x))
    requires w == NewWeight(assets, weights, asset, pct, a)
    ensures DistinctKeys(Assign(r, a, w))
    ensures forall x :: x in Keys(Assign(r, a, w)) <==> x in done + [a]
    ensures Keys(r) == done && a !in done ==> Keys(Assign(r, a, w)) == done + [a]
    ensures forall x :: x in done + [a] ==> Lookup(Assign(r, a, w), x) == Some(NewWeight(assets, weights, asset, pct, x))
  {
    AssignKeys(r, a, w);
    AssignKeepsDistinct(r, a, w);
  }

  /** Sum of the new weights over the keys `xs`. */
  function NewSum(assets: seq<string>, weights: Record<real>, asset: string, pct: real, xs: seq<string>): real {
    if xs == [] then 0.0
    else NewWeight(assets, weights, asset, pct, xs[0]) + NewSum(assets, weights, asset, pct, xs[1..])
  }

  /** Number of elements of `xs` other than `x`. */
  function CountOthers(xs: seq<string>, x: string): nat {
    if xs == [] then 0 else (if xs[0] != x then 1 else 0) + CountOthers(xs[1..], x)
  }

  lemma {:induction false} CountOthersDistinct(xs: seq<string>, x: string)
    requires Distinct(xs) && x in xs
    ensures CountOthers(xs, x) == |xs| - 1
  {
    if xs[0] != x {
      CountOthersDistinct(xs[1..], x);
    } else {
      CountOthersNone(xs[1..], x);
    }
  }

  lemma {:induction false} CountOthersNone(xs: seq<string>, x: string)
    requires x !in xs
    ensures CountOthers(xs, x) == |xs|
  {
    if xs != [] {
      CountOthersNone(xs[1..], x);
    }
  }

  /** One step of factoring `c` out of a sum: `h * c + t * c == (h + t) * c`, on named summands. */
  lemma FactorStep(h: real, t: real, c: real, scaledHead: real, scaledTail: real)
    requires scaledHead == h * c && scaledTail == t * c
    ensures scaledHead + scaledTail == (h + t) * c
  {
  }

  /** Sum of `(weights[x] ?? 0) * c` over the keys `xs` other than `asset`. */
  function ScaledSum(xs: seq<string>, weights: Record<real>, asset: string, c: real): real {
    if xs == [] then 0.0
    else (if xs[0] != asset then GetOr0(weights, xs[0]) * c else 0.0) + ScaledSum(xs[1..], weights, asset, c)
  }

  /** `c` factors out of the scaled sum. */
  lemma ScaledSumFactor(xs: seq<string>, weights: Record<real>, asset: string, c: real)
    ensures ScaledSum(xs, weights, asset, c) == SumLookupsExcept(xs, weights, asset) * c
  {
    var f := x => GetOr0(weights, x);
    SumOfLookups(xs, weights, asset, c, f);
    FactorOut(xs, f, asset, c);
  }

  // The factoring is done over an arbitrary term function `f`, away from the record lookups.

  function SumOf(xs: seq<string>, f: string -> real, k: string): real {
    if xs == [] then 0.0 else (if xs[0] != k then f(xs[0]) else 0.0) + SumOf(xs[1..], f, k)
  }

  function ScaledSumOf(xs: seq<string>, f: string -> real, k: string, c: real): real {
    if xs == [] then 0.0 else (if xs[0] != k then f(xs[0]) * c else 0.0) + ScaledSumOf(xs[1..], f, k, c)
  }

  lemma {:induction false} SumOfLookups(xs: seq<string>, weights: Record<real>, k: string, c: real, f: string -> real)
    requires forall x :: f(x) == GetOr0(weights, x)
    ensures SumLookupsExcept(xs, weights, k) == SumOf(xs, f, k)
    ensures ScaledSum(xs, weights, k, c) == ScaledSumOf(xs, f, k, c)
  {
    if xs != [] {
      SumOfLookups(xs[1..], weights, k, c, f);
    }
  }

  lemma {:induction false} FactorOut(xs: seq<string>, f: string -> real, k: string, c: real)
    ensures ScaledSumOf(xs, f, k, c) == SumOf(xs, f, k) * c
  {
    if xs != [] {
      FactorOut(xs[1..], f, k, c);
      var h := if xs[0] != k then f(xs[0]) else 0.0;
      var scaledHead := if xs[0] != k then f(xs[0]) * c else 0.0;
      FactorStep(h, SumOf(xs[1..], f, k), c, scaledHead, ScaledSumOf(xs[1..], f, k, c));
    }
  }

  /** With positive `othersTotal`, the new weights over `xs` are the fraction plus the scaled old weights. */
  lemma {:induction false} NewSumScaled(assets: seq<string>, weights: Record<real>, asset: string, pct: real, xs: seq<string>)
    requires Distinct(xs)
    requires OthersTotal(weights, asset) > 0.0
    ensures NewSum(assets, weights, asset, pct, xs)
         == (if asset in xs then Fraction(pct) else 0.0) + ScaledSum(xs, weights, asset, Scale(weights, asset, pct))
  {
    if xs != [] {
      var tail := xs[1..];
      var c := Scale(weights, asset, pct);
      NewSumScaled(assets, weights, asset, pct, tail);
      assert NewSum(assets, weights, asset, pct, xs)
          == NewWeight(assets, weights, asset, pct, xs[0]) + NewSum(assets, weights, asset, pct, tail);
      if xs[0] == asset {
        assert asset !in tail;
        assert ScaledSum(xs, weights, asset, c) == ScaledSum(tail, weights, asset, c);
      } else {
        assert asset in xs <==> asset in tail;
        assert NewWeight(assets, weights, asset, pct, xs[0]) == GetOr0(weights, xs[0]) * c;
        assert ScaledSum(xs, weights, asset, c) == GetOr0(weights, xs[0]) * c + ScaledSum(tail, weights, asset, c);
      }
    }
  }

  /** Otherwise they are the fraction plus one equal share per other asset. */
  lemma {:induction false} NewSumShared(assets: seq<string>, weights: Record<real>, asset: string, pct: real, xs: seq<string>)
    requires Distinct(xs)
    requires OthersTotal(weights, asset) <= 0.0
    ensures NewSum(assets, weights, asset, pct, xs)
         == (if asset in xs then Fraction(pct) else 0.0) + Times(CountOthers(xs, asset), Share(assets, pct))
  {
    if xs != [] {
      var x := xs[0];
      var tail := xs[1..];
      NewSumShared(assets, weights, asset, pct, tail);
      assert NewSum(assets, weights, asset, pct, xs) == NewWeight(assets, weights, asset, pct, x) + NewSum(assets, weights, asset, pct, tail);
      if x == asset {
        assert asset !in tail;
      } else {
        assert asset in xs <==> asset in tail;
      }
    }
  }

  /** Under `Rebalanceable`, the new weights of the selected assets sum to exactly 1. */
  lemma SumToOne(assets: seq<string>, weights: Record<real>, asset: string, pct: real)
    requires Rebalanceable(assets, weights, asset)
    ensures NewSum(assets, weights, asset, pct, assets) == 1.0
  {
    var remaining := 1.0 - Fraction(pct);
    var othersTotal := OthersTotal(weights, asset);
    if othersTotal > 0.0 {
      NewSumScaled(assets, weights, asset, pct, assets);
      ScaledSumFactor(assets, weights, asset, Scale(weights, asset, pct));
      SumLookupsExceptIsSumExcept(assets, weights, asset);
      assert SumLookupsExcept(assets, weights, asset) == othersTotal;
      QuotientCancels(othersTotal, remaining);
    } else {
      NewSumShared(assets, weights, asset, pct, assets);
      CountOthersDistinct(assets, asset);
      TimesQuotient(|assets| - 1, remaining);
    }
  }

  lemma {:induction false} LookupsMatchNewSum(assets: seq<string>, r: Record<real>, weights: Record<real>, asset: string, pct: real, xs: seq<string>)
    requires forall a :: a in xs ==> Lookup(r, a) == Some(NewWeight(assets, weights, asset, pct, a))
    ensures SumLookups(xs, r) == NewSum(assets, weights, asset, pct, xs)
  {
    if xs != [] {
      assert xs[0] in xs;
      LookupsMatchNewSum(assets, r, weights, asset, pct, xs[1..]);
    }
  }

  /** Two quantities scaled by the same factor keep their ratio: `(x * c) * y == (y * c) * x`. */
  lemma Proportion(x: real, y: real, c: real, scaledX: real, scaledY: real)
    requires scaledX == x * c && scaledY == y * c
    ensures scaledX * y == scaledY * x
  {
  }

  /**
   * When the other assets had positive total weight, every untouched asset is scaled by the same
   * factor, so the ratio between any two of them is preserved.
   */
  lemma RatiosPreserved(assets: seq<string>, weights: Record<real>, asset: string, pct: real, a: string, b: string)
    requires a != asset && b != asset
    requires OthersTotal(weights, asset) > 0.0
    ensures NewWeight(assets, weights, asset, pct, a) * GetOr0(weights, b)
         == NewWeight(assets, weights, asset, pct, b) * GetOr0(weights, a)
  {
    ScaledWeight(assets, weights, asset, pct, a);
    ScaledWeight(assets, weights, asset, pct, b);
    Proportion(GetOr0(weights, a), GetOr0(weights, b), Scale(weights, asset, pct),
               NewWeight(assets, weights, asset, pct, a), NewWeight(assets, weights, asset, pct, b));
  }

  lemma ScaledWeight(assets: seq<string>, weights: Record<real>, asset: string, pct: real, a: string)
    requires a != asset
    requires OthersTotal(weights, asset) > 0.0
    ensures NewWeight(assets, weights, asset, pct, a) == GetOr0(weights, a) * Scale(weights, asset, pct)
  {
  }

  /**
   * When the other weights total nothing, every other asset receives an equal share of the
   * remaining mass (none when the edited asset is alone).
   */
  lemma EqualSplitWhenOthersZero(assets: seq<string>, weights: Record<real>, asset: string, pct: real, a: string)
    requires a != asset
    requires OthersTotal(weights, asset) <= 0.0
    ensures |assets| >= 2 ==> NewWeight(assets, weights, asset, pct, a) * (|assets| - 1) as real == 1.0 - Fraction(pct)
    ensures |assets| < 2 ==> NewWeight(assets, weights, asset, pct, a) == 0.0
  {
    if |assets| >= 2 {
      QuotientCancels((|assets| - 1) as real, 1.0 - Fraction(pct));
    }
  }

  /**
   * `othersTotal` also counts keys that are no longer selected: with a stale entry for "C" the
   * redistributed weights of {"A", "B"} sum to 2/3 instead of 1.
   */
  lemma StaleKeyBreaksSum()
    ensures var weights := [("A", 0.5), ("B", 0.5), ("C", 1.0)];
            NewSum(["A", "B"], weights, "A", 50.0, ["A", "B"]) == 2.0 / 3.0
  {
    var weights := [("A", 0.5), ("B", 0.5), ("C", 1.0)];
    assert OthersTotal(weights, "A") == 1.5;
    assert GetOr0(weights, "B") == 0.5;
  }

  /** `ASSET_ORDER.indexOf(a)`: the position of `a` in the metadata key order, or -1. */
  function Position(order: seq<string>, a: string): (p: int)
    ensures -1 <= p < |order|
    ensures p == -1 <==> a !in order
  {
    if order == [] then -1
    else if order[0] == a then 0
    else
      var p := Position(order[1..], a);
      if p == -1 then -1 else p + 1
  }

  /** A known symbol's position is its first occurrence in the order. */
  lemma {:induction false} PositionFirst(order: seq<string>, a: string)
    requires a in order
    ensures order[Position(order, a)] == a
    ensures a !in order[..Position(order, a)]
  {
    if order[0] != a {
      PositionFirst(order[1..], a);
      assert order[..Position(order, a)] == [order[0]] + order[1..][..Position(order[1..], a)];
    }
  }

  /** Sorted by metadata position: `(a, b) => indexOf(a) - indexOf(b)` never positive along it. */
  predicate SortedByPosition(s: seq<string>, order: seq<string>) {
    forall i, j :: 0 <= i < j < |s| ==> Position(order, s[i]) <= Position(order, s[j])
  }

  lemma AppendSorted(s: seq<string>, last: string, order: seq<string>)
    requires SortedByPosition(s, order)
    requires forall i :: 0 <= i < |s| ==> Position(order, s[i]) <= Position(order, last)
    ensures SortedByPosition(s + [last], order)
  {
    forall i, j | 0 <= i < j < |s| + 1
      ensures Position(order, (s + [last])[i]) <= Position(order, (s + [last])[j])
    {
      if j < |s| {
        assert (s + [last])[j] == s[j];
      }
    }
  }

  /** Place `x` after every element whose position does not exceed its own (stable insertion). */
  function Insert(s: seq<string>, x: string, order: seq<string>): seq<string> {
    if s == [] then [x]
    else if Position(order, s[|s| - 1]) <= Position(order, x) then s + [x]
    else Insert(s[..|s| - 1], x, order) + [s[|s| - 1]]
  }

  /** Inserting adds exactly one occurrence of `x`. */
  lemma {:induction false} InsertCounts(s: seq<string>, x: string, order: seq<string>)
    ensures multiset(Insert(s, x, order)) == multiset(s) + multiset{x}
  {
    if s != [] && Position(order, s[|s| - 1]) > Position(order, x) {
      var init := s[..|s| - 1];
      assert s == init + [s[|s| - 1]];
      InsertCounts(init, x, order);
    }
  }

  lemma {:induction false} InsertMembers(s: seq<string>, x: string, order: seq<string>)
    ensures forall y :: y in Insert(s, x, order) ==> y in s || y == x
  {
    InsertCounts(s, x, order);
    forall y | y in Insert(s, x, order)
      ensures y in s || y == x
    {
      assert y in multiset(Insert(s, x, order));
    }
  }

  /** Inserting into a list sorted by position keeps it sorted. */
  lemma {:induction false} InsertSorted(s: seq<string>, x: string, order: seq<string>)
    requires SortedByPosition(s, order)
    ensures SortedByPosition(Insert(s, x, order), order)
  {
    if s != [] && Position(order, s[|s| - 1]) > Position(order, x) {
      var last := s[|s| - 1];
      var init := s[..|s| - 1];
      InsertSorted(init, x, order);
      InsertMembers(init, x, order);
      var r' := Insert(init, x, order);
      assert Insert(s, x, order) == r' + [last];
      forall i | 0 <= i < |r'|
        ensures Position(order, r'[i]) <= Position(order, last)
      {
        assert r'[i] in r';
        if r'[i] != x {
          var k :| 0 <= k < |init| && init[k] == r'[i];
          assert s[k] == init[k];
        }
      }
      AppendSorted(r', last, order);
    }
  }

  /** `[...assets].sort(...)`: the display order of the sliders. */
  function Sorted(assets: seq<string>, order: seq<string>): seq<string> {
    if assets == [] then []
    else Insert(Sorted(assets[..|assets| - 1], order), assets[|assets| - 1], order)
  }

  /** The display order is sorted by metadata position and is a permutation of the selection. */
  lemma {:induction false} SortedPermutes(assets: seq<string>, order: seq<string>)
    ensures SortedByPosition(Sorted(assets, order), order)
    ensures multiset(Sorted(assets, order)) == multiset(assets)
  {
    if assets != [] {
      var init := assets[..|assets| - 1];
      assert assets == init + [assets[|assets| - 1]];
      SortedPermutes(init, order);
      InsertSorted(Sorted(init, order), assets[|assets| - 1], order);
      InsertCounts(Sorted(init, order), assets[|assets| - 1], order);
    }
  }

  /** Symbols missing from the metadata are displayed before every known one. */
  lemma UnknownFirst(assets: seq<string>, order: seq<string>, i: nat, j: nat)
    requires i < |Sorted(assets, order)| && j < |Sorted(assets, order)|
    requires Sorted(assets, order)[i] !in order && Sorted(assets, order)[j] in order
    ensures i < j
  {
    SortedPermutes(assets, order);
  }

  /** `weights[asset] ?? 1 / assets.length`: the weight a slider shows. */
  function DisplayWeight(weights: Record<real>, assets: seq<string>, asset: string): real
    requires asset in assets
  {
    Lookup(weights, asset).GetOr(1.0 / |assets| as real)
  }

  /** Sum of the displayed weights over `xs`. */
  function DisplaySum(weights: Record<real>, assets: seq<string>, xs: seq<string>): real
    requires forall x :: x in xs ==> x in assets
  {
    if xs == [] then 0.0 else DisplayWeight(weights, assets, xs[0]) + DisplaySum(weights, assets, xs[1..])
  }

  /** With no stored weights every slider shows the same share `1 / assets.length`. */
  lemma {:induction false} EmptyWeightsDisplayEqualSplit(assets: seq<string>, xs: seq<string>)
    requires |assets| > 0
    requires forall x :: x in xs ==> x in assets
    ensures DisplaySum([], assets, xs) == Times(|xs|, 1.0 / |assets| as real)
  {
    if xs != [] {
      assert xs[0] in xs;
      EmptyWeightsDisplayEqualSplit(assets, xs[1..]);
    }
  }

  lemma EqualSplitSumsToOne(assets: seq<string>)
    requires |assets| > 0
    ensures DisplaySum([], assets, assets) == 1.0
  {
    EmptyWeightsDisplayEqualSplit(assets, assets);
    TimesQuotient(|assets|, 1.0);
  }
}
