/**
 * A JavaScript plain object (`Record<string, V>`) or Python dict, modelled as the ordered
 * list of its entries, as `Object.entries` yields them: insertion order, one entry per key.
 */
module Records {
  import opened Util

  type Record<V> = seq<(string, V)>

  function Keys<V>(r: Record<V>): (ks: seq<string>)
    ensures |ks| == |r|
    ensures forall i :: 0 <= i < |r| ==> ks[i] == r[i].0
  {
    if r == [] then [] else [r[0].0] + Keys(r[1..])
  }

  /** Every key occurs once, as in any object built by assignments. */
  predicate DistinctKeys<V>(r: Record<V>) {
    Distinct(Keys(r))
  }

  /** `r[k]`: the value stored under `k`, or `undefined`. */
  function Lookup<V>(r: Record<V>, k: string): (o: Option<V>)
    ensures o.Some? <==> k in Keys(r)
  {
    if r == [] then None
    else if r[0].0 == k then Some(r[0].1)
    else Lookup(r[1..], k)
  }

  /** `r[k] = v`: overwrite the entry for `k` in place, or append a new one. */
  function Assign<V>(r: Record<V>, k: string, v: V): (r': Record<V>)
    ensures Lookup(r', k) == Some(v)
    ensures forall k' :: k' != k ==> Lookup(r', k') == Lookup(r, k')
  {
    if r == [] then [(k, v)]
    else if r[0].0 == k then [(k, v)] + r[1..]
    else [r[0]] + Assign(r[1..], k, v)
  }

  /** Assigning to an existing key keeps the key order; a new key goes last. */
  lemma {:induction false} AssignKeys<V>(r: Record<V>, k: string, v: V)
    ensures Keys(Assign(r, k, v)) == if k in Keys(r) then Keys(r) else Keys(r) + [k]
  {
    if r != [] {
      var tail := Assign(r[1..], k, v);
      if r[0].0 == k {
        assert Assign(r, k, v)[1..] == r[1..];
      } else {
        AssignKeys(r[1..], k, v);
        assert Assign(r, k, v) == [r[0]] + tail;
        assert Keys(Assign(r, k, v)) == [r[0].0] + Keys(tail);
      }
    }
  }

  lemma AssignKeepsDistinct<V>(r: Record<V>, k: string, v: V)
    requires DistinctKeys(r)
    ensures DistinctKeys(Assign(r, k, v))
  {
    AssignKeys(r, k, v);
  }

  /** `Object.fromEntries(ks.map((a) => [a, v]))`: the entries assigned one after another. */
  function FromKeys<V>(ks: seq<string>, v: V): Record<V> {
    if ks == [] then [] else Assign(FromKeys(ks[..|ks| - 1], v), ks[|ks| - 1], v)
  }

  /** Every key of `ks` is mapped to `v`, once, in the order of its first occurrence. */
  lemma {:induction false} FromKeysLookup<V>(ks: seq<string>, v: V)
    ensures DistinctKeys(FromKeys(ks, v))
    ensures forall k :: Lookup(FromKeys(ks, v), k) == if k in ks then Some(v) else None
    ensures Distinct(ks) ==> Keys(FromKeys(ks, v)) == ks
  {
    if ks != [] {
      var init := ks[..|ks| - 1];
      var last := ks[|ks| - 1];
      var prefix := FromKeys(init, v);
      assert ks == init + [last];
      FromKeysLookup(init, v);
      AssignKeys(prefix, last, v);
      AssignKeepsDistinct(prefix, last, v);
    }
  }

  /** `r[k] ?? 0`. */
  function GetOr0(r: Record<real>, k: string): real {
    Lookup(r, k).GetOr(0.0)
  }

  // Sums over exact reals do not depend on the order of the terms; the ones below add head first.

  /** Sum of all values. */
  function ValueSum(r: Record<real>): real {
    if r == [] then 0.0 else r[0].1 + ValueSum(r[1..])
  }

  /** Sum of the values whose key is not `k`: `entries.filter(([x]) => x !== k).reduce(+, 0)`. */
  function SumExcept(r: Record<real>, k: string): real {
    if r == [] then 0.0
    else (if r[0].0 != k then r[0].1 else 0.0) + SumExcept(r[1..], k)
  }

  /** Sum of `r[x] ?? 0` over the keys `xs`. */
  function SumLookups(xs: seq<string>, r: Record<real>): real {
    if xs == [] then 0.0 else GetOr0(r, xs[0]) + SumLookups(xs[1..], r)
  }

  /** Sum of `r[x] ?? 0` over the keys `xs` other than `k`. */
  function SumLookupsExcept(xs: seq<string>, r: Record<real>, k: string): real {
    if xs == [] then 0.0
    else (if xs[0] != k then GetOr0(r, xs[0]) else 0.0) + SumLookupsExcept(xs[1..], r, k)
  }

  /** Sum of the values whose key is not `k` but is in `keep`. */
  function SumExceptIn(r: Record<real>, k: string, keep: set<string>): real {
    if r == [] then 0.0
    else (if r[0].0 != k && r[0].0 in keep then r[0].1 else 0.0) + SumExceptIn(r[1..], k, keep)
  }

  lemma {:induction false} SumExceptInAdd(r: Record<real>, k: string, keep: set<string>, x: string)
    requires DistinctKeys(r)
    requires x !in keep
    ensures SumExceptIn(r, k, keep + {x}) == SumExceptIn(r, k, keep) + (if x != k then GetOr0(r, x) else 0.0)
  {
    if r != [] {
      SumExceptInAdd(r[1..], k, keep, x);
      if r[0].0 == x {
        assert x !in Keys(r[1..]);
      }
    }
  }

  lemma {:induction false} SumExceptInAll(r: Record<real>, k: string, keep: set<string>)
    requires forall x :: x in Keys(r) ==> x in keep
    ensures SumExceptIn(r, k, keep) == SumExcept(r, k)
  {
    if r != [] {
      SumExceptInAll(r[1..], k, keep);
    }
  }

  /**
   * Summing `r[x] ?? 0` over a duplicate-free list of keys that covers every key of `r`
   * gives the same total as summing the entries of `r` directly.
   */
  lemma {:induction false} SumLookupsExceptIsSumExcept(xs: seq<string>, r: Record<real>, k: string)
    requires Distinct(xs) && DistinctKeys(r)
    requires forall x :: x in Keys(r) ==> x in xs
    ensures SumLookupsExcept(xs, r, k) == SumExcept(r, k)
  {
    SumLookupsExceptIn(xs, r, k);
    SumExceptInAll(r, k, set x | x in xs);
  }

  lemma {:induction false} SumLookupsExceptIn(xs: seq<string>, r: Record<real>, k: string)
    requires Distinct(xs) && DistinctKeys(r)
    ensures SumLookupsExcept(xs, r, k) == SumExceptIn(r, k, set x | x in xs)
  {
    if xs == [] {
      assert (set x | x in xs) == {};
      SumExceptInEmpty(r, k);
    } else {
      var rest := set x | x in xs[1..];
      assert (set x | x in xs) == rest + {xs[0]};
      assert xs[0] !in rest;
      SumLookupsExceptIn(xs[1..], r, k);
      SumExceptInAdd(r, k, rest, xs[0]);
    }
  }

  lemma {:induction false} SumExceptInEmpty(r: Record<real>, k: string)
    ensures SumExceptIn(r, k, {}) == 0.0
  {
    if r != [] {
      SumExceptInEmpty(r[1..], k);
    }
  }

  lemma {:induction false} SumLookupsCongruent(xs: seq<string>, r: Record<real>, r': Record<real>)
    requires forall x :: x in xs ==> GetOr0(r, x) == GetOr0(r', x)
    ensures SumLookups(xs, r) == SumLookups(xs, r')
  {
    if xs != [] {
      SumLookupsCongruent(xs[1..], r, r');
    }
  }

  /** With one entry per key, the values sum to the sum of the lookups of the keys. */
  lemma {:induction false} ValueSumByKeys(r: Record<real>)
    requires DistinctKeys(r)
    ensures ValueSum(r) == SumLookups(Keys(r), r)
  {
    if r != [] {
      var tail := r[1..];
      assert r[0].0 !in Keys(tail);
      ValueSumByKeys(tail);
      forall x | x in Keys(tail)
        ensures GetOr0(r, x) == GetOr0(tail, x)
      {
      }
      SumLookupsCongruent(Keys(tail), r, tail);
    }
  }

  /** Summing the same looked-up value over `n` keys gives `n` times it. */
  lemma {:induction false} SumLookupsConstant(xs: seq<string>, r: Record<real>, v: real)
    requires forall i :: 0 <= i < |xs| ==> GetOr0(r, xs[i]) == v
    ensures SumLookups(xs, r) == Times(|xs|, v)
  {
    if xs != [] {
      var tail := xs[1..];
      assert forall i :: 0 <= i < |tail| ==> tail[i] == xs[i + 1];
      SumLookupsConstant(tail, r, v);
    }
  }
}
