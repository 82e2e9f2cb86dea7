/** Small value types and sequence helpers shared by the rest of the model. */
module Util {

  /** A nullable value: JavaScript `undefined`/`null`, Python `None`. */
  datatype Option<+T> = None | Some(value: T) {
    function GetOr(default: T): T {
      match this
      case Some(v) => v
      case None => default
    }
  }

  /** No element occurs twice. */
  predicate Distinct<T(==)>(s: seq<T>) {
    forall i, j :: 0 <= i < j < |s| ==> s[i] != s[j]
  }

  /** Sum of a sequence of numbers, added left to right as `reduce((a, b) => a + b, 0)` does. */
  function Sum(s: seq<real>): real {
    if s == [] then 0.0 else Sum(s[..|s| - 1]) + s[|s| - 1]
  }

  lemma {:induction false} SumAppend(s: seq<real>, t: seq<real>)
    ensures Sum(s + t) == Sum(s) + Sum(t)
  {
    if t == [] {
      assert s + t == s;
    } else {
      assert (s + t)[..|s + t| - 1] == s + t[..|t| - 1];
      SumAppend(s, t[..|t| - 1]);
    }
  }

  lemma {:induction false} SumNonNegative(s: seq<real>)
    requires forall i :: 0 <= i < |s| ==> s[i] >= 0.0
    ensures Sum(s) >= 0.0
    ensures Sum(s) == 0.0 <==> forall i :: 0 <= i < |s| ==> s[i] == 0.0
  {
    if s != [] {
      SumNonNegative(s[..|s| - 1]);
    }
  }

  lemma {:induction false} SumConstant(s: seq<real>, c: real)
    requires forall i :: 0 <= i < |s| ==> s[i] == c
    ensures Sum(s) == |s| as real * c
  {
    if s != [] {
      SumConstant(s[..|s| - 1], c);
    }
  }

  /** `s.filter((x) => x !== v)`. */
  function Remove<T(==,!new)>(s: seq<T>, v: T): (r: seq<T>)
    ensures forall x :: x in r <==> x in s && x != v
    ensures |r| <= |s|
    ensures v in s ==> |r| < |s|
    ensures Distinct(s) ==> Distinct(r)
  {
    if s == [] then []
    else if s[0] == v then Remove(s[1..], v)
    else
      var rest := Remove(s[1..], v);
      assert Distinct(s) ==> s[0] !in s[1..];
      [s[0]] + rest
  }

  /** `s.filter(keep)`: the elements that pass, in their original order. */
  function Filter<T(==,!new)>(s: seq<T>, keep: T -> bool): (r: seq<T>)
    ensures forall x :: x in r <==> x in s && keep(x)
    ensures |r| <= |s|
    ensures Subsequence(r, s)
  {
    if s == [] then []
    else if keep(s[0]) then [s[0]] + Filter(s[1..], keep)
    else Filter(s[1..], keep)
  }

  /** `r` is `s` with some elements deleted and the rest left in order. */
  predicate Subsequence<T(==)>(r: seq<T>, s: seq<T>)
    decreases |s|
  {
    if r == [] then true
    else if s == [] then false
    else (r[0] == s[0] && Subsequence(r[1..], s[1..])) || Subsequence(r, s[1..])
  }

  /** `s.filter((x) => x !== null)`: the present values, in order. */
  function Somes<T(==,!new)>(s: seq<Option<T>>): (r: seq<T>)
    ensures |r| <= |s|
    ensures forall x :: x in r <==> Some(x) in s
  {
    if s == [] then []
    else
      assert forall x :: Some(x) in s <==> s[0] == Some(x) || Some(x) in s[1..];
      (if s[0].Some? then [s[0].value] else []) + Somes(s[1..])
  }

  /** Collecting the values of a concatenation collects each part in turn. */
  lemma {:induction false} SomesAppend<T(!new)>(s: seq<Option<T>>, t: seq<Option<T>>)
    ensures Somes(s + t) == Somes(s) + Somes(t)
  {
    if s == [] {
      assert s + t == t;
    } else {
      assert (s + t)[0] == s[0];
      assert (s + t)[1..] == s[1..] + t;
      SomesAppend(s[1..], t);
    }
  }

  /** `s.map(f)`. */
  function Map<T, U>(s: seq<T>, f: T -> U): (r: seq<U>)
    ensures |r| == |s|
    ensures forall i :: 0 <= i < |s| ==> r[i] == f(s[i])
  {
    seq(|s|, i requires 0 <= i < |s| => f(s[i]))
  }

  /** `parts.join(sep)`. */
  function Join(parts: seq<string>, sep: string): string {
    if parts == [] then ""
    else if |parts| == 1 then parts[0]
    else parts[0] + sep + Join(parts[1..], sep)
  }

  /** `s.toUpperCase()` on ASCII letters; every other character is kept. */
  function Upper(s: string): (r: string)
    ensures |r| == |s|
    ensures forall i :: 0 <= i < |s| ==> r[i] == UpperChar(s[i])
  {
    seq(|s|, i requires 0 <= i < |s| => UpperChar(s[i]))
  }

  function UpperChar(c: char): char {
    if 'a' <= c <= 'z' then (c as int - 32) as char else c
  }

  /** The arithmetic mean: `xs.reduce((a, b) => a + b, 0) / xs.length`, or `np.mean`. */
  function Mean(xs: seq<real>): real
    requires |xs| > 0
  {
    Sum(xs) / |xs| as real
  }

  /**
   * What a `sqrt` parameter must satisfy: the non-negative square root, positive on positive
   * numbers. `sqrt(0) == 0` follows from the rest and is stated so that proofs need not derive
   * it from products.
   */
  ghost predicate IsSqrt(sqrt: real -> real) {
    && sqrt(0.0) == 0.0
    && forall x: real {:trigger sqrt(x)} :: x >= 0.0 ==> sqrt(x) >= 0.0 && sqrt(x) * sqrt(x) == x && (x > 0.0 ==> sqrt(x) > 0.0)
  }

  function Abs(x: real): (r: real)
    ensures r >= 0.0 && (r == x || r == -x)
  {
    if x < 0.0 then -x else x
  }

  function MinInt(a: int, b: int): int {
    if a < b then a else b
  }

  /** `(n + 1) * v == n * v + v`, kept apart so that callers do not reason about products. */
  lemma MultiplySucc(n: nat, v: real)
    ensures (n + 1) as real * v == n as real * v + v
  {
  }

  /** `v` added `n` times: the product `n * v` written so that sums over lists stay linear. */
  function Times(n: nat, v: real): real {
    if n == 0 then 0.0 else Times(n - 1, v) + v
  }

  lemma {:induction false} TimesProduct(n: nat, v: real)
    ensures Times(n, v) == n as real * v
  {
    if n > 0 {
      TimesProduct(n - 1, v);
      MultiplySucc(n - 1, v);
    }
  }

  lemma QuotientCancels(x: real, y: real)
    requires x != 0.0
    ensures x * (y / x) == y
  {
  }

  /** `n` equal shares of `y / n` add back up to `y`. */
  lemma TimesQuotient(n: nat, y: real)
    requires n > 0
    ensures Times(n, y / n as real) == y
  {
    TimesProduct(n, y / n as real);
    QuotientCancels(n as real, y);
  }

  /** `prev.includes(x) ? prev.filter((t) => t !== x) : [...prev, x]`: membership toggle on a list. */
  function ToggleMember<T(==,!new)>(prev: seq<T>, x: T): (r: seq<T>)
    ensures forall y :: y != x ==> (y in r <==> y in prev)
    ensures x in r <==> x !in prev
    ensures x !in prev ==> r == prev + [x]
    ensures Distinct(prev) ==> Distinct(r)
  {
    if x in prev then Remove(prev, x)
    else
      assert Distinct(prev) ==> forall i :: 0 <= i < |prev| ==> prev[i] != x;
      prev + [x]
  }

  /** Removing an element that is not there changes nothing. */
  lemma {:induction false} RemoveAbsent<T(!new)>(s: seq<T>, v: T)
    requires v !in s
    ensures Remove(s, v) == s
  {
    if s != [] {
      RemoveAbsent(s[1..], v);
    }
  }

  /** Toggling the same element twice restores membership; starting from absence it restores the list itself. */
  lemma ToggleTwice<T(!new)>(prev: seq<T>, x: T)
    ensures forall y :: y in ToggleMember(ToggleMember(prev, x), x) <==> y in prev
    ensures x !in prev ==> ToggleMember(ToggleMember(prev, x), x) == prev
  {
    if x !in prev {
      assert ToggleMember(prev, x) == prev + [x];
      RemoveAbsent(prev, x);
      assert Remove(prev + [x], x) == Remove(prev, x) by {
        RemoveAppend(prev, x);
      }
    }
  }

  lemma {:induction false} RemoveAppend<T(!new)>(s: seq<T>, v: T)
    ensures Remove(s + [v], v) == Remove(s, v)
  {
    if s != [] {
      assert (s + [v])[1..] == s[1..] + [v];
      RemoveAppend(s[1..], v);
    } else {
      assert [v][1..] == [];
    }
  }
}
