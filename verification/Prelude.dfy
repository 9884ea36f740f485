/** Stock types and the sequence and map facts every other module leans on. */
module Prelude {

  datatype Option<+T> = None | Some(value: T)

  /** The outcome of an entry point: an error means the whole call was rolled back. */
  datatype Result<+T, +E> = Ok(value: T) | Err(error: E) {
    predicate IsFailure() { Err? }

    function PropagateFailure<U>(): Result<U, E>
      requires Err?
    {
      Err(error)
    }

    function Extract(): T
      requires Ok?
    {
      value
    }
  }

  datatype Check<+E> = Pass | Fail(error: E) {
    predicate IsFailure() { Fail? }

    function PropagateFailure<U>(): Result<U, E>
      requires Fail?
    {
      Err(error)
    }
  }

  function Need<E>(condition: bool, error: E): Check<E> {
    if condition then Pass else Fail(error)
  }

  const U32_MAX: nat := 0xFFFF_FFFF
  const U64_MAX: nat := 0xFFFF_FFFF_FFFF_FFFF
  const U128_MAX: nat := 0xFFFF_FFFF_FFFF_FFFF_FFFF_FFFF_FFFF_FFFF
  const I128_MAX: nat := 0x7FFF_FFFF_FFFF_FFFF_FFFF_FFFF_FFFF_FFFF

  /** The value a `map` storage entry has when it is absent. */
  function Lookup<K, V>(m: map<K, V>, k: K, absent: V): V {
    if k in m then m[k] else absent
  }

  function Find<K, V, E>(m: map<K, V>, k: K, missing: E): Result<V, E> {
    if k in m then Ok(m[k]) else Err(missing)
  }

  // ---------- sequences ----------

  ghost predicate Distinct<T>(s: seq<T>) {
    forall i, j :: 0 <= i < j < |s| ==> s[i] != s[j]
  }

  function Elements<T(==)>(s: seq<T>): set<T> {
    set x | x in s
  }

  /** `s` with every occurrence of the elements of `drop` removed, order kept. */
  function Without<T(==, !new)>(s: seq<T>, drop: set<T>): (r: seq<T>)
    ensures forall x :: x in r <==> x in s && x !in drop
    ensures Distinct(s) ==> Distinct(r)
    ensures |r| <= |s|
  {
    if s == [] then []
    else
      var last := |s| - 1;
      var init := Without(s[..last], drop);
      assert s == s[..last] + [s[last]];
      if s[last] in drop then init else init + [s[last]]
  }

  lemma WithoutSnoc<T(!new)>(s: seq<T>, x: T, drop: set<T>)
    ensures Without(s + [x], drop) == if x in drop then Without(s, drop) else Without(s, drop) + [x]
  {
    assert (s + [x])[..|s|] == s;
  }

  lemma DistinctSnoc<T>(s: seq<T>, x: T)
    ensures Distinct(s + [x]) <==> Distinct(s) && x !in s
  {
    var t := s + [x];
    assert forall i :: 0 <= i < |s| ==> t[i] == s[i];
    if Distinct(t) {
      forall i | 0 <= i < |s| ensures s[i] != x { assert t[i] != t[|s|]; }
    }
  }

  function Sum(s: seq<nat>): nat {
    if s == [] then 0 else Sum(s[..|s| - 1]) + s[|s| - 1]
  }

  // ---------- sums over the values of a map ----------

  ghost function MapSum<K(!new), V>(m: map<K, V>, weigh: V -> nat): nat {
    if m == map[] then 0
    else
      var k :| k in m;
      weigh(m[k]) + MapSum(m - {k}, weigh)
  }

  /** The sum does not depend on the order in which keys are taken out. */
  lemma {:induction false} MapSumRemove<K(!new), V>(m: map<K, V>, k: K, weigh: V -> nat)
    requires k in m
    ensures MapSum(m, weigh) == weigh(m[k]) + MapSum(m - {k}, weigh)
    decreases m
  {
    var first :| first in m && MapSum(m, weigh) == weigh(m[first]) + MapSum(m - {first}, weigh);
    if first != k {
      MapSumRemove(m - {first}, k, weigh);
      MapSumRemove(m - {k}, first, weigh);
      assert m - {first} - {k} == m - {k} - {first};
    }
  }

  lemma MapSumSet<K(!new), V>(m: map<K, V>, k: K, v: V, weigh: V -> nat)
    ensures k in m ==> MapSum(m[k := v], weigh) == MapSum(m, weigh) - weigh(m[k]) + weigh(v)
    ensures k !in m ==> MapSum(m[k := v], weigh) == MapSum(m, weigh) + weigh(v)
  {
    MapSumRemove(m[k := v], k, weigh);
    if k in m {
      MapSumRemove(m, k, weigh);
      assert m[k := v] - {k} == m - {k};
    } else {
      assert m[k := v] - {k} == m;
    }
  }

  lemma MapSumAtLeast<K(!new), V>(m: map<K, V>, k: K, weigh: V -> nat)
    requires k in m
    ensures weigh(m[k]) <= MapSum(m, weigh)
  {
    MapSumRemove(m, k, weigh);
  }

  /** Two maps with the same keys whose values weigh the same have the same sum. */
  lemma {:induction false} MapSumSame<K(!new), V>(m: map<K, V>, n: map<K, V>, weigh: V -> nat)
    requires m.Keys == n.Keys
    requires forall k :: k in m ==> weigh(m[k]) == weigh(n[k])
    ensures MapSum(m, weigh) == MapSum(n, weigh)
    decreases m
  {
    if m == map[] {
      assert n == map[];
    } else {
      var k :| k in m;
      MapSumRemove(m, k, weigh);
      MapSumRemove(n, k, weigh);
      MapSumSame(m - {k}, n - {k}, weigh);
    }
  }
}
