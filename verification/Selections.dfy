/** Counting over sets and summing over the values of a finite map. */
module Selections {

  function One(b: bool): nat {
    if b then 1 else 0
  }

  lemma Membership(whole: set<nat>, rest: set<nat>, t: nat, member: bool)
    requires t !in rest && whole == if member then rest + {t} else rest
    ensures |whole| == |rest| + One(member)
  {
  }

  lemma SubsetIsNoLarger(a: set<nat>, b: set<nat>)
    requires a <= b
    ensures |a| <= |b|
  {
    if a != {} {
      var x :| x in a;
      SubsetIsNoLarger(a - {x}, b - {x});
    }
  }

  ghost function Sum<T(!new)>(keys: set<nat>, m: map<nat, T>, f: T -> nat): nat
    requires keys <= m.Keys
    decreases keys
  {
    if keys == {} then 0 else
      var k :| k in keys;
      f(m[k]) + Sum(keys - {k}, m, f)
  }

  lemma {:induction false} SumRemove<T(!new)>(keys: set<nat>, m: map<nat, T>, f: T -> nat, k: nat)
    requires keys <= m.Keys && k in keys
    ensures Sum(keys, m, f) == f(m[k]) + Sum(keys - {k}, m, f)
    decreases keys
  {
    var c :| c in keys && Sum(keys, m, f) == f(m[c]) + Sum(keys - {c}, m, f);
    if c != k {
      SumRemove(keys - {c}, m, f, k);
      SumRemove(keys - {k}, m, f, c);
      assert keys - {c} - {k} == keys - {k} - {c};
    }
  }

  /** Pointwise comparison lifts to the sums. */
  lemma {:induction false} SumMonotone<T(!new)>(keys: set<nat>, m: map<nat, T>, n: map<nat, T>, f: T -> nat)
    requires keys <= m.Keys && keys <= n.Keys
    requires forall k :: k in keys ==> f(n[k]) <= f(m[k])
    ensures Sum(keys, n, f) <= Sum(keys, m, f)
    decreases keys
  {
    if keys != {} {
      var k :| k in keys;
      SumRemove(keys, m, f, k);
      SumRemove(keys, n, f, k);
      SumMonotone(keys - {k}, m, n, f);
    }
  }

  /** Pointwise equality lifts to the sums. */
  lemma SumPointwise<T(!new)>(m: map<nat, T>, n: map<nat, T>, f: T -> nat)
    requires m.Keys == n.Keys && forall k :: k in m ==> f(n[k]) == f(m[k])
    ensures Sum(n.Keys, n, f) == Sum(m.Keys, m, f)
  {
    SumMonotone(m.Keys, m, n, f);
    SumMonotone(m.Keys, n, m, f);
  }

  lemma {:induction false} SumBound<T(!new)>(keys: set<nat>, m: map<nat, T>, f: T -> nat, bound: nat)
    requires keys <= m.Keys && forall k :: k in keys ==> f(m[k]) <= bound
    ensures Sum(keys, m, f) <= bound * |keys|
    decreases keys
  {
    if keys != {} {
      var k :| k in keys;
      SumRemove(keys, m, f, k);
      hide Sum;
      SumBound(keys - {k}, m, f, bound);
      OneMoreTime(bound, |keys - {k}|);
      assert |keys| == |keys - {k}| + 1;
    }
  }

  lemma OneMoreTime(x: nat, n: nat)
    ensures x * (n + 1) == x * n + x
  {
  }

  /** A strict decrease at one key is a strict decrease of the sum. */
  lemma SumUpdateDecreases<T(!new)>(m: map<nat, T>, k: nat, v: T, f: T -> nat)
    requires k in m && f(v) < f(m[k])
    ensures Sum(m[k := v].Keys, m[k := v], f) < Sum(m.Keys, m, f)
  {
    var n := m[k := v];
    assert n.Keys == m.Keys;
    SumRemove(m.Keys, m, f, k);
    SumRemove(m.Keys, n, f, k);
    SumMonotone(m.Keys - {k}, m, n, f);
  }

  // ----- one measure out of two

  /** A step down of the first measure outweighs whatever the second one gains, as long as that stays below `most`. */
  function Weigh(first: nat, most: nat, second: nat): nat {
    first * (most + 1) + second
  }

  lemma FirstGoesDown(first: nat, first': nat, most: nat, second: nat, second': nat)
    requires first' < first && second' <= most
    ensures Weigh(first', most, second') < Weigh(first, most, second)
  {
    assert first * (most + 1) == (first - 1) * (most + 1) + most + 1;
    assert first' * (most + 1) <= (first - 1) * (most + 1);
  }

  lemma SecondGoesDown(first: nat, most: nat, second: nat, second': nat)
    requires second' < second
    ensures Weigh(first, most, second') < Weigh(first, most, second)
  {
  }

  // ----- going through a set

  /** How many of the chosen elements are no longer among the rest. */
  ghost function Handled(hit: set<nat>, rest: set<nat>): nat {
    |hit - rest|
  }

  lemma HandledAtEnds(hit: set<nat>, all: set<nat>)
    requires hit <= all
    ensures Handled(hit, all) == 0 && Handled(hit, {}) == |hit|
  {
    assert hit - all == {};
    assert hit - {} == hit;
  }

  lemma HandledGrows(hit: set<nat>, rest: set<nat>, a: nat)
    requires a in rest
    ensures Handled(hit, rest - {a}) == Handled(hit, rest) + if a in hit then 1 else 0
    ensures a in hit ==> Handled(hit, rest) < |hit|
    ensures Handled(hit, rest) <= |hit|
  {
    if a in hit {
      assert hit - (rest - {a}) == (hit - rest) + {a};
      SubsetIsNoLarger(hit - (rest - {a}), hit);
    } else {
      assert hit - (rest - {a}) == hit - rest;
      SubsetIsNoLarger(hit - rest, hit);
    }
  }
}
