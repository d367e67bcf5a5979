/** Shared vocabulary of the dashboards: optional values (JavaScript's `null`),
    the distinct values of a list (`new Set(xs).size`) and filter counts
    (`xs.filter(p).length`). */
module Common {

  /** A value that may be absent; `None` stands for JavaScript's `null`/`undefined`. */
  datatype Option<+T> = None | Some(value: T)

  /** Record identifiers are strings in the data provider. */
  type Id = string

  /** The set of values of `xs`, built in the order `new Set(xs)` adds them. */
  function Distinct<T(!new)>(xs: seq<T>): (r: set<T>)
    ensures forall x :: x in r <==> x in xs
    ensures |r| <= |xs|
    ensures |r| == 0 <==> xs == []
  {
    if xs == [] then {}
    else
      var init := Distinct(xs[..|xs| - 1]);
      assert xs == xs[..|xs| - 1] + [xs[|xs| - 1]];
      init + {xs[|xs| - 1]}
  }

  /** Reordering a list does not change its set of values. */
  lemma DistinctPermutation<T(!new)>(a: seq<T>, b: seq<T>)
    requires multiset(a) == multiset(b)
    ensures Distinct(a) == Distinct(b)
  {
    forall x ensures x in Distinct(a) <==> x in Distinct(b) {
      assert x in a <==> x in multiset(a);
      assert x in b <==> x in multiset(b);
    }
  }

  /** Appending a value already present leaves the set of values as it was. */
  lemma DistinctAppendPresent<T(!new)>(xs: seq<T>, x: T)
    requires x in xs
    ensures Distinct(xs + [x]) == Distinct(xs)
  {
    forall y ensures y in Distinct(xs + [x]) <==> y in Distinct(xs) {
      assert y in xs + [x] <==> y in xs || y == x;
    }
  }

  /** `xs.filter(p).length`. */
  function Count<T>(xs: seq<T>, p: T -> bool): (r: nat)
    ensures r <= |xs|
  {
    if xs == [] then 0
    else Count(xs[..|xs| - 1], p) + (if p(xs[|xs| - 1]) then 1 else 0)
  }

  lemma {:induction false} CountAppend<T>(a: seq<T>, b: seq<T>, p: T -> bool)
    ensures Count(a + b, p) == Count(a, p) + Count(b, p)
  {
    if b == [] {
      assert a + b == a;
    } else {
      var b' := b[..|b| - 1];
      assert (a + b)[..|a + b| - 1] == a + b';
      CountAppend(a, b', p);
    }
  }

  /** The count is everything exactly when every element passes, and zero exactly when none does. */
  lemma {:induction false} CountExtremes<T>(xs: seq<T>, p: T -> bool)
    ensures Count(xs, p) == |xs| <==> forall i :: 0 <= i < |xs| ==> p(xs[i])
    ensures Count(xs, p) == 0 <==> forall i :: 0 <= i < |xs| ==> !p(xs[i])
  {
    if xs != [] {
      var init := xs[..|xs| - 1];
      CountExtremes(init, p);
      assert forall i :: 0 <= i < |init| ==> init[i] == xs[i];
    }
  }

  /** Two predicates that agree on every element count alike. */
  lemma {:induction false} CountCongruent<T>(xs: seq<T>, p: T -> bool, q: T -> bool)
    requires forall i :: 0 <= i < |xs| ==> p(xs[i]) == q(xs[i])
    ensures Count(xs, p) == Count(xs, q)
  {
    if xs != [] {
      CountCongruent(xs[..|xs| - 1], p, q);
    }
  }

  /** Every element is counted by exactly one of a predicate and its negation. */
  lemma {:induction false} CountComplement<T>(xs: seq<T>, p: T -> bool)
    ensures Count(xs, p) + Count(xs, x => !p(x)) == |xs|
  {
    if xs != [] {
      CountComplement(xs[..|xs| - 1], p);
    }
  }

  /** Counting does not depend on the order of the list. */
  lemma {:induction false} CountPermutation<T>(a: seq<T>, b: seq<T>, p: T -> bool)
    requires multiset(a) == multiset(b)
    ensures Count(a, p) == Count(b, p)
  {
    if a != [] {
      var x := a[|a| - 1];
      var a' := a[..|a| - 1];
      assert a == a' + [x];
      assert x in multiset(b);
      var i :| 0 <= i < |b| && b[i] == x;
      var b' := b[..i] + b[i + 1..];
      assert b == b[..i] + [x] + b[i + 1..];
      assert multiset(b) == multiset(b[..i]) + multiset{x} + multiset(b[i + 1..]);
      assert multiset(b') == multiset(b[..i]) + multiset(b[i + 1..]);
      assert multiset(a) == multiset(a') + multiset{x};
      assert multiset(a') == multiset(a) - multiset{x};
      assert multiset(b') == multiset(b) - multiset{x};
      CountPermutation(a', b', p);
      CountAppend(b[..i], [x], p);
      CountAppend(b[..i] + [x], b[i + 1..], p);
      CountAppend(b[..i], b[i + 1..], p);
      assert Count([x], p) == (if p(x) then 1 else 0) by {
        assert [x][..0] == [];
      }
    }
  }
}
