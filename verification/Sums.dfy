/** Sums over the list of issued ids, and how they react to a change. */
module Sums {
  import opened Prelude
  import opened TokenIds

  ghost function Sum(xs: seq<Bytes>, f: Bytes -> int): int {
    if xs == [] then 0 else Sum(xs[..|xs| - 1], f) + f(xs[|xs| - 1])
  }

  lemma SumAppend(xs: seq<Bytes>, x: Bytes, f: Bytes -> int)
    ensures Sum(xs + [x], f) == Sum(xs, f) + f(x)
  {
  }

  lemma {:induction false} SumSame(xs: seq<Bytes>, f: Bytes -> int, g: Bytes -> int)
    requires forall k :: k in xs ==> f(k) == g(k)
    ensures Sum(xs, f) == Sum(xs, g)
  {
    if xs != [] {
      SumSame(xs[..|xs| - 1], f, g);
    }
  }

  // One entry of a list without repeats changes.
  lemma {:induction false} SumChange(xs: seq<Bytes>, f: Bytes -> int, g: Bytes -> int, x: Bytes)
    requires NoDuplicates(xs)
    requires x in xs && forall k :: k in xs && k != x ==> f(k) == g(k)
    ensures Sum(xs, g) == Sum(xs, f) + g(x) - f(x)
  {
    var last, before := xs[|xs| - 1], xs[..|xs| - 1];
    if last == x {
      SumSame(before, f, g);
    } else {
      SumChange(before, f, g, x);
    }
  }

  lemma {:induction false} SumAdd(xs: seq<Bytes>, f: Bytes -> int, g: Bytes -> int, h: Bytes -> int)
    requires forall k :: k in xs ==> h(k) == f(k) + g(k)
    ensures Sum(xs, h) == Sum(xs, f) + Sum(xs, g)
  {
    if xs != [] {
      SumAdd(xs[..|xs| - 1], f, g, h);
    }
  }

  lemma {:induction false} SumLe(xs: seq<Bytes>, f: Bytes -> int, g: Bytes -> int)
    requires forall k :: k in xs ==> f(k) <= g(k)
    ensures Sum(xs, f) <= Sum(xs, g)
  {
    if xs != [] {
      SumLe(xs[..|xs| - 1], f, g);
    }
  }

  lemma {:induction false} SumZero(xs: seq<Bytes>, f: Bytes -> int)
    requires forall k :: k in xs ==> f(k) == 0
    ensures Sum(xs, f) == 0
  {
    if xs != [] {
      SumZero(xs[..|xs| - 1], f);
    }
  }
}
