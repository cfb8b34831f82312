/** Unsigned 64-bit millisatoshi arithmetic, as the wallet does it: additions and
    subtractions saturate instead of wrapping or panicking. */
module Amounts {

  const U64_MAX: int := 0xFFFF_FFFF_FFFF_FFFF

  type u64 = x: int | 0 <= x <= U64_MAX

  function Min(a: int, b: int): (r: int)
    ensures r <= a && r <= b && (r == a || r == b)
  {
    if a <= b then a else b
  }

  function Max(a: int, b: int): (r: int)
    ensures a <= r && b <= r && (r == a || r == b)
  {
    if a <= b then b else a
  }

  function Clamp(x: nat): (r: u64)
    ensures r <= x && (x <= U64_MAX ==> r == x) && (x > U64_MAX ==> r == U64_MAX)
  {
    if x <= U64_MAX then x else U64_MAX
  }

  function SatAdd(a: u64, b: u64): (r: u64)
    ensures a + b <= U64_MAX ==> r == a + b
    ensures a + b > U64_MAX ==> r == U64_MAX
  {
    Clamp(a + b)
  }

  function SatSub(a: u64, b: u64): (r: u64)
    ensures a <= b + r && r <= a && (0 < r ==> a == b + r)
  {
    if a <= b then 0 else a - b
  }

  /** The true, unbounded sum of `f` over `xs`: what a saturating accumulator approximates. */
  function Total<T(!new)>(xs: seq<T>, f: T -> nat): nat {
    if xs == [] then 0 else Total(xs[..|xs| - 1], f) + f(xs[|xs| - 1])
  }

  lemma TotalAppend<T(!new)>(xs: seq<T>, x: T, f: T -> nat)
    ensures Total(xs + [x], f) == Total(xs, f) + f(x)
  {
    assert (xs + [x])[..|xs|] == xs;
  }

  lemma {:induction false} TotalConcat<T(!new)>(xs: seq<T>, ys: seq<T>, f: T -> nat)
    ensures Total(xs + ys, f) == Total(xs, f) + Total(ys, f)
  {
    if ys == [] {
      assert xs + ys == xs;
    } else {
      var n := |ys| - 1;
      TotalConcat(xs, ys[..n], f);
      assert (xs + ys)[..|xs + ys| - 1] == xs + ys[..n];
    }
  }

  lemma {:induction false} TotalRemove<T(!new)>(xs: seq<T>, k: nat, f: T -> nat)
    requires k < |xs|
    ensures Total(xs, f) == Total(xs[..k] + xs[k + 1..], f) + f(xs[k])
  {
    assert xs == (xs[..k] + [xs[k]]) + xs[k + 1..];
    TotalConcat(xs[..k] + [xs[k]], xs[k + 1..], f);
    TotalAppend(xs[..k], xs[k], f);
    TotalConcat(xs[..k], xs[k + 1..], f);
  }

  /** A sum does not depend on the order of its terms. */
  lemma {:induction false} TotalPermutation<T(!new)>(xs: seq<T>, ys: seq<T>, f: T -> nat)
    requires multiset(xs) == multiset(ys)
    ensures Total(xs, f) == Total(ys, f)
    decreases |xs|
  {
    if xs == [] {
      assert |multiset(ys)| == 0;
    } else {
      var n := |xs| - 1;
      var x := xs[n];
      assert xs == xs[..n] + [x];
      assert x in multiset(ys);
      var k :| 0 <= k < |ys| && ys[k] == x;
      assert ys == ys[..k] + [x] + ys[k + 1..];
      assert multiset(ys) == multiset(ys[..k]) + multiset{x} + multiset(ys[k + 1..]);
      assert multiset(xs[..n]) == multiset(xs) - multiset{x};
      assert multiset(ys[..k] + ys[k + 1..]) == multiset(ys) - multiset{x};
      TotalPermutation(xs[..n], ys[..k] + ys[k + 1..], f);
      TotalRemove(ys, k, f);
    }
  }

  /** Pointwise smaller terms give a smaller sum. */
  lemma {:induction false} TotalMonotone<T(!new)>(xs: seq<T>, f: T -> nat, g: T -> nat)
    requires forall x :: x in xs ==> f(x) <= g(x)
    ensures Total(xs, f) <= Total(xs, g)
  {
    if xs != [] {
      TotalMonotone(xs[..|xs| - 1], f, g);
    }
  }
}
