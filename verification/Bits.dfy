/** Slicing and concatenation of unsigned signals: `v[n:]`, `v[:n]` and the place value of an upper part in a `Cat`. */
module Bits {
  import opened Common

  /** The slice `v[n:]`. */
  function From(v: nat, n: nat): nat {
    if n == 0 then v else From(v / 2, n - 1)
  }

  /** The slice `v[:n]`. */
  function To(v: nat, n: nat): (r: nat)
    ensures r < Pow2(n)
  {
    if n == 0 then 0 else v % 2 + 2 * To(v / 2, n - 1)
  }

  /** `v` moved up by `n` bits: what `v` contributes to `Cat(low, v)` when `low` has `n` bits. */
  function Up(v: nat, n: nat): (r: nat)
    ensures v <= r
  {
    if n == 0 then v else 2 * Up(v, n - 1)
  }

  /** `Cat(v[:n], v[n:])` is `v`. */
  lemma {:induction false} CatSlices(v: nat, n: nat)
    ensures To(v, n) + Up(From(v, n), n) == v
  {
    if n > 0 { CatSlices(v / 2, n - 1); }
  }

  /** The two slices of a `Cat` are its parts. */
  lemma {:induction false} SlicesOfCat(low: nat, high: nat, n: nat)
    requires low < Pow2(n)
    ensures To(low + Up(high, n), n) == low && From(low + Up(high, n), n) == high
  {
    if n > 0 {
      SlicesOfCat(low / 2, high, n - 1);
      assert (low + Up(high, n)) / 2 == low / 2 + Up(high, n - 1);
    }
  }

  lemma {:induction false} SlicesOfSmall(v: nat, n: nat)
    requires v < Pow2(n)
    ensures To(v, n) == v && From(v, n) == 0
  {
    if n > 0 { SlicesOfSmall(v / 2, n - 1); }
  }

  /** Slicing or moving by nothing. */
  lemma ZeroWidth(v: nat, n: nat)
    ensures To(v, 0) == 0 && From(v, 0) == v && Up(v, 0) == v && Pow2(0) == 1 && Up(0, n) == 0
  {
    UpIsProduct(0, n);
  }

  lemma {:induction false} FromFrom(v: nat, a: nat, b: nat)
    ensures From(From(v, a), b) == From(v, a + b)
  {
    if a > 0 { FromFrom(v / 2, a - 1, b); }
  }

  lemma {:induction false} ToSplit(v: nat, a: nat, b: nat)
    ensures To(v, a + b) == To(v, a) + Up(To(From(v, a), b), a)
  {
    if a > 0 { ToSplit(v / 2, a - 1, b); }
  }

  lemma {:induction false} UpUp(v: nat, a: nat, b: nat)
    ensures Up(Up(v, a), b) == Up(v, a + b)
  {
    if b > 0 { UpUp(v, a, b - 1); }
  }

  lemma {:induction false} UpSum(v: nat, w: nat, n: nat)
    ensures Up(v + w, n) == Up(v, n) + Up(w, n)
  {
    if n > 0 { UpSum(v, w, n - 1); }
  }

  /** A `Cat` of an `n`-bit part and an `a`-bit part has `a + n` bits. */
  lemma {:induction false} CatBound(low: nat, high: nat, n: nat, a: nat)
    requires low < Pow2(n) && high < Pow2(a)
    ensures low + Up(high, n) < Pow2(a + n)
  {
    if n > 0 { CatBound(low / 2, high, n - 1, a); }
  }

  /** The slice above the low `n` bits of an `a + n`-bit value has `a` bits. */
  lemma {:induction false} FromBound(v: nat, n: nat, a: nat)
    requires v < Pow2(a + n)
    ensures From(v, n) < Pow2(a)
  {
    if n > 0 { FromBound(v / 2, n - 1, a); }
  }

  lemma {:induction false} Pow2Monotone(a: nat, b: nat)
    requires a <= b
    ensures Pow2(a) <= Pow2(b)
  {
    if a < b { Pow2Monotone(a, b - 1); }
  }

  /** Moving up is multiplication by a power of two. */
  lemma {:induction false} UpIsProduct(v: nat, n: nat)
    ensures Up(v, n) == v * Pow2(n)
  {
    if n > 0 {
      UpIsProduct(v, n - 1);
      assert 2 * (v * Pow2(n - 1)) == v * (2 * Pow2(n - 1));
    }
  }
}
