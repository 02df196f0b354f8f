/**
 Products, quotients and remainders by repeated addition and subtraction. Index
 arithmetic over images, tiles and grids is stated with these, so that proofs use the
 few laws below and the solver never searches among products of variables.
 */
module Arith {

  function Times(a: nat, b: nat): nat {
    if a == 0 then 0 else Times(a - 1, b) + b
  }

  function Quot(n: nat, d: nat): nat
    requires d > 0
  {
    if n < d then 0 else Quot(n - d, d) + 1
  }

  function Rem(n: nat, d: nat): (r: nat)
    requires d > 0
    ensures r < d
  {
    if n < d then n else Rem(n - d, d)
  }

  /** The laws below are about the ordinary product. */
  lemma TimesIsProduct(a: nat, b: nat)
    ensures Times(a, b) == a * b
  {
    if a > 0 {
      TimesIsProduct(a - 1, b);
      assert a * b == (a - 1) * b + b;
    }
  }

  lemma {:induction false} TimesMono(a: nat, b: nat, m: nat)
    requires a <= b
    ensures Times(a, m) <= Times(b, m)
    decreases b
  {
    if a < b {
      TimesMono(a, b - 1, m);
    }
  }

  /** A larger multiplier leaves a whole multiple of room. */
  lemma TimesStep(a: nat, b: nat, m: nat)
    requires a < b
    ensures Times(a, m) + m <= Times(b, m)
  {
    TimesMono(a + 1, b, m);
  }

  lemma {:induction false} TimesAdd(a: nat, b: nat, m: nat)
    ensures Times(a + b, m) == Times(a, m) + Times(b, m)
  {
    if b > 0 {
      TimesAdd(a, b - 1, m);
    }
  }

  lemma {:induction false} QuotRem(n: nat, d: nat)
    requires d > 0
    ensures Times(Quot(n, d), d) + Rem(n, d) == n
  {
    if n >= d {
      QuotRem(n - d, d);
    }
  }

  lemma {:induction false} QuotUnique(q: nat, d: nat, r: nat)
    requires r < d
    ensures Quot(Times(q, d) + r, d) == q && Rem(Times(q, d) + r, d) == r
  {
    if q > 0 {
      QuotUnique(q - 1, d, r);
    }
  }

  /** A number below q * d has its quotient below q. */
  lemma QuotBound(n: nat, d: nat, q: nat)
    requires d > 0 && n < Times(q, d)
    ensures Quot(n, d) < q
  {
    QuotRem(n, d);
    if Quot(n, d) >= q {
      TimesMono(q, Quot(n, d), d);
    }
  }

  lemma {:induction false} TimesAtLeast(a: nat, m: nat)
    requires m > 0
    ensures Times(a, m) >= a
  {
    if a > 0 {
      TimesAtLeast(a - 1, m);
    }
  }
}
