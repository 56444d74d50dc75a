/** Multiples of the checkpoint interval. */
module Intervals {

  /** `x` is a multiple of `ci`, by counting down. */
  predicate Aligned(x: nat, ci: nat)
    requires ci > 0
  {
    if x < ci then x == 0 else Aligned(x - ci, ci)
  }

  lemma QuotientUnique(x: nat, q: nat, r: nat, ci: nat)
    requires ci > 0 && r < ci && x == q * ci + r
    ensures x % ci == r
  {
    var q', r' := x / ci, x % ci;
    assert x == q' * ci + r';
    if q' < q {
      TimesGrows(q' + 1, q, ci);
      assert false;
    } else if q' > q {
      TimesGrows(q + 1, q', ci);
      assert false;
    }
  }

  lemma {:induction false} TimesGrows(a: nat, b: nat, ci: nat)
    requires a <= b
    ensures a * ci <= b * ci
  {
    assert b * ci == a * ci + (b - a) * ci;
  }

  /** The remainder that the source tests. */
  lemma {:induction false} AlignedIsModulo(x: nat, ci: nat)
    requires ci > 0
    ensures Aligned(x, ci) <==> x % ci == 0
  {
    if x >= ci {
      AlignedIsModulo(x - ci, ci);
      var q, r := (x - ci) / ci, (x - ci) % ci;
      assert x == (q + 1) * ci + r;
      QuotientUnique(x, q + 1, r, ci);
    }
  }

  lemma {:induction false} AlignedApart(a: nat, b: nat, ci: nat)
    requires ci > 0 && Aligned(a, ci) && Aligned(b, ci) && a < b
    ensures a + ci <= b
  {
    if a >= ci {
      AlignedApart(a - ci, b - ci, ci);
    }
  }

  lemma {:induction false} AlignedSum(a: nat, x: nat, ci: nat)
    requires ci > 0 && Aligned(a, ci)
    ensures x < ci ==> (Aligned(a + x, ci) <==> x == 0)
    ensures Aligned(a + ci, ci)
  {
    if 0 < x < ci && Aligned(a + x, ci) {
      AlignedApart(a, a + x, ci);
      assert false;
    }
  }

  lemma SmallModulo(x: nat, ci: nat)
    requires ci > 0 && x < 2 * ci
    ensures x % ci == if x < ci then x else x - ci
  {
    if x < ci {
      QuotientUnique(x, 0, x, ci);
    } else {
      QuotientUnique(x, 1, x - ci, ci);
    }
  }

  lemma {:induction false} AlignedPlus(a: nat, b: nat, ci: nat)
    requires ci > 0 && Aligned(a, ci)
    ensures Aligned(a + b, ci) <==> Aligned(b, ci)
  {
    if a >= ci {
      AlignedPlus(a - ci, b, ci);
    }
  }

  lemma WholeIntervals(ci: nat)
    requires ci > 0
    ensures Aligned(0, ci) && Aligned(ci, ci) && Aligned(2 * ci, ci)
  {
    assert Aligned(2 * ci - ci, ci);
  }
}
