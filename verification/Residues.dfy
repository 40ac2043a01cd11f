/** A group that obeys every law asked of the curve, with generators of the whole group: the laws can be met. */
module Residues {
  import opened Curve

  const MODULUS: Order := U128_LIMIT + 51

  newtype Residue = n: int | 0 <= n < U128_LIMIT + 51

  function Plus(x: Residue, y: Residue): Residue {
    var sum := x as int + y as int;
    (if sum < MODULUS then sum else sum - MODULUS) as Residue
  }

  function Negate(x: Residue): Residue {
    (if x == 0 then 0 else MODULUS - x as int) as Residue
  }

  function Additive(): Group<Residue> {
    Group(0, Plus, Negate, MODULUS, 1, 2)
  }

  /** Multiples wrap around as products do, some number of times. */
  lemma {:induction false} TimesIsProduct(k: nat, p: Residue) returns (wraps: nat)
    ensures Times(Additive(), k, p) as int == k * p as int - wraps * MODULUS
  {
    wraps := 0;
    if k > 0 {
      var before := TimesIsProduct(k - 1, p);
      var t := Times(Additive(), k - 1, p);
      wraps := if p as int + t as int < MODULUS then before else before + 1;
      assert k * p as int == (k - 1) * p as int + p as int;
    }
  }

  lemma GeneratesAll(p: Residue)
    ensures InSubgroup(Additive(), p)
  {
    var wraps := TimesIsProduct(MODULUS, p);
    var t := Times(Additive(), MODULUS, p) as int;
    assert MODULUS * p as int == p as int * MODULUS;
    assert t == (p as int - wraps) * MODULUS;
    MulAtLeast(p as int - wraps, MODULUS);
  }

  lemma Associates(x: Residue, y: Residue, z: Residue)
    ensures Plus(Plus(x, y), z) == Plus(x, Plus(y, z))
  {
  }

  lemma AdditiveLawful()
    ensures Lawful(Additive()) && Additive().voteGenerator != Additive().zero
  {
    var c := Additive();
    forall x: Residue, y: Residue, z: Residue ensures AssociatesAt(c, x, y, z) {
      Associates(x, y, z);
    }
    GeneratesAll(1);
    GeneratesAll(2);
  }
}
