/** The elliptic-curve operations behind anonymous voting.

    BLS12-381 G1 enters the contract only through `g1_add`, `g1_mul`, `fr_sub` and the subgroup test,
    so a curve is any commutative group that comes with a scalar order above 2^128 and two fixed generators
    of the subgroup of that order.  The results on binding also ask for a prime order. */
module Curve {

  const U128_LIMIT: int := 0x1_0000_0000_0000_0000_0000_0000_0000_0000
  const U64_LIMIT: int := 0x1_0000_0000_0000_0000
  const U32_LIMIT: int := 0x1_0000_0000

  type u32 = n: int | 0 <= n < U32_LIMIT
  type u64 = n: int | 0 <= n < U64_LIMIT
  type u128 = n: int | 0 <= n < U128_LIMIT

  /** Every `u128` is already a reduced scalar. */
  type Order = n: int | U128_LIMIT < n witness U128_LIMIT + 1

  /** `P` also contains the points outside the subgroup of order `order`. */
  datatype Group<!P> = Group(
    zero: P,
    add: (P, P) -> P,
    neg: P -> P,
    order: Order,
    voteGenerator: P,
    seedGenerator: P)

  /******* Laws *******/

  // One predicate per law, so that a law is instantiated only where a proof names the instance.

  ghost predicate ZeroAt<P>(c: Group<P>, x: P) {
    c.add(x, c.zero) == x
  }

  ghost predicate InverseAt<P>(c: Group<P>, x: P) {
    c.add(x, c.neg(x)) == c.zero
  }

  ghost predicate CommutesAt<P>(c: Group<P>, x: P, y: P) {
    c.add(x, y) == c.add(y, x)
  }

  ghost predicate AssociatesAt<P>(c: Group<P>, x: P, y: P, z: P) {
    c.add(c.add(x, y), z) == c.add(x, c.add(y, z))
  }

  predicate Divides(d: nat, n: nat)
    requires d > 0
  {
    n % d == 0
  }

  ghost predicate Prime(n: int) {
    1 < n && forall d :: 1 < d < n ==> !Divides(d, n)
  }

  ghost predicate Lawful<P(!new)>(c: Group<P>) {
    && (forall x: P :: ZeroAt(c, x))
    && (forall x: P :: InverseAt(c, x))
    && (forall x: P, y: P :: CommutesAt(c, x, y))
    && (forall x: P, y: P, z: P :: AssociatesAt(c, x, y, z))
    && InSubgroup(c, c.voteGenerator)
    && InSubgroup(c, c.seedGenerator)
  }

  /******* Operations *******/

  /** `k` times `p` by repeated addition. */
  function Times<P>(c: Group<P>, k: nat, p: P): P {
    if k == 0 then c.zero else c.add(p, Times(c, k - 1, p))
  }

  /** The host's `is_in_subgroup`. */
  predicate InSubgroup<P(==)>(c: Group<P>, p: P) {
    Times(c, c.order, p) == c.zero
  }

  /** The host's `g1_mul`: the scalar is an element of the field of `order` elements. */
  function G1Mul<P>(c: Group<P>, p: P, k: nat): P {
    Times(c, k % c.order, p)
  }

  /** The host's `fr_sub`. */
  function FrSub<P>(c: Group<P>, a: nat, b: nat): nat {
    (a - b) % c.order
  }

  /** The commitment to one vote value under one seed. */
  function Commit<P>(c: Group<P>, vote: nat, seed: nat): P {
    c.add(G1Mul(c, c.voteGenerator, vote), G1Mul(c, c.seedGenerator, seed))
  }

  /******* Sums *******/

  lemma AddZeroLeft<P(!new)>(c: Group<P>, x: P)
    requires Lawful(c)
    ensures c.add(c.zero, x) == x && c.add(x, c.zero) == x
  {
    assert ZeroAt(c, x) && CommutesAt(c, x, c.zero);
  }

  lemma AddAssoc<P(!new)>(c: Group<P>, x: P, y: P, z: P)
    requires Lawful(c)
    ensures c.add(c.add(x, y), z) == c.add(x, c.add(y, z))
  {
    assert AssociatesAt(c, x, y, z);
  }

  lemma AddComm<P(!new)>(c: Group<P>, x: P, y: P)
    requires Lawful(c)
    ensures c.add(x, y) == c.add(y, x)
  {
    assert CommutesAt(c, x, y);
  }

  lemma AddShuffle<P(!new)>(c: Group<P>, a: P, b: P, x: P, y: P)
    requires Lawful(c)
    ensures c.add(c.add(a, b), c.add(x, y)) == c.add(c.add(a, x), c.add(b, y))
  {
    AddAssoc(c, a, b, c.add(x, y));
    AddAssoc(c, b, x, y);
    AddComm(c, b, x);
    AddAssoc(c, x, b, y);
    AddAssoc(c, a, x, c.add(b, y));
  }

  /** The group has cancellation. */
  lemma AddCancel<P(!new)>(c: Group<P>, a: P, x: P, y: P)
    requires Lawful(c)
    ensures c.add(a, x) == c.add(a, y) <==> x == y
  {
    if c.add(a, x) == c.add(a, y) {
      var n := c.neg(a);
      AddComm(c, a, n);
      AddAssoc(c, n, a, x);
      AddAssoc(c, n, a, y);
      assert InverseAt(c, a);
      AddZeroLeft(c, x);
      AddZeroLeft(c, y);
    }
  }

  /******* Scalar multiplication *******/

  lemma {:induction false} TimesPlus<P(!new)>(c: Group<P>, j: nat, k: nat, p: P)
    requires Lawful(c)
    ensures Times(c, j + k, p) == c.add(Times(c, j, p), Times(c, k, p))
  {
    if j == 0 {
      AddZeroLeft(c, Times(c, k, p));
    } else {
      TimesPlus(c, j - 1, k, p);
      AddAssoc(c, p, Times(c, j - 1, p), Times(c, k, p));
    }
  }

  lemma {:induction false} TimesOfSum<P(!new)>(c: Group<P>, k: nat, p: P, q: P)
    requires Lawful(c)
    ensures Times(c, k, c.add(p, q)) == c.add(Times(c, k, p), Times(c, k, q))
  {
    if k == 0 {
      AddZeroLeft(c, c.zero);
    } else {
      TimesOfSum(c, k - 1, p, q);
      AddShuffle(c, p, q, Times(c, k - 1, p), Times(c, k - 1, q));
    }
  }

  lemma {:induction false} TimesOfZero<P(!new)>(c: Group<P>, k: nat)
    requires Lawful(c)
    ensures Times(c, k, c.zero) == c.zero
  {
    if k > 0 {
      TimesOfZero(c, k - 1);
      AddZeroLeft(c, c.zero);
    }
  }

  lemma {:induction false} TimesTimes<P(!new)>(c: Group<P>, j: nat, k: nat, p: P)
    requires Lawful(c)
    ensures j * k >= 0
    ensures Times(c, j * k, p) == Times(c, j, Times(c, k, p))
  {
    if j == 0 {
    } else {
      TimesTimes(c, j - 1, k, p);
      assert j * k == k + (j - 1) * k;
      TimesPlus(c, k, (j - 1) * k, p);
    }
  }

  /** In the subgroup only the residue of a scalar matters. */
  lemma TimesMod<P(!new)>(c: Group<P>, k: nat, p: P)
    requires Lawful(c) && InSubgroup(c, p)
    ensures G1Mul(c, p, k) == Times(c, k, p)
  {
    var q, t := k / c.order, k % c.order;
    QuotientRemainder(k, c.order);
    TimesDropsMultiple(c, q, c.order, t, p);
  }

  lemma QuotientRemainder(k: int, r: nat)
    requires 0 < r
    ensures k == (k / r) * r + k % r
  {
  }

  lemma TimesDropsMultiple<P(!new)>(c: Group<P>, q: nat, r: nat, t: nat, p: P)
    requires Lawful(c) && Times(c, r, p) == c.zero
    ensures q * r >= 0 && Times(c, q * r + t, p) == Times(c, t, p)
  {
    TimesTimes(c, q, r, p);
    TimesOfZero(c, q);
    TimesPlus(c, q * r, t, p);
    AddZeroLeft(c, Times(c, t, p));
  }

  /** Weighting a commitment commits to the weighted vote and seed. */
  lemma CommitScales<P(!new)>(c: Group<P>, w: nat, vote: nat, seed: nat)
    requires Lawful(c)
    ensures w * vote >= 0 && w * seed >= 0
    ensures G1Mul(c, Commit(c, vote, seed), w) == Commit(c, w * vote, w * seed)
  {
    var g, h := c.voteGenerator, c.seedGenerator;
    CommitInSubgroup(c, vote, seed);
    TimesMod(c, w, Commit(c, vote, seed));
    TimesOfSum(c, w, G1Mul(c, g, vote), G1Mul(c, h, seed));
    TimesMod(c, vote, g);
    TimesMod(c, seed, h);
    TimesTimes(c, w, vote, g);
    TimesTimes(c, w, seed, h);
    TimesMod(c, w * vote, g);
    TimesMod(c, w * seed, h);
  }

  /** Adding commitments commits to the sums. */
  lemma CommitAdds<P(!new)>(c: Group<P>, v0: nat, s0: nat, v1: nat, s1: nat)
    requires Lawful(c)
    ensures c.add(Commit(c, v0, s0), Commit(c, v1, s1)) == Commit(c, v0 + v1, s0 + s1)
  {
    var g, h := c.voteGenerator, c.seedGenerator;
    AddShuffle(c, G1Mul(c, g, v0), G1Mul(c, h, s0), G1Mul(c, g, v1), G1Mul(c, h, s1));
    TimesMod(c, v0, g);
    TimesMod(c, v1, g);
    TimesMod(c, s0, h);
    TimesMod(c, s1, h);
    TimesPlus(c, v0, v1, g);
    TimesPlus(c, s0, s1, h);
    TimesMod(c, v0 + v1, g);
    TimesMod(c, s0 + s1, h);
  }

  lemma TimesInSubgroup<P(!new)>(c: Group<P>, k: nat, p: P)
    requires Lawful(c) && InSubgroup(c, p)
    ensures InSubgroup(c, Times(c, k, p))
  {
    TimesTimes(c, c.order, k, p);
    TimesTimes(c, k, c.order, p);
    assert c.order * k == k * c.order;
    TimesOfZero(c, k);
  }

  lemma CommitInSubgroup<P(!new)>(c: Group<P>, vote: nat, seed: nat)
    requires Lawful(c)
    ensures InSubgroup(c, Commit(c, vote, seed))
  {
    var a, b := G1Mul(c, c.voteGenerator, vote), G1Mul(c, c.seedGenerator, seed);
    TimesInSubgroup(c, vote % c.order, c.voteGenerator);
    TimesInSubgroup(c, seed % c.order, c.seedGenerator);
    TimesOfSum(c, c.order, a, b);
    AddZeroLeft(c, c.zero);
  }

  /******* Residues *******/

  lemma MulAtLeast(d: int, r: int)
    requires 0 < r
    ensures 1 <= d ==> r <= d * r
    ensures d <= -1 ==> d * r <= -r
  {
  }

  lemma ResidueOf(k: int, r: int, t: int)
    requires 0 <= t < r
    ensures (k * r + t) % r == t
  {
    var z := k * r + t;
    var d := z / r - k;
    assert z == (z / r) * r + z % r;
    assert d * r == t - z % r;
    MulAtLeast(d, r);
  }

  lemma ResidueOfDifference(s: int, t: int, r: int)
    requires 0 <= s < r && 0 <= t < r
    ensures (s + (t - s) % r) % r == t
  {
    if s <= t {
      ResidueOf(0, r, t - s);
      ResidueOf(0, r, t);
    } else {
      ResidueOf(-1, r, t - s + r);
      ResidueOf(1, r, t);
    }
  }

  /******* Removal *******/

  /** Multiplying by `0 - w` undoes a contribution of weight `w` exactly when the weight is zero or
      the commitment lies in the subgroup: without the subgroup test on incoming commitments a removed
      vote would leave a residue in the aggregate. */
  lemma RemovalExactIffSubgroup<P(!new)>(c: Group<P>, aggregate: P, p: P, w: u32)
    requires Lawful(c)
    ensures c.add(c.add(aggregate, G1Mul(c, p, w)), G1Mul(c, p, FrSub(c, 0, w))) == aggregate
       <==> w == 0 || InSubgroup(c, p)
  {
    var n := FrSub(c, 0, w);
    if w == 0 {
      assert n == 0;
      AddZeroLeft(c, aggregate);
    } else {
      var x, y := Times(c, w, p), Times(c, c.order - w, p);
      ResidueOf(-1, c.order, c.order - w);
      ResidueOf(0, c.order, w);
      ResidueOf(0, c.order, c.order - w);
      assert G1Mul(c, p, w) == x && G1Mul(c, p, n) == y;
      AddAssoc(c, aggregate, x, y);
      TimesPlus(c, w, c.order - w, p);
      AddZeroLeft(c, aggregate);
      AddCancel(c, aggregate, c.add(x, y), c.zero);
    }
  }

  /******* Binding *******/

  lemma NoDifference(s: int, t: int, r: int)
    requires 0 <= s < r && 0 <= t < r && (t - s) % r == 0
    ensures s == t
  {
    ResidueOfDifference(s, t, r);
    ResidueOf(0, r, s);
  }

  lemma InverseStep(b: int, q: int, t: int, y: int, n: int, m: int, r: int, x: int)
    requires b * q == r - t && t * y == n * r + 1 && x == m * r - q * y
    ensures b * x == (b * m - y + n) * r + 1
  {
    calc {
      b * x;
      b * (m * r) - b * (q * y);
      { assert b * (q * y) == (b * q) * y; }
      b * (m * r) - (r - t) * y;
      { assert (r - t) * y == r * y - t * y; }
      b * (m * r) - r * y + n * r + 1;
      { assert b * (m * r) == (b * m) * r; }
      (b * m) * r - y * r + n * r + 1;
      (b * m - y + n) * r + 1;
    }
  }

  /** A non-zero residue has an inverse modulo a prime, found by descending on the residue. */
  lemma {:induction false} Inverse(b: nat, r: int) returns (x: nat)
    requires Prime(r) && 0 < b < r
    ensures b * x % r == 1
    decreases b
  {
    if b == 1 {
      x := 1;
    } else {
      var q, t := r / b, r % b;
      assert !Divides(b, r);
      var y := Inverse(t, r);
      x := -(q * y) % r;
      QuotientRemainder(r, b);
      InverseFrom(b, q, t, y, r, x);
    }
  }

  lemma InverseFrom(b: nat, q: nat, t: nat, y: nat, r: nat, x: nat)
    requires r > 0 && r == q * b + t && t * y % r == 1 && x == -(q * y) % r
    ensures b * x % r == 1
  {
    var z := -(q * y);
    var n, m := t * y / r, -(z / r);
    QuotientRemainder(z, r);
    QuotientRemainder(t * y, r);
    InverseStep(b, q, t, y, n, m, r, x);
    ResidueOf(b * m - y + n, r, 1);
  }



  /** A point of the subgroup killed by a non-zero residue is the identity. */
  lemma KilledPointIsZero<P(!new)>(c: Group<P>, a: nat, p: P)
    requires Lawful(c) && Prime(c.order) && InSubgroup(c, p)
    requires 0 < a < c.order && Times(c, a, p) == c.zero
    ensures p == c.zero
  {
    var x := Inverse(a, c.order);
    TimesTimes(c, x, a, p);
    TimesOfZero(c, x);
    assert x * a == a * x;
    TimesMod(c, x * a, p);
    AddZeroLeft(c, p);
    assert Times(c, 1, p) == c.add(p, Times(c, 0, p));
  }

  /** Two openings of one commitment differ by a linear relation between the generators. */
  lemma OpeningsRelate<P(!new)>(c: Group<P>, v0: nat, s0: nat, v1: nat, s1: nat)
    requires Lawful(c)
    requires v1 <= v0 && s0 < c.order && s1 < c.order
    requires Commit(c, v0, s0) == Commit(c, v1, s1)
    ensures Times(c, v0 - v1, c.voteGenerator) == Times(c, (s1 - s0) % c.order, c.seedGenerator)
  {
    var g, h, d := c.voteGenerator, c.seedGenerator, (s1 - s0) % c.order;
    CommitPlain(c, v0, s0);
    CommitPlain(c, v1, s1);
    TimesPlus(c, v1, v0 - v1, g);
    ResidueOfDifference(s0, s1, c.order);
    TimesMod(c, s0 + d, h);
    TimesPlus(c, s0, d, h);
    CancelCrosswise(c, Times(c, v1, g), Times(c, v0 - v1, g), Times(c, s0, h), Times(c, d, h));
  }

  lemma CommitPlain<P(!new)>(c: Group<P>, v: nat, s: nat)
    requires Lawful(c)
    ensures Commit(c, v, s) == c.add(Times(c, v, c.voteGenerator), Times(c, s, c.seedGenerator))
  {
    TimesMod(c, v, c.voteGenerator);
    TimesMod(c, s, c.seedGenerator);
  }

  lemma CancelCrosswise<P(!new)>(c: Group<P>, a: P, b: P, x: P, y: P)
    requires Lawful(c)
    requires c.add(c.add(a, b), x) == c.add(a, c.add(x, y))
    ensures b == y
  {
    AddAssoc(c, a, b, x);
    AddCancel(c, a, c.add(b, x), c.add(x, y));
    AddComm(c, b, x);
    AddCancel(c, x, b, y);
  }

  lemma TimesOne<P(!new)>(c: Group<P>, p: P)
    requires Lawful(c)
    ensures Times(c, 1, p) == p
  {
    assert Times(c, 1, p) == c.add(p, Times(c, 0, p));
    AddZeroLeft(c, p);
  }

  /** If `a` times `g` is a non-zero residue `b` times `h`, then `h` is the quotient of `a` and `b`, modulo the
      order, times `g`. */
  lemma DivideRelation<P(!new)>(c: Group<P>, a: nat, g: P, b: nat, h: P) returns (log: nat)
    requires Lawful(c) && Prime(c.order) && InSubgroup(c, h)
    requires 0 < b < c.order && a < c.order && Times(c, a, g) == Times(c, b, h)
    ensures h == Times(c, log, g)
    ensures b * log % c.order == a
  {
    var x := Inverse(b, c.order);
    TimesTimes(c, x, a, g);
    TimesTimes(c, x, b, h);
    assert x * b == b * x;
    TimesMod(c, x * b, h);
    TimesOne(c, h);
    log := x * a;
    QuotientRemainder(b * x, c.order);
    QuotientOf(a, b, x, b * x / c.order, c.order);
    ResidueOf(b * x / c.order * a, c.order, a);
  }

  lemma QuotientOf(a: int, b: int, x: int, n: int, r: int)
    requires b * x == n * r + 1
    ensures b * (x * a) == (n * a) * r + a
  {
    calc {
      b * (x * a);
      (b * x) * a;
      (n * r + 1) * a;
      (n * a) * r + a;
    }
  }

  /** `log` solves the linear equation that two openings leave between the generators: the difference of the seeds
      times `log` is the opposite difference of the values, modulo the order. */
  predicate SolvesOpenings<P>(c: Group<P>, v0: nat, s0: nat, v1: nat, s1: nat, log: nat) {
    ((s1 - s0) * log - (v0 - v1)) % c.order == 0
  }

  lemma MultipleOf(k: int, r: int)
    requires 0 < r
    ensures k * r % r == 0
  {
    ResidueOf(k, r, 0);
  }

  lemma EquationFromResidues(d: int, q: int, b: int, log: int, n: int, a: int, r: int)
    requires d == q * r + b && b * log == n * r + a
    ensures d * log - a == (q * log + n) * r
  {
    calc {
      d * log - a;
      (q * r + b) * log - a;
      (q * log) * r + b * log - a;
      (q * log + n) * r;
    }
  }

  /** The equation reads the same from either opening. */
  lemma SolvesSwapped<P>(c: Group<P>, v0: nat, s0: nat, v1: nat, s1: nat, log: nat)
    requires SolvesOpenings(c, v0, s0, v1, s1, log)
    ensures SolvesOpenings(c, v1, s1, v0, s0, log)
  {
    var x := (s1 - s0) * log - (v0 - v1);
    QuotientRemainder(x, c.order);
    MultipleOf(-(x / c.order), c.order);
    assert (s0 - s1) * log - (v1 - v0) == -(x / c.order) * c.order;
  }

  /** Binding: two openings of one commitment have different seeds, and the linear equation that they leave,
      which has one solution modulo the prime order, is solved by the discrete logarithm of the seed generator
      to the base of the vote generator. */
  lemma SecondOpeningYieldsLogarithm<P(!new)>(c: Group<P>, v0: nat, s0: nat, v1: nat, s1: nat)
    returns (log: nat)
    requires Lawful(c) && Prime(c.order)
    requires c.voteGenerator != c.zero
    requires v0 < c.order && s0 < c.order && v1 < c.order && s1 < c.order
    requires (v0, s0) != (v1, s1)
    requires Commit(c, v0, s0) == Commit(c, v1, s1)
    ensures s0 != s1
    ensures SolvesOpenings(c, v0, s0, v1, s1, log)
    ensures c.seedGenerator == Times(c, log, c.voteGenerator)
  {
    if v0 < v1 {
      log := OrderedOpenings(c, v1, s1, v0, s0);
      SolvesSwapped(c, v1, s1, v0, s0, log);
    } else {
      log := OrderedOpenings(c, v0, s0, v1, s1);
    }
  }

  lemma OrderedOpenings<P(!new)>(c: Group<P>, v0: nat, s0: nat, v1: nat, s1: nat) returns (log: nat)
    requires Lawful(c) && Prime(c.order) && c.voteGenerator != c.zero
    requires v1 <= v0 < c.order && s0 < c.order && s1 < c.order && (v0, s0) != (v1, s1)
    requires Commit(c, v0, s0) == Commit(c, v1, s1)
    ensures s0 != s1
    ensures SolvesOpenings(c, v0, s0, v1, s1, log)
    ensures c.seedGenerator == Times(c, log, c.voteGenerator)
  {
    SeedsDiffer(c, v0, s0, v1, s1);
    OpeningsRelate(c, v0, s0, v1, s1);
    var b := (s1 - s0) % c.order;
    log := DivideRelation(c, v0 - v1, c.voteGenerator, b, c.seedGenerator);
    var q, n := (s1 - s0) / c.order, b * log / c.order;
    QuotientRemainder(s1 - s0, c.order);
    QuotientRemainder(b * log, c.order);
    EquationFromResidues(s1 - s0, q, b, log, n, v0 - v1, c.order);
    MultipleOf(q * log + n, c.order);
  }


  lemma SeedsDiffer<P(!new)>(c: Group<P>, v0: nat, s0: nat, v1: nat, s1: nat)
    requires Lawful(c) && Prime(c.order)
    requires c.voteGenerator != c.zero
    requires v1 <= v0 < c.order && s0 < c.order && s1 < c.order
    requires (v0, s0) != (v1, s1)
    requires Commit(c, v0, s0) == Commit(c, v1, s1)
    ensures (s1 - s0) % c.order != 0
  {
    if (s1 - s0) % c.order == 0 {
      OpeningsRelate(c, v0, s0, v1, s1);
      NoDifference(s0, s1, c.order);
      KilledPointIsZero(c, v0 - v1, c.voteGenerator);
      assert false;
    }
  }

  /** Any two solutions of the equation agree modulo the order: the openings determine the logarithm. */
  lemma OneSolution<P>(c: Group<P>, v0: nat, s0: nat, v1: nat, s1: nat, x: nat, y: nat)
    requires Prime(c.order) && s0 < c.order && s1 < c.order && s0 != s1
    requires SolvesOpenings(c, v0, s0, v1, s1, x) && SolvesOpenings(c, v0, s0, v1, s1, y)
    ensures x % c.order == y % c.order
  {
    if (s1 - s0) % c.order == 0 {
      NoDifference(s0, s1, c.order);
      assert false;
    }
    OneQuotient(s1 - s0, x, y, v0 - v1, c.order);
  }

  lemma OneQuotient(d: int, x: nat, y: nat, e: int, r: int)
    requires Prime(r) && d % r != 0 && (d * x - e) % r == 0 && (d * y - e) % r == 0
    ensures x % r == y % r
  {
    var q, b := d / r, d % r;
    var z := Inverse(b, r);
    var j, k, n := (d * x - e) / r, (d * y - e) / r, b * z / r;
    QuotientRemainder(d, r);
    QuotientRemainder(d * x - e, r);
    QuotientRemainder(d * y - e, r);
    QuotientRemainder(b * z, r);
    SameProduct(d, q, b, x, y, e, j, k, r);
    var m := j - k - q * x + q * y;
    CancelInverse(b, z, n, m, x, y, r);
    SameResidue(x, y, z * m + n * y - n * x, r);
  }

  lemma SameProduct(d: int, q: int, b: int, x: int, y: int, e: int, j: int, k: int, r: int)
    requires d == q * r + b && d * x - e == j * r && d * y - e == k * r
    ensures b * x == (j - k - q * x + q * y) * r + b * y
  {
    assert d * x == (q * x) * r + b * x;
    assert d * y == (q * y) * r + b * y;
  }

  lemma CancelInverse(b: int, z: int, n: int, m: int, x: int, y: int, r: int)
    requires b * z == n * r + 1 && b * x == m * r + b * y
    ensures x == (z * m + n * y - n * x) * r + y
  {
    calc {
      (n * r + 1) * x;
      (b * z) * x;
      z * (b * x);
      z * (m * r + b * y);
      (z * m) * r + (b * z) * y;
      (z * m) * r + (n * r + 1) * y;
    }
    assert (n * r + 1) * x == (n * x) * r + x;
    assert (n * r + 1) * y == (n * y) * r + y;
  }

  lemma SameResidue(x: int, y: int, k: int, r: int)
    requires 0 < r && x == k * r + y
    ensures x % r == y % r
  {
    QuotientRemainder(y, r);
    ResidueOf(k + y / r, r, y % r);
  }

  /** Value plus seed times `log` is the same for both pairs, modulo the order. */
  predicate OnOneLine<P>(c: Group<P>, log: nat, v0: nat, s0: nat, v1: nat, s1: nat) {
    (v0 + s0 * log) % c.order == (v1 + s1 * log) % c.order
  }

  /** Exactly how far a commitment binds, given the logarithm: two pairs commit to one point if and only if
      they agree along the line that the logarithm defines. */
  lemma CommitmentsAgreeIff<P(!new)>(c: Group<P>, log: nat, v0: nat, s0: nat, v1: nat, s1: nat)
    requires Lawful(c) && Prime(c.order) && c.voteGenerator != c.zero
    requires c.seedGenerator == Times(c, log, c.voteGenerator)
    ensures Commit(c, v0, s0) == Commit(c, v1, s1) <==> OnOneLine(c, log, v0, s0, v1, s1)
  {
    OnTheLine(c, log, v0, s0);
    OnTheLine(c, log, v1, s1);
    MultiplesAgreeIff(c, (v0 + s0 * log) % c.order, (v1 + s1 * log) % c.order, c.voteGenerator);
  }

  lemma OnTheLine<P(!new)>(c: Group<P>, log: nat, v: nat, s: nat)
    requires Lawful(c) && c.seedGenerator == Times(c, log, c.voteGenerator)
    ensures s * log >= 0
    ensures Commit(c, v, s) == Times(c, (v + s * log) % c.order, c.voteGenerator)
  {
    CommitPlain(c, v, s);
    TimesTimes(c, s, log, c.voteGenerator);
    TimesPlus(c, v, s * log, c.voteGenerator);
    TimesMod(c, v + s * log, c.voteGenerator);
  }

  lemma MultiplesAgreeIff<P(!new)>(c: Group<P>, j: nat, k: nat, p: P)
    requires Lawful(c) && Prime(c.order) && InSubgroup(c, p) && p != c.zero
    requires j < c.order && k < c.order
    ensures Times(c, j, p) == Times(c, k, p) <==> j == k
    decreases k < j
  {
    if k < j {
      MultiplesAgreeIff(c, k, j, p);
    } else if j < k && Times(c, j, p) == Times(c, k, p) {
      TimesPlus(c, j, k - j, p);
      AddZeroLeft(c, Times(c, j, p));
      AddCancel(c, Times(c, j, p), Times(c, k - j, p), c.zero);
      KilledPointIsZero(c, k - j, p);
      assert false;
    }
  }
}
