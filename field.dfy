/**
 * The scalar field of the pairing engine. Scalars are the integers 0 .. P-1 and
 * the field operations reduce modulo P. P is the order of the BN256 scalar field,
 * the engine the verifier is normally instantiated with; nothing below depends
 * on its value beyond P > 1.
 *
 * Addition subtracts P once when the sum overflows, and multiplication is
 * repeated field addition. MulIsMod shows that this is the product modulo P;
 * the definitions are kept free of `*` and `%` so that proofs about the
 * verifier reason linearly.
 */
module Field {

  const P: nat := 0x30644e72e131a029b85045b68181585d2833e84879b9709143e1f593f0000001

  type Scalar = x: int | 0 <= x < P

  function Add(a: Scalar, b: Scalar): Scalar
  {
    if a + b < P then a + b else a + b - P
  }

  /** a added to itself b times. */
  function Mul(a: Scalar, b: Scalar): Scalar
  {
    if b == 0 then 0 else Add(Mul(a, b - 1), a)
  }

  /** x^k, computed as the verifier's repeated scaling computes it: one factor x per step. */
  function Pow(x: Scalar, k: nat): Scalar
  {
    if k == 0 then 1 else Mul(Pow(x, k - 1), x)
  }

  // ---------------------------------------------------------------------------
  // Add and Mul are addition and multiplication modulo P

  lemma AddIsMod(a: Scalar, b: Scalar)
    ensures Add(a, b) == (a + b) % P
  {
  }

  /** Reduction may be applied to a summand before adding. */
  lemma ModAddLeft(x: int, y: int)
    ensures (x % P + y) % P == (x + y) % P
  {
    var q := x / P;
    assert x == q * P + x % P;
    ModAddMultiple(q, x % P + y);
  }

  /** Adding a multiple of P does not change the residue. */
  lemma ModAddMultiple(k: int, r: int)
    ensures (k * P + r) % P == r % P
  {
  }

  /** One more summand a turns the residue of a * (b - 1) into that of a * b. */
  lemma ModMulStep(a: int, b: int)
    ensures ((a * (b - 1)) % P + a) % P == (a * b) % P
  {
    ModAddLeft(a * (b - 1), a);
    assert a * (b - 1) + a == a * b;
  }

  lemma {:induction false} MulIsMod(a: Scalar, b: Scalar)
    ensures Mul(a, b) == (a * b) % P
  {
    if b > 0 {
      var m := Mul(a, b - 1);
      MulIsMod(a, b - 1);
      AddIsMod(m, a);
      ModMulStep(a, b);
    }
  }

  // ---------------------------------------------------------------------------
  // Residues of integer products

  /** Reduction may be applied to a factor before multiplying. */
  lemma ModMulLeft(x: int, y: int)
    ensures (x % P) * y % P == x * y % P
  {
    var q, r := x / P, x % P;
    assert x == q * P + r;
    calc {
      x * y;
      (q * P + r) * y;
      (q * P) * y + r * y;
      { assert (q * P) * y == (q * y) * P; }
      (q * y) * P + r * y;
    }
    ModAddMultiple(q * y, r * y);
  }

  lemma ModMulAssoc(x: int, y: int, z: int)
    ensures ((x * y) % P * z) % P == (x * ((y * z) % P)) % P
  {
    calc {
      ((x * y) % P * z) % P;
      { ModMulLeft(x * y, z); }
      ((x * y) * z) % P;
      { assert (x * y) * z == x * (y * z); }
      (x * (y * z)) % P;
      { ModMulLeft(y * z, x); assert (y * z) * x == x * (y * z); }
      ((y * z) % P * x) % P;
      { assert (y * z) % P * x == x * ((y * z) % P); }
      (x * ((y * z) % P)) % P;
    }
  }

  // ---------------------------------------------------------------------------
  // Ring laws

  lemma AddAssoc(a: Scalar, b: Scalar, c: Scalar)
    ensures Add(Add(a, b), c) == Add(a, Add(b, c))
  {
  }

  lemma AddSwapMiddle(w: Scalar, x: Scalar, y: Scalar, z: Scalar)
    ensures Add(Add(w, x), Add(y, z)) == Add(Add(w, y), Add(x, z))
  {
  }

  lemma {:induction false} MulZero(a: Scalar)
    ensures Mul(0, a) == 0 && Mul(a, 0) == 0
  {
    if a > 0 {
      MulZero(a - 1);
    }
  }

  lemma {:induction false} MulOne(a: Scalar)
    ensures Mul(1, a) == a && Mul(a, 1) == a
  {
    if a > 0 {
      MulOne(a - 1);
    }
  }

  lemma MulComm(a: Scalar, b: Scalar)
    ensures Mul(a, b) == Mul(b, a)
  {
    MulIsMod(a, b);
    MulIsMod(b, a);
  }

  lemma MulAssoc(a: Scalar, b: Scalar, c: Scalar)
    ensures Mul(Mul(a, b), c) == Mul(a, Mul(b, c))
  {
    calc {
      Mul(Mul(a, b), c);
      { MulIsMod(Mul(a, b), c); }
      (Mul(a, b) * c) % P;
      { MulIsMod(a, b); }
      ((a * b) % P * c) % P;
      { ModMulAssoc(a, b, c); }
      (a * ((b * c) % P)) % P;
      { MulIsMod(b, c); }
      (a * Mul(b, c)) % P;
      { MulIsMod(a, Mul(b, c)); }
      Mul(a, Mul(b, c));
    }
  }

  /** The last two factors of a product may be swapped. */
  lemma MulSwapRight(p: Scalar, a: Scalar, x: Scalar)
    ensures Mul(Mul(p, a), x) == Mul(Mul(p, x), a)
  {
    calc {
      Mul(Mul(p, a), x);
      { MulAssoc(p, a, x); }
      Mul(p, Mul(a, x));
      { MulComm(a, x); }
      Mul(p, Mul(x, a));
      { MulAssoc(p, x, a); }
      Mul(Mul(p, x), a);
    }
  }

  lemma {:induction false} MulAddDistrib(a: Scalar, b: Scalar, c: Scalar)
    ensures Mul(Add(a, b), c) == Add(Mul(a, c), Mul(b, c))
  {
    if c > 0 {
      MulAddDistrib(a, b, c - 1);
      AddSwapMiddle(Mul(a, c - 1), Mul(b, c - 1), a, b);
    }
  }
}
