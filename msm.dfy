/**
 * The lazy multi-scalar-multiplication accumulators the verifier builds:
 * `MSMKZG` (a list of coefficient/element terms), `DualMSM` (the two sides of
 * the deferred pairing equation) and the guard that wraps a `DualMSM`.
 * Group elements are opaque tokens; an accumulator means the formal linear
 * combination of its terms, read off per element by `CoeffOf`.
 */
module MsmKzg {
  import opened Field

  /** An opaque group element; `Negated(g)` stands for -g. */
  datatype GroupElem = Token(id: nat) | Negated(of: GroupElem)

  /** One pending product coeff * base. */
  datatype Term = Term(coeff: Scalar, base: GroupElem)

  function ScaleTerms(ts: seq<Term>, s: Scalar): seq<Term>
  {
    seq(|ts|, i requires 0 <= i < |ts| => Term(Mul(ts[i].coeff, s), ts[i].base))
  }

  lemma ScaleTermsConcat(xs: seq<Term>, ys: seq<Term>, s: Scalar)
    ensures ScaleTerms(xs + ys, s) == ScaleTerms(xs, s) + ScaleTerms(ys, s)
  {
  }

  /** Scaling by a then by b is scaling by a * b. */
  lemma ScaleTermsTwice(ts: seq<Term>, a: Scalar, b: Scalar)
    ensures ScaleTerms(ScaleTerms(ts, a), b) == ScaleTerms(ts, Mul(a, b))
  {
    forall i | 0 <= i < |ts| ensures ScaleTerms(ScaleTerms(ts, a), b)[i] == ScaleTerms(ts, Mul(a, b))[i] {
      MulAssoc(ts[i].coeff, a, b);
    }
  }

  lemma ScaleTermsOne(ts: seq<Term>)
    ensures ScaleTerms(ts, 1) == ts
  {
    forall i | 0 <= i < |ts| ensures ScaleTerms(ts, 1)[i] == ts[i] {
      MulOne(ts[i].coeff);
    }
  }

  /** `MSMKZG`: the terms in the order they were appended or merged. */
  datatype Msm = Msm(terms: seq<Term>)
  {
    /** `scale`: multiply every coefficient by s. */
    function Scale(s: Scalar): Msm
    {
      Msm(ScaleTerms(terms, s))
    }

    /** `append_term`: push one product. */
    function AppendTerm(c: Scalar, b: GroupElem): Msm
    {
      Msm(terms + [Term(c, b)])
    }

    /** `add_msm`: merge in every term of another accumulator. */
    function AddMsm(other: Msm): Msm
    {
      Msm(terms + other.terms)
    }
  }

  /** `MSMKZG::new`: no terms, the zero element. */
  const EmptyMsm: Msm := Msm([])

  /** `DualMSM`: the left and right sides of the deferred pairing check. */
  datatype DualMsm = DualMsm(left: Msm, right: Msm)
  {
    /** `DualMSM::scale`: both sides by the same scalar. */
    function Scale(s: Scalar): DualMsm
    {
      DualMsm(left.Scale(s), right.Scale(s))
    }
  }

  const EmptyDualMsm: DualMsm := DualMsm(EmptyMsm, EmptyMsm)

  /** `GuardKZG`: an accumulator whose pairing check is still pending. */
  datatype Guard = Guard(msmAccumulator: DualMsm)

  /** The coefficient of element b in the linear combination the terms denote. */
  function CoeffOf(ts: seq<Term>, b: GroupElem): Scalar
  {
    if |ts| == 0 then 0
    else Add(if ts[0].base == b then ts[0].coeff else 0, CoeffOf(ts[1..], b))
  }

  /** Merging (and appending) adds the denoted linear combinations. */
  lemma {:induction false} CoeffOfConcat(xs: seq<Term>, ys: seq<Term>, b: GroupElem)
    ensures CoeffOf(xs + ys, b) == Add(CoeffOf(xs, b), CoeffOf(ys, b))
  {
    if |xs| == 0 {
      assert xs + ys == ys;
    } else {
      assert (xs + ys)[1..] == xs[1..] + ys;
      CoeffOfConcat(xs[1..], ys, b);
      AddAssoc(if xs[0].base == b then xs[0].coeff else 0, CoeffOf(xs[1..], b), CoeffOf(ys, b));
    }
  }

  /** Scaling multiplies the coefficient of every element by the scalar. */
  lemma {:induction false} CoeffOfScale(ts: seq<Term>, s: Scalar, b: GroupElem)
    ensures CoeffOf(ScaleTerms(ts, s), b) == Mul(CoeffOf(ts, b), s)
  {
    if |ts| > 0 {
      var head: Scalar := if ts[0].base == b then ts[0].coeff else 0;
      var scaled := ScaleTerms(ts, s);
      assert scaled[1..] == ScaleTerms(ts[1..], s);
      MulZero(s);
      assert (if scaled[0].base == b then scaled[0].coeff else 0) == Mul(head, s);
      CoeffOfScale(ts[1..], s, b);
      MulAddDistrib(head, CoeffOf(ts[1..], b), s);
    } else {
      MulZero(s);
    }
  }

  lemma CoeffOfSingle(t: Term, b: GroupElem)
    ensures CoeffOf([t], b) == if t.base == b then t.coeff else 0
  {
    assert [t][1..] == [];
  }

  /** The linear combination of `AppendTerm` and `AddMsm` results, element by element. */
  lemma AppendAndMergeMeaning(m: Msm, other: Msm, c: Scalar, g: GroupElem, b: GroupElem)
    ensures CoeffOf(m.AddMsm(other).terms, b) == Add(CoeffOf(m.terms, b), CoeffOf(other.terms, b))
    ensures CoeffOf(m.AppendTerm(c, g).terms, b) == Add(CoeffOf(m.terms, b), if g == b then c else 0)
  {
    CoeffOfConcat(m.terms, other.terms, b);
    CoeffOfConcat(m.terms, [Term(c, g)], b);
    CoeffOfSingle(Term(c, g), b);
  }

  /** Scaling an accumulator that denotes zero leaves it denoting zero, for any scalar. */
  lemma ScaleZero(m: Msm, s: Scalar)
    requires forall b :: CoeffOf(m.terms, b) == 0
    ensures forall b :: CoeffOf(m.Scale(s).terms, b) == 0
  {
    forall b ensures CoeffOf(m.Scale(s).terms, b) == 0 {
      CoeffOfScale(m.terms, s, b);
      MulZero(s);
    }
  }

  /** Scaling a dual accumulator scales both sides' linear combinations alike. */
  lemma DualScaleMeaning(acc: DualMsm, s: Scalar, b: GroupElem)
    ensures CoeffOf(acc.Scale(s).left.terms, b) == Mul(CoeffOf(acc.left.terms, b), s)
    ensures CoeffOf(acc.Scale(s).right.terms, b) == Mul(CoeffOf(acc.right.terms, b), s)
  {
    CoeffOfScale(acc.left.terms, s, b);
    CoeffOfScale(acc.right.terms, s, b);
  }
}
