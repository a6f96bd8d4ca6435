/**
 * `VerifierGWC::verify_proof`: the verifier of a batched KZG multi-open proof,
 * GWC variant. It draws v, reads one witness point per point-group, draws u,
 * folds the groups with Horner's rule (base u across groups, base v across the
 * queries of a group) into three accumulators and one scalar, and adds them to
 * the caller's dual accumulator.
 *
 * The Horner folds are specified by closed forms that weight the k-th of n
 * items by x^(n-1-k) (`Weighted`, `WeightedSum`); the `...Snoc` lemmas show
 * that one Horner step (scale, then add the next item) extends the closed form
 * by one item.
 */
module Gwc {
  import opened Wrappers
  import opened Field
  import opened MsmKzg
  import opened Transcripts

  /** `CommitmentReference`: a commitment point, or an accumulator computed earlier. */
  datatype CommitmentReference = Commitment(c: GroupElem) | MsmRef(msm: Msm)

  /** `VerifierQuery`: the claim that the committed polynomial takes `eval` at `point`. */
  datatype VerifierQuery = VerifierQuery(point: Scalar, commitment: CommitmentReference, eval: Scalar)

  /** One group produced by `construct_intermediate_sets`: the queries at one point. */
  datatype CommitmentData = CommitmentData(point: Scalar, queries: seq<VerifierQuery>)

  /**
   * Why verification stops. `SamplingError` is the source's error for a point
   * that cannot be read; `InvalidQuerySet` stands for the failed assertions on a
   * group (empty, or holding a query at another point), where the source panics.
   */
  datatype Error = SamplingError | InvalidQuerySet

  /** The public parameters; `g[0]` is the generator of the evaluation term. */
  datatype ParamsKzg = ParamsKzg(g: seq<GroupElem>)

  /** The per-iteration results of the fold over the groups. */
  datatype Folded = Folded(witnessMsm: Msm, witnessWithAux: Msm, commitmentMulti: Msm, evalMulti: Scalar)

  /** What the assertions on a group demand: not empty, every query at the group's point. */
  predicate WellFormedGroup(cd: CommitmentData)
  {
    |cd.queries| > 0 && forall j :: 0 <= j < |cd.queries| ==> cd.queries[j].point == cd.point
  }

  predicate WellFormed(cds: seq<CommitmentData>)
  {
    forall i :: 0 <= i < |cds| ==> WellFormedGroup(cds[i])
  }

  // ---------------------------------------------------------------------------
  // Closed forms of the Horner folds

  /** The sum over k of x^(|xs|-1-k) * xs[k]. */
  function WeightedSum(xs: seq<Scalar>, x: Scalar): Scalar
  {
    if |xs| == 0 then 0 else Add(Mul(Pow(x, |xs| - 1), xs[0]), WeightedSum(xs[1..], x))
  }

  /** The concatenation over k of parts[k] with every coefficient times x^(|parts|-1-k). */
  function Weighted(parts: seq<seq<Term>>, x: Scalar): seq<Term>
  {
    if |parts| == 0 then [] else ScaleTerms(parts[0], Pow(x, |parts| - 1)) + Weighted(parts[1..], x)
  }

  /** The terms one query folds in: its commitment with coefficient 1, or all terms of its accumulator. */
  function Contribution(q: VerifierQuery): seq<Term>
  {
    match q.commitment
    case Commitment(c) => [Term(1, c)]
    case MsmRef(m) => m.terms
  }

  function Contributions(qs: seq<VerifierQuery>): seq<seq<Term>>
  {
    seq(|qs|, j requires 0 <= j < |qs| => Contribution(qs[j]))
  }

  function Evals(qs: seq<VerifierQuery>): seq<Scalar>
  {
    seq(|qs|, j requires 0 <= j < |qs| => qs[j].eval)
  }

  /** `commitment_batch` of a group: query j weighted by v^(n-1-j). */
  function BatchTerms(qs: seq<VerifierQuery>, v: Scalar): seq<Term>
  {
    Weighted(Contributions(qs), v)
  }

  /** `eval_batch` of a group: the sum over j of v^(n-1-j) * eval_j. */
  function BatchEval(qs: seq<VerifierQuery>, v: Scalar): Scalar
  {
    WeightedSum(Evals(qs), v)
  }

  function GroupBatches(cds: seq<CommitmentData>, v: Scalar): seq<seq<Term>>
  {
    seq(|cds|, i requires 0 <= i < |cds| => BatchTerms(cds[i].queries, v))
  }

  function GroupEvals(cds: seq<CommitmentData>, v: Scalar): seq<Scalar>
  {
    seq(|cds|, i requires 0 <= i < |cds| => BatchEval(cds[i].queries, v))
  }

  /** `witness`: W_i with coefficient u^(N-1-i). */
  function WitnessTerms(w: seq<GroupElem>, u: Scalar): seq<Term>
  {
    seq(|w|, i requires 0 <= i < |w| => Term(Pow(u, |w| - 1 - i), w[i]))
  }

  /** `witness_with_aux`: W_i with coefficient z_i * u^(N-1-i). */
  function WitnessAuxTerms(cds: seq<CommitmentData>, w: seq<GroupElem>, u: Scalar): seq<Term>
    requires |cds| == |w|
  {
    seq(|w|, i requires 0 <= i < |w| => Term(Mul(cds[i].point, Pow(u, |w| - 1 - i)), w[i]))
  }

  /** `commitment_multi`: group i's batch weighted by u^(N-1-i). */
  function CommitmentMultiTerms(cds: seq<CommitmentData>, u: Scalar, v: Scalar): seq<Term>
  {
    Weighted(GroupBatches(cds, v), u)
  }

  /** `eval_multi`: the sum over i of u^(N-1-i) * (the sum over j of v^(n_i-1-j) * eval_ij). */
  function EvalMulti(cds: seq<CommitmentData>, u: Scalar, v: Scalar): Scalar
  {
    WeightedSum(GroupEvals(cds, v), u)
  }

  /** The accumulator after a successful verification: old terms kept, new ones appended. */
  function Accumulated(acc: DualMsm, f: Folded, g0: GroupElem): DualMsm
  {
    DualMsm(Msm(acc.left.terms + f.witnessMsm.terms),
            Msm(acc.right.terms + f.witnessWithAux.terms + f.commitmentMulti.terms + [Term(f.evalMulti, Negated(g0))]))
  }

  // ---------------------------------------------------------------------------
  // One Horner step extends the closed form by one item

  /** Scalar Horner step: s * x + y over the first items is the closed form over one more. */
  lemma {:induction false} WeightedSumSnoc(xs: seq<Scalar>, y: Scalar, x: Scalar)
    ensures WeightedSum(xs + [y], x) == Add(Mul(WeightedSum(xs, x), x), y)
  {
    if |xs| == 0 {
      assert xs + [y] == [y];
      MulOne(y);
      MulZero(x);
    } else {
      var n := |xs|;
      var a := xs[0];
      var rest := WeightedSum(xs[1..], x);
      assert (xs + [y])[1..] == xs[1..] + [y];
      calc {
        WeightedSum(xs + [y], x);
        Add(Mul(Pow(x, n), a), WeightedSum(xs[1..] + [y], x));
        { WeightedSumSnoc(xs[1..], y, x); }
        Add(Mul(Pow(x, n), a), Add(Mul(rest, x), y));
        { AddAssoc(Mul(Pow(x, n), a), Mul(rest, x), y); }
        Add(Add(Mul(Mul(Pow(x, n - 1), x), a), Mul(rest, x)), y);
        { MulSwapRight(Pow(x, n - 1), a, x); }
        Add(Add(Mul(Mul(Pow(x, n - 1), a), x), Mul(rest, x)), y);
        { MulAddDistrib(Mul(Pow(x, n - 1), a), rest, x); }
        Add(Mul(Add(Mul(Pow(x, n - 1), a), rest), x), y);
        Add(Mul(WeightedSum(xs, x), x), y);
      }
    }
  }

  /** Accumulator Horner step: scale then merge the next part gives the closed form over one more. */
  lemma {:induction false} WeightedSnoc(parts: seq<seq<Term>>, p: seq<Term>, x: Scalar)
    ensures Weighted(parts + [p], x) == ScaleTerms(Weighted(parts, x), x) + p
  {
    if |parts| == 0 {
      assert parts + [p] == [p];
      ScaleTermsOne(p);
    } else {
      var n := |parts|;
      assert (parts + [p])[1..] == parts[1..] + [p];
      WeightedSnoc(parts[1..], p, x);
      ScaleTermsConcat(ScaleTerms(parts[0], Pow(x, n - 1)), Weighted(parts[1..], x), x);
      ScaleTermsTwice(parts[0], Pow(x, n - 1), x);
    }
  }

  lemma BatchSnoc(qs: seq<VerifierQuery>, q: VerifierQuery, v: Scalar)
    ensures BatchTerms(qs + [q], v) == ScaleTerms(BatchTerms(qs, v), v) + Contribution(q)
    ensures BatchEval(qs + [q], v) == Add(Mul(BatchEval(qs, v), v), q.eval)
  {
    assert Contributions(qs + [q]) == Contributions(qs) + [Contribution(q)];
    assert Evals(qs + [q]) == Evals(qs) + [q.eval];
    WeightedSnoc(Contributions(qs), Contribution(q), v);
    WeightedSumSnoc(Evals(qs), q.eval, v);
  }

  lemma GroupSnoc(cds: seq<CommitmentData>, cd: CommitmentData, u: Scalar, v: Scalar)
    ensures CommitmentMultiTerms(cds + [cd], u, v)
         == ScaleTerms(CommitmentMultiTerms(cds, u, v), u) + BatchTerms(cd.queries, v)
    ensures EvalMulti(cds + [cd], u, v) == Add(Mul(EvalMulti(cds, u, v), u), BatchEval(cd.queries, v))
  {
    assert GroupBatches(cds + [cd], v) == GroupBatches(cds, v) + [BatchTerms(cd.queries, v)];
    assert GroupEvals(cds + [cd], v) == GroupEvals(cds, v) + [BatchEval(cd.queries, v)];
    WeightedSnoc(GroupBatches(cds, v), BatchTerms(cd.queries, v), u);
    WeightedSumSnoc(GroupEvals(cds, v), BatchEval(cd.queries, v), u);
  }

  lemma WitnessSnoc(cds: seq<CommitmentData>, w: seq<GroupElem>, cd: CommitmentData, wi: GroupElem, u: Scalar)
    requires |cds| == |w|
    ensures WitnessTerms(w + [wi], u) == ScaleTerms(WitnessTerms(w, u), u) + [Term(1, wi)]
    ensures WitnessAuxTerms(cds + [cd], w + [wi], u)
         == ScaleTerms(WitnessAuxTerms(cds, w, u), u) + [Term(cd.point, wi)]
  {
    var n := |w|;
    forall i | 0 <= i < n
      ensures WitnessTerms(w + [wi], u)[i] == ScaleTerms(WitnessTerms(w, u), u)[i]
      ensures WitnessAuxTerms(cds + [cd], w + [wi], u)[i] == ScaleTerms(WitnessAuxTerms(cds, w, u), u)[i]
    {
      assert Pow(u, n - i) == Mul(Pow(u, n - 1 - i), u);
      MulAssoc(cds[i].point, Pow(u, n - 1 - i), u);
    }
    assert WitnessTerms(w + [wi], u)[n] == Term(Pow(u, 0), wi);
    assert WitnessAuxTerms(cds + [cd], w + [wi], u)[n] == Term(Mul(cd.point, Pow(u, 0)), wi);
    MulOne(cd.point);
  }

  // ---------------------------------------------------------------------------
  // The closed forms read term by term

  /** Each query's terms scaled by v^(n-1-j) * f, in query order. */
  function QueryTerms(qs: seq<VerifierQuery>, v: Scalar, f: Scalar): seq<Term>
  {
    if |qs| == 0 then []
    else ScaleTerms(Contribution(qs[0]), Mul(Pow(v, |qs| - 1), f)) + QueryTerms(qs[1..], v, f)
  }

  /** Every query of every group, group i's with factor u^(N-1-i), in group then query order. */
  function GroupTerms(cds: seq<CommitmentData>, u: Scalar, v: Scalar): seq<Term>
  {
    if |cds| == 0 then []
    else QueryTerms(cds[0].queries, v, Pow(u, |cds| - 1)) + GroupTerms(cds[1..], u, v)
  }

  lemma {:induction false} ScaledBatch(qs: seq<VerifierQuery>, v: Scalar, f: Scalar)
    ensures ScaleTerms(BatchTerms(qs, v), f) == QueryTerms(qs, v, f)
  {
    if |qs| > 0 {
      var n := |qs|;
      assert Contributions(qs)[1..] == Contributions(qs[1..]);
      ScaledBatch(qs[1..], v, f);
      ScaleTermsConcat(ScaleTerms(Contribution(qs[0]), Pow(v, n - 1)), BatchTerms(qs[1..], v), f);
      ScaleTermsTwice(Contribution(qs[0]), Pow(v, n - 1), f);
    }
  }

  /**
   * `commitment_multi` term by term: for query j of group i a direct commitment
   * gives one term with coefficient v^(n_i-1-j) * u^(N-1-i); a nested
   * accumulator gives all of its terms, each multiplied by that factor.
   */
  lemma {:induction false} CommitmentMultiExplicit(cds: seq<CommitmentData>, u: Scalar, v: Scalar)
    ensures CommitmentMultiTerms(cds, u, v) == GroupTerms(cds, u, v)
  {
    if |cds| > 0 {
      assert GroupBatches(cds, v)[1..] == GroupBatches(cds[1..], v);
      CommitmentMultiExplicit(cds[1..], u, v);
      ScaledBatch(cds[0].queries, v, Pow(u, |cds| - 1));
    }
  }

  /** The coefficient of element b in each part. */
  function CoeffsOf(parts: seq<seq<Term>>, b: GroupElem): seq<Scalar>
  {
    seq(|parts|, k requires 0 <= k < |parts| => CoeffOf(parts[k], b))
  }

  /**
   * What a fold of accumulators denotes: the coefficient of any element is the
   * weighted sum, with the same powers of x, of its coefficients in the parts.
   */
  lemma {:induction false} WeightedMeaning(parts: seq<seq<Term>>, x: Scalar, b: GroupElem)
    ensures CoeffOf(Weighted(parts, x), b) == WeightedSum(CoeffsOf(parts, b), x)
  {
    if |parts| > 0 {
      var n := |parts|;
      var pw := Pow(x, n - 1);
      var c0 := CoeffOf(parts[0], b);
      var cs := CoeffsOf(parts, b);
      assert cs[0] == c0;
      assert cs[1..] == CoeffsOf(parts[1..], b);
      WeightedMeaning(parts[1..], x, b);
      CoeffOfConcat(ScaleTerms(parts[0], pw), Weighted(parts[1..], x), b);
      CoeffOfScale(parts[0], pw, b);
      assert Weighted(parts, x) == ScaleTerms(parts[0], pw) + Weighted(parts[1..], x);
      assert CoeffOf(Weighted(parts, x), b) == Add(Mul(c0, pw), WeightedSum(cs[1..], x));
      assert WeightedSum(cs, x) == Add(Mul(pw, c0), WeightedSum(cs[1..], x));
      MulComm(c0, pw);
    }
  }

  // ---------------------------------------------------------------------------
  // The folds

  /**
   * The inner loop of `verify_proof` over one group's queries: each query must be
   * at the group's point z; `commitment_batch` and `eval_batch` are scaled by v
   * before the query's commitment and evaluation are folded in.
   */
  method FoldQueries(queries: seq<VerifierQuery>, z: Scalar, v: Scalar) returns (r: Option<(Msm, Scalar)>)
    ensures r.Some? <==> forall j :: 0 <= j < |queries| ==> queries[j].point == z
    ensures r.Some? ==> r.value == (Msm(BatchTerms(queries, v)), BatchEval(queries, v))
  {
    var commitmentBatch := EmptyMsm;
    var evalBatch: Scalar := 0;
    var j := 0;
    while j < |queries|
      invariant 0 <= j <= |queries|
      invariant forall k :: 0 <= k < j ==> queries[k].point == z
      invariant commitmentBatch.terms == BatchTerms(queries[..j], v)
      invariant evalBatch == BatchEval(queries[..j], v)
    {
      var query := queries[j];
      if query.point != z {
        return None;
      }
      commitmentBatch := commitmentBatch.Scale(v);
      match query.commitment {
        case Commitment(c) =>
          commitmentBatch := commitmentBatch.AppendTerm(1, c);
        case MsmRef(msm) =>
          commitmentBatch := commitmentBatch.AddMsm(msm);
      }
      evalBatch := Add(Mul(evalBatch, v), query.eval);
      assert queries[..j + 1] == queries[..j] + [query];
      BatchSnoc(queries[..j], query, v);
      j := j + 1;
    }
    assert queries[..j] == queries;
    return Some((commitmentBatch, evalBatch));
  }

  /** The four running values of a fold over well-formed groups, in closed form. */
  function FoldedForm(cds: seq<CommitmentData>, w: seq<GroupElem>, u: Scalar, v: Scalar): Folded
    requires |w| == |cds|
  {
    Folded(Msm(WitnessTerms(w, u)), Msm(WitnessAuxTerms(cds, w, u)),
           Msm(CommitmentMultiTerms(cds, u, v)), EvalMulti(cds, u, v))
  }

  /** One pass of the loop over the groups on the running values f, for a well-formed group cd. */
  function FoldStep(f: Folded, cd: CommitmentData, wi: GroupElem, u: Scalar, v: Scalar): Folded
  {
    Folded(f.witnessMsm.Scale(u).AppendTerm(1, wi),
           f.witnessWithAux.Scale(u).AppendTerm(cd.point, wi),
           f.commitmentMulti.Scale(u).AddMsm(Msm(BatchTerms(cd.queries, v))),
           Add(Mul(f.evalMulti, u), BatchEval(cd.queries, v)))
  }

  /** The running values after the first i passes, starting from empty accumulators and zero. */
  function FoldedUpTo(cds: seq<CommitmentData>, w: seq<GroupElem>, u: Scalar, v: Scalar, i: nat): Folded
    requires |w| == |cds| && i <= |cds|
  {
    if i == 0 then Folded(EmptyMsm, EmptyMsm, EmptyMsm, 0)
    else FoldStep(FoldedUpTo(cds, w, u, v, i - 1), cds[i - 1], w[i - 1], u, v)
  }

  /** One more pass extends the closed forms from the first i - 1 groups to the first i. */
  lemma FoldedFormSnoc(cds: seq<CommitmentData>, w: seq<GroupElem>, i: nat, u: Scalar, v: Scalar)
    requires |w| == |cds| && 0 < i <= |cds|
    ensures FoldedForm(cds[..i], w[..i], u, v) == FoldStep(FoldedForm(cds[..i - 1], w[..i - 1], u, v), cds[i - 1], w[i - 1], u, v)
  {
    assert cds[..i] == cds[..i - 1] + [cds[i - 1]];
    assert w[..i] == w[..i - 1] + [w[i - 1]];
    WitnessSnoc(cds[..i - 1], w[..i - 1], cds[i - 1], w[i - 1], u);
    GroupSnoc(cds[..i - 1], cds[i - 1], u, v);
  }

  /** Horner's rule: i passes of the loop compute the closed forms over the first i groups. */
  lemma {:induction false} FoldedUpToClosed(cds: seq<CommitmentData>, w: seq<GroupElem>, u: Scalar, v: Scalar, i: nat)
    requires |w| == |cds| && i <= |cds|
    ensures FoldedUpTo(cds, w, u, v, i) == FoldedForm(cds[..i], w[..i], u, v)
  {
    if i > 0 {
      FoldedUpToClosed(cds, w, u, v, i - 1);
      FoldedFormSnoc(cds, w, i, u, v);
    }
  }

  /**
   * The loop of `verify_proof` over the groups, zipped with the witness points w:
   * the four running values are scaled by u, then W_i (with coefficients z_i and
   * 1) and the group's batch are folded in.
   */
  method FoldGroups(commitmentData: seq<CommitmentData>, w: seq<GroupElem>, u: Scalar, v: Scalar)
    returns (r: Result<Folded, Error>)
    requires |w| == |commitmentData|
    ensures r == if WellFormed(commitmentData) then Ok(FoldedForm(commitmentData, w, u, v)) else Err(InvalidQuerySet)
  {
    var commitmentMulti := EmptyMsm;
    var evalMulti: Scalar := 0;
    var witnessMsm := EmptyMsm;
    var witnessWithAux := EmptyMsm;
    var i := 0;
    while i < |commitmentData|
      invariant 0 <= i <= |commitmentData|
      invariant forall k :: 0 <= k < i ==> WellFormedGroup(commitmentData[k])
      invariant Folded(witnessMsm, witnessWithAux, commitmentMulti, evalMulti) == FoldedUpTo(commitmentData, w, u, v, i)
    {
      var commitmentAtAPoint := commitmentData[i];
      var wi := w[i];
      if |commitmentAtAPoint.queries| == 0 {
        assert !WellFormedGroup(commitmentData[i]);
        assert !WellFormed(commitmentData);
        return Err(InvalidQuerySet);
      }
      var z := commitmentAtAPoint.point;

      witnessWithAux := witnessWithAux.Scale(u);
      witnessWithAux := witnessWithAux.AppendTerm(z, wi);
      witnessMsm := witnessMsm.Scale(u);
      witnessMsm := witnessMsm.AppendTerm(1, wi);
      commitmentMulti := commitmentMulti.Scale(u);
      evalMulti := Mul(evalMulti, u);

      var batch := FoldQueries(commitmentAtAPoint.queries, z, v);
      if batch.None? {
        assert !WellFormedGroup(commitmentData[i]);
        assert !WellFormed(commitmentData);
        return Err(InvalidQuerySet);
      }
      assert WellFormedGroup(commitmentData[i]);
      var (commitmentBatch, evalBatch) := batch.value;
      commitmentMulti := commitmentMulti.AddMsm(commitmentBatch);
      evalMulti := Add(evalMulti, evalBatch);
      assert FoldedUpTo(commitmentData, w, u, v, i + 1)
          == FoldStep(FoldedUpTo(commitmentData, w, u, v, i), commitmentAtAPoint, wi, u, v);
      i := i + 1;
    }
    FoldedUpToClosed(commitmentData, w, u, v, i);
    assert commitmentData[..i] == commitmentData && w[..i] == w;
    r := Ok(Folded(witnessMsm, witnessWithAux, commitmentMulti, evalMulti));
  }

  /**
   * The witness reads of `verify_proof`: one `read_point` per group, in group order; `collect` stops at
   * the first read that fails, and the failure becomes `SamplingError`.
   */
  method ReadWitnesses(transcript: Transcript, n: nat) returns (r: Result<seq<GroupElem>, Error>)
    modifies transcript
    ensures var k := FirstUndecodable(transcript.proof, old(transcript.pos), n);
            r == if k < n then Err(SamplingError) else Ok(Points(transcript.proof, old(transcript.pos), n))
    ensures var k := FirstUndecodable(transcript.proof, old(transcript.pos), n);
            transcript.log == old(transcript.log) + AbsorbAll(Points(transcript.proof, old(transcript.pos), k))
    ensures var k := FirstUndecodable(transcript.proof, old(transcript.pos), n);
            transcript.pos == if k < n && old(transcript.pos) + k < |transcript.proof|
                              then old(transcript.pos) + k + 1 else old(transcript.pos) + k
  {
    ghost var proof := transcript.proof;
    ghost var pos0 := transcript.pos;
    ghost var log0 := transcript.log;
    var w: seq<GroupElem> := [];
    var i := 0;
    while i < n
      invariant 0 <= i <= n
      invariant i > 0 ==> pos0 + i <= |proof|
      invariant forall p :: pos0 <= p < pos0 + i ==> proof[p].Some?
      invariant w == Points(proof, pos0, i)
      invariant transcript.pos == pos0 + i
      invariant transcript.log == log0 + AbsorbAll(w)
    {
      var p := transcript.ReadPoint();
      if p.None? {
        assert !Decodable(proof, pos0 + i);
        FirstUndecodableIs(proof, pos0, n, i);
        return Err(SamplingError);
      }
      PointsSnoc(proof, pos0, i);
      AbsorbAllSnoc(w, p.value);
      w := w + [p.value];
      i := i + 1;
    }
    FirstUndecodableIs(proof, pos0, n, n);
    return Ok(w);
  }

  /** What one `verify_proof` call yields: its result, and the transcript's new history and cursor. */
  datatype Run = Run(result: Result<Guard, Error>, log: seq<Event>, pos: nat)

  /**
   * The outcome of `verify_proof` on the transcript entries `proof` read from
   * pos0, with history log0, folding into the caller's accumulator acc.
   */
  function VerifyRun(commitmentData: seq<CommitmentData>, proof: seq<Option<GroupElem>>, oracle: seq<Event> -> Scalar,
                     pos0: nat, log0: seq<Event>, acc: DualMsm, g0: GroupElem): Run
  {
    var n := |commitmentData|;
    var v := oracle(log0);
    var k := FirstUndecodable(proof, pos0, n);
    if k < n then
      var afterReads := log0 + [Squeezed(v)] + AbsorbAll(Points(proof, pos0, k));
      Run(Err(SamplingError), afterReads, if pos0 + k < |proof| then pos0 + k + 1 else pos0 + k)
    else
      var w := Points(proof, pos0, n);
      var beforeU := log0 + [Squeezed(v)] + AbsorbAll(w);
      var u := oracle(beforeU);
      var result := if WellFormed(commitmentData) then
                      Ok(Guard(Accumulated(acc, Folded(Msm(WitnessTerms(w, u)),
                                                       Msm(WitnessAuxTerms(commitmentData, w, u)),
                                                       Msm(CommitmentMultiTerms(commitmentData, u, v)),
                                                       EvalMulti(commitmentData, u, v)), g0)))
                    else Err(InvalidQuerySet);
      Run(result, beforeU + [Squeezed(u)], pos0 + n)
  }

  class VerifierGwc {
    const params: ParamsKzg

    constructor (params: ParamsKzg)
      ensures this.params == params
    {
      this.params := params;
    }

    /**
     * `verify_proof`. The transcript is used in this order: squeeze v, read one
     * point per group (stopping at the first that fails), squeeze u. On success
     * the caller's accumulator keeps its terms; `left` gains the witness terms,
     * `right` the witness-with-aux terms, the commitment terms and the term
     * eval_multi * (-g0).
     */
    method VerifyProof(transcript: Transcript, commitmentData: seq<CommitmentData>, msmAccumulator: DualMsm)
      returns (r: Result<Guard, Error>)
      requires |params.g| > 0
      modifies transcript
      ensures var n := |commitmentData|;
              var v := transcript.oracle(old(transcript.log));
              var k := FirstUndecodable(transcript.proof, old(transcript.pos), n);
              k < n ==>
                && r == Err(SamplingError)
                && transcript.log == old(transcript.log) + [Squeezed(v)]
                                     + AbsorbAll(Points(transcript.proof, old(transcript.pos), k))
                && transcript.pos == (if old(transcript.pos) + k < |transcript.proof|
                                      then old(transcript.pos) + k + 1 else old(transcript.pos) + k)
      ensures var n := |commitmentData|;
              var v := transcript.oracle(old(transcript.log));
              FirstUndecodable(transcript.proof, old(transcript.pos), n) == n ==>
                var w := Points(transcript.proof, old(transcript.pos), n);
                var beforeU := old(transcript.log) + [Squeezed(v)] + AbsorbAll(w);
                var u := transcript.oracle(beforeU);
                && transcript.log == beforeU + [Squeezed(u)]
                && transcript.pos == old(transcript.pos) + n
                && r == if WellFormed(commitmentData) then
                          Ok(Guard(Accumulated(msmAccumulator,
                                               Folded(Msm(WitnessTerms(w, u)),
                                                      Msm(WitnessAuxTerms(commitmentData, w, u)),
                                                      Msm(CommitmentMultiTerms(commitmentData, u, v)),
                                                      EvalMulti(commitmentData, u, v)),
                                               params.g[0])))
                        else Err(InvalidQuerySet)
      ensures Run(r, transcript.log, transcript.pos)
              == VerifyRun(commitmentData, transcript.proof, transcript.oracle,
                           old(transcript.pos), old(transcript.log), msmAccumulator, params.g[0])
    {
      var v := transcript.SqueezeChallengeScalar();
      var read := ReadWitnesses(transcript, |commitmentData|);
      if read.Err? {
        return Err(read.error);
      }
      var w := read.value;

      var u := transcript.SqueezeChallengeScalar();

      var folded := FoldGroups(commitmentData, w, u, v);
      if folded.Err? {
        return Err(folded.error);
      }

      var acc := msmAccumulator;
      acc := acc.(left := acc.left.AddMsm(folded.value.witnessMsm));
      acc := acc.(right := acc.right.AddMsm(folded.value.witnessWithAux));
      acc := acc.(right := acc.right.AddMsm(folded.value.commitmentMulti));
      var g0 := params.g[0];
      acc := acc.(right := acc.right.AppendTerm(folded.value.evalMulti, Negated(g0)));
      return Ok(Guard(acc));
    }
  }
}
