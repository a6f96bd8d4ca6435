/**
 * `BatchVerifier` as a verification strategy for the GWC verifier: one running
 * dual accumulator for many proofs, re-randomised by a fresh scalar before each
 * proof is folded in, and a single pairing check at the end. The random source
 * is the sequence of scalars it yields (`rng`); the pairing check of `DualMSM`
 * is a parameter (`pairingCheck`).
 */
module Strategy {
  import opened Wrappers
  import opened Field
  import opened MsmKzg
  import Gwc
  import Transcripts

  class BatchVerifier {
    var msmAccumulator: DualMsm
    const rng: nat -> Scalar
    var drawn: nat
    const pairingCheck: DualMsm -> bool

    constructor (rng: nat -> Scalar, pairingCheck: DualMsm -> bool)
      ensures msmAccumulator == EmptyDualMsm && drawn == 0
      ensures this.rng == rng && this.pairingCheck == pairingCheck
    {
      msmAccumulator := EmptyDualMsm;
      this.rng := rng;
      drawn := 0;
      this.pairingCheck := pairingCheck;
    }

    /**
     * `process`: scale the running accumulator by the next random scalar, hand
     * it to f, and keep the accumulator of the guard f returns. An error from f
     * is returned as it is; the source then has no verifier left, and the model
     * keeps the scaled accumulator. Here f is a pure function of the
     * accumulator; `ProcessGwc` is the same step with the closure that runs the
     * GWC verifier on a transcript.
     */
    method Process<E>(f: DualMsm -> Result<Guard, E>) returns (r: Result<(), E>)
      modifies this
      ensures drawn == old(drawn) + 1
      ensures var scaled := old(msmAccumulator).Scale(rng(old(drawn)));
              match f(scaled)
              case Ok(guard) => r == Ok(()) && msmAccumulator == guard.msmAccumulator
              case Err(e) => r == Err(e) && msmAccumulator == scaled
    {
      var s := rng(drawn);
      drawn := drawn + 1;
      msmAccumulator := msmAccumulator.Scale(s);
      var guard := f(msmAccumulator);
      if guard.Err? {
        return Err(guard.error);
      }
      msmAccumulator := guard.value.msmAccumulator;
      return Ok(());
    }

    /**
     * `process` with the usual closure, which runs `verify_proof` of the GWC
     * verifier on the scaled accumulator: the transcript moves exactly as that
     * call moves it, and the running accumulator becomes the guard's on success
     * and stays the scaled one on either error.
     */
    method ProcessGwc(verifier: Gwc.VerifierGwc, transcript: Transcripts.Transcript,
                      commitmentData: seq<Gwc.CommitmentData>) returns (r: Result<(), Gwc.Error>)
      requires |verifier.params.g| > 0
      modifies this, transcript
      ensures drawn == old(drawn) + 1
      ensures var scaled := old(msmAccumulator).Scale(rng(old(drawn)));
              var run := Gwc.VerifyRun(commitmentData, transcript.proof, transcript.oracle,
                                       old(transcript.pos), old(transcript.log), scaled, verifier.params.g[0]);
              && transcript.log == run.log
              && transcript.pos == run.pos
              && match run.result
                 case Ok(guard) => r == Ok(()) && msmAccumulator == guard.msmAccumulator
                 case Err(e) => r == Err(e) && msmAccumulator == scaled
    {
      var s := rng(drawn);
      drawn := drawn + 1;
      msmAccumulator := msmAccumulator.Scale(s);
      var guard := verifier.VerifyProof(transcript, commitmentData, msmAccumulator);
      if guard.Err? {
        return Err(guard.error);
      }
      msmAccumulator := guard.value.msmAccumulator;
      return Ok(());
    }

    /** `finalize`: the verdict is the pairing check of the running accumulator. */
    method Finalize() returns (accepted: bool)
      ensures accepted == pairingCheck(msmAccumulator)
    {
      accepted := pairingCheck(msmAccumulator);
    }
  }

  /**
   * One successful `ProcessGwc` step, whose guard holds `Gwc.Accumulated` of the
   * scaled accumulator and the folded values: in the new running accumulator
   * every element's coefficient is its old coefficient times the random scalar
   * r, plus what this proof contributes with weight 1, on each side.
   */
  lemma BatchStep(acc: DualMsm, r: Scalar, f: Gwc.Folded, g0: GroupElem, b: GroupElem)
    ensures var next := Gwc.Accumulated(acc.Scale(r), f, g0);
            CoeffOf(next.left.terms, b) == Add(Mul(CoeffOf(acc.left.terms, b), r), CoeffOf(f.witnessMsm.terms, b))
    ensures var next := Gwc.Accumulated(acc.Scale(r), f, g0);
            var added := f.witnessWithAux.terms + f.commitmentMulti.terms + [Term(f.evalMulti, Negated(g0))];
            CoeffOf(next.right.terms, b) == Add(Mul(CoeffOf(acc.right.terms, b), r), CoeffOf(added, b))
  {
    var scaled := acc.Scale(r);
    var added := f.witnessWithAux.terms + f.commitmentMulti.terms + [Term(f.evalMulti, Negated(g0))];
    DualScaleMeaning(acc, r, b);
    CoeffOfConcat(scaled.left.terms, f.witnessMsm.terms, b);
    assert scaled.right.terms + f.witnessWithAux.terms + f.commitmentMulti.terms + [Term(f.evalMulti, Negated(g0))]
        == scaled.right.terms + added;
    CoeffOfConcat(scaled.right.terms, added, b);
  }
}
