# GWC multi-open KZG verifier, modelled in Dafny

This project models the verifier side of halo2's batched KZG multi-open
proof in its GWC variant (`VerifierGWC::verify_proof`) and the batch
verification strategy that drives it (`BatchVerifier::process` and
`finalize`).

`verify_proof` runs in four steps:

1. It squeezes a challenge v from the transcript.
2. It reads one witness point W_i per point-group, stopping at the first
   point that cannot be read.
3. It squeezes a challenge u.
4. It folds the groups with Horner's rule into four running values:
   `witness`, `witness_with_aux`, `commitment_multi` and `eval_multi`.
   The outer fold runs over the groups with base u. The inner fold runs
   over each group's queries with base v.

The results are then added to the caller's dual accumulator. The batch
strategy scales its running accumulator by a fresh random scalar, hands it
to a closure and keeps the accumulator of the guard the closure returns.
`Process` takes that closure as a pure function of the accumulator.
`ProcessGwc` is the same step with the closure that runs `VerifyProof` on
a transcript. `finalize` runs the pairing check once.

Files and modules:

- `field.dfy` (`Field`): scalars are the integers mod P, where P is the
  order of the BN256 scalar field. Addition subtracts P once on overflow,
  and multiplication is repeated addition; `MulIsMod` shows that this is
  the product mod P. The module also proves the ring laws used below.
- `msm.dfy` (`MsmKzg`): the lazy accumulators `MSMKZG` (`Msm`, a list of
  coefficient/element terms), `DualMSM` (`DualMsm`) and `GuardKZG`
  (`Guard`). Group elements are opaque tokens, and `Negated(g)` stands for
  -g. `CoeffOf` reads off the formal linear combination that the terms
  denote, and the lemmas state what `scale`, `append_term` and `add_msm`
  mean for it.
- `transcript.dfy` (`Transcripts`): the transcript is a stream of encoded
  points read by a cursor. A challenge is a fixed function (`oracle`) of the
  history of absorbed points and earlier challenges.
- `gwc_verifier.dfy` (`Gwc`): the queries, the groups and the verifier.
  The inner loop is `FoldQueries`, the loop over groups is `FoldGroups` and
  the whole of `verify_proof` is `VerifierGwc.VerifyProof`. Each fold is
  specified by a closed form in which item k of n is weighted by
  x^(n-1-k): `Weighted` for accumulators and `WeightedSum` for scalars.
  The reading loop is `ReadWitnesses`. The loop over groups also has a
  step-by-step description, `FoldStep` applied i times (`FoldedUpTo`), and
  `FoldedUpToClosed` equates the two. `VerifyRun` gives the whole outcome
  of one `verify_proof` call: its result, and the transcript's new history
  and cursor.
- `batch_verifier.dfy` (`Strategy`): `BatchVerifier` with `Process`,
  `ProcessGwc` and `Finalize`.
- `wrappers.dfy` (`Wrappers`): `Option` and `Result`.

The groups that `construct_intermediate_sets` produces are an input of the
model (`seq<CommitmentData>`). Where the source asserts on a group (line 74:
the group is not empty; line 88: every query is at the group's point), it
panics. The model returns the distinct outcome `Err(InvalidQuerySet)`
instead. Those checks come after all transcript reads, so a failed point
read (`SamplingError`) takes precedence over them.

## Model

| member | source | states |
|---|---|---|
| `MsmKzg.CoeffOfScale` | halo2_proofs/src/poly/kzg/multiopen/gwc/verifier.rs:77-82 | `scale(s)` multiplies the coefficient of every group element in the denoted linear combination by s |
| `MsmKzg.CoeffOfConcat` | halo2_proofs/src/poly/kzg/multiopen/gwc/verifier.rs:110-113 | concatenating term lists adds the denoted linear combinations, element by element |
| `MsmKzg.AppendAndMergeMeaning` | halo2_proofs/src/poly/kzg/multiopen/gwc/verifier.rs:93-101 | `add_msm` adds the other accumulator's linear combination; `append_term(c, g)` adds c to the coefficient of g and to no other element |
| `MsmKzg.ScaleZero` | halo2_proofs/src/poly/kzg/multiopen/gwc/verifier.rs:77-81 | scaling an accumulator that denotes zero leaves it denoting zero, for every scalar |
| `MsmKzg.DualScaleMeaning` | halo2_proofs/src/poly/kzg/multiopen/gwc/verifier.rs:135 | `DualMSM::scale(s)` multiplies every coefficient on both the left and the right side by the same s |
| `Transcripts.Transcript.SqueezeChallengeScalar` | halo2_proofs/src/poly/kzg/multiopen/gwc/verifier.rs:57 | the challenge is the oracle's value on the history so far, it is appended to the history, and the read cursor does not move |
| `Transcripts.Transcript.ReadPoint` | halo2_proofs/src/poly/kzg/multiopen/gwc/verifier.rs:62 | returns the next entry; only a decoded point joins the history; at the end of the stream the read fails and consumes nothing |
| `Transcripts.FirstUndecodable` | halo2_proofs/src/poly/kzg/multiopen/gwc/verifier.rs:61-63 | the number of reads that succeed before the first failure: every entry before it decodes, and the entry at it does not (unless all n reads succeed) |
| `Gwc.WeightedSumSnoc` | halo2_proofs/src/poly/kzg/multiopen/gwc/verifier.rs:103 | one Horner step `acc * x + y` turns the closed form over n items into the closed form over n + 1 items |
| `Gwc.WeightedSnoc` | halo2_proofs/src/poly/kzg/multiopen/gwc/verifier.rs:93-101 | one accumulator Horner step (scale by x, then append or merge the next terms) turns the closed form over n parts into the closed form over n + 1 parts |
| `Gwc.BatchSnoc` | halo2_proofs/src/poly/kzg/multiopen/gwc/verifier.rs:93-103 | folding one more query extends `commitment_batch` and `eval_batch` by one item of their closed forms |
| `Gwc.GroupSnoc` | halo2_proofs/src/poly/kzg/multiopen/gwc/verifier.rs:81-107 | folding one more group extends `commitment_multi` and `eval_multi` by one item of their closed forms |
| `Gwc.WitnessSnoc` | halo2_proofs/src/poly/kzg/multiopen/gwc/verifier.rs:77-80 | scaling by u and appending W (with coefficient 1, or with z) extends the closed forms of `witness` and `witness_with_aux` by one group |
| `Gwc.ScaledBatch` | halo2_proofs/src/poly/kzg/multiopen/gwc/verifier.rs:81-106 | a group's batch scaled by f equals each query's terms scaled by v^(n-1-j) * f, in query order |
| `Gwc.CommitmentMultiExplicit` | halo2_proofs/src/poly/kzg/multiopen/gwc/verifier.rs:81-106 | `commitment_multi` holds, in group and then query order, one term (1 * C) for a direct commitment and every term of a nested accumulator, each with coefficient times v^(n_i-1-j) * u^(N-1-i) |
| `Gwc.WeightedMeaning` | halo2_proofs/src/poly/kzg/multiopen/gwc/verifier.rs:77-106 | in a folded accumulator, the coefficient of any element is the weighted sum, with the same powers, of its coefficients in the folded parts |
| `Gwc.ReadWitnesses` | halo2_proofs/src/poly/kzg/multiopen/gwc/verifier.rs:61-63 | reads one point per group in order and stops at the first entry that does not decode: it then fails with `SamplingError` and has absorbed exactly the points before it; otherwise it returns every point read, all absorbed, and the cursor has advanced by n |
| `Gwc.FoldedFormSnoc` | halo2_proofs/src/poly/kzg/multiopen/gwc/verifier.rs:77-106 | one pass of the loop over a group (scale the four running values by u, append W and z*W, merge the group's batch, add its eval_batch) turns the closed forms over the first i - 1 groups into those over the first i |
| `Gwc.FoldedUpToClosed` | halo2_proofs/src/poly/kzg/multiopen/gwc/verifier.rs:67-108 | after i passes of the loop from empty accumulators and zero, the four running values are exactly the closed forms over the first i groups |
| `Gwc.FoldQueries` | halo2_proofs/src/poly/kzg/multiopen/gwc/verifier.rs:84-104 | succeeds exactly when every query is at the group's point; `commitment_batch` is then the queries' terms weighted by v^(n-1-j), and `eval_batch` is the sum of v^(n-1-j) * eval_j |
| `Gwc.FoldGroups` | halo2_proofs/src/poly/kzg/multiopen/gwc/verifier.rs:67-108 | succeeds exactly when every group is non-empty and consistent. `witness` is then N terms W_i with coefficients u^(N-1-i), and `witness_with_aux` is the same with z_i * u^(N-1-i). `commitment_multi` is each group's batch weighted by u^(N-1-i), and `eval_multi` is the sum over i of u^(N-1-i) times the sum over j of v^(n_i-1-j) * eval_ij |
| `Gwc.VerifierGwc.VerifyProof` | halo2_proofs/src/poly/kzg/multiopen/gwc/verifier.rs:57-117 | The transcript is used in exactly this order: v, then one read per group, then u. On the first failed read it returns `SamplingError`, with no further read and no u. Otherwise it fails exactly on a malformed group. On success, `left` keeps its terms and gains the witness terms. `right` keeps its terms and gains the witness-with-aux terms, then the commitment terms, then (eval_multi, -g0) |
| `Strategy.BatchVerifier.Process` | halo2_proofs/src/poly/kzg/multiopen/gwc/verifier.rs:131-140 | draws exactly one random scalar, scales both sides of the running accumulator by it before calling f, keeps the guard's accumulator on success, and returns f's error unchanged |
| `Strategy.BatchVerifier.ProcessGwc` | halo2_proofs/src/poly/kzg/multiopen/gwc/verifier.rs:131-140 | `process` with the closure that runs `verify_proof`: draws one random scalar and scales both sides before the call. The transcript's history and cursor end exactly as that one `verify_proof` call leaves them. The running accumulator becomes the guard's on success and stays the scaled one after `SamplingError` or `InvalidQuerySet` |
| `Strategy.BatchVerifier.Finalize` | halo2_proofs/src/poly/kzg/multiopen/gwc/verifier.rs:142-144 | the verdict is exactly the pairing check of the running accumulator |
| `Strategy.BatchStep` | halo2_proofs/src/poly/kzg/multiopen/gwc/verifier.rs:110-140 | after a batch step with the GWC verifier, each element's coefficient on each side is its earlier coefficient times the random scalar plus this proof's contribution |

## Left out

- The pairing check inside `DualMSM::check`: a parameter of `BatchVerifier` (`pairingCheck`). Pairings and Miller loops are not modelled.
- Elliptic-curve arithmetic: group elements are opaque tokens. Negation (`-g0`) is the constructor `Negated`, and the `.into()` conversions are the identity.
- Evaluating an accumulator as one multi-scalar multiplication, and any parallelism in it: an accumulator is only its term list, read through `CoeffOf`.
- The transcript's hashing and the byte encoding of points: the oracle is a function of the history, and the proof is a list of entries that decode or do not. How many bytes a failed read consumes is the model's choice (one entry, or none at the end of the stream).
- The random number generator: it is the sequence of scalars it yields (`rng`, indexed by the number drawn so far).
- `construct_intermediate_sets` is not part of this model: its output is an input of `VerifyProof`, and the grouping rules it follows (first-occurrence order, a partition by point) are not checked.
- The panics at the two assertions: they are modelled as the error outcome `InvalidQuerySet`, not as an abort.
- Strategy.BatchVerifier.Process: after an error from f, the source has consumed the verifier. The model keeps the object, holding the scaled accumulator. Its f is a pure function of the accumulator, so the effects of the source's `FnOnce` closure (the transcript reads of `verify_proof`) are not part of `Process`. `ProcessGwc` models the step with that closure, transcript effects included. `BatchStep` states the coefficients after a successful step.
- The trivial constructors `new` and `with`, lifetimes, `PhantomData` and the generic `Engine` parameter. Scalars are fixed to the BN256 scalar field, but no proof depends on the value of P beyond P > 1.
- The panic of `self.params.g[0]` on empty parameters: `VerifyProof` requires at least one generator, which every `ParamsKZG` has (it holds 2^k >= 1 of them).
- Efficient field multiplication: `Field.Mul` is repeated addition, which keeps the proofs linear but would not run in practical time if compiled; `MulIsMod` proves it equals the product modulo P.
