/**
 * The verifier's view of a Fiat-Shamir transcript (`TranscriptRead`): a stream
 * of encoded points read by a cursor, and challenges that are a deterministic
 * function of everything absorbed or squeezed so far. The hash is a parameter
 * (`oracle`); an entry of `proof` that is `None` stands for bytes that do not
 * decode to a curve point.
 */
module Transcripts {
  import opened Wrappers
  import opened Field
  import opened MsmKzg

  /** What the transcript's hash state has taken in, in order. */
  datatype Event = Squeezed(challenge: Scalar) | Absorbed(point: GroupElem)

  class Transcript {
    const proof: seq<Option<GroupElem>>
    const oracle: seq<Event> -> Scalar
    var pos: nat
    var log: seq<Event>

    constructor (proof: seq<Option<GroupElem>>, oracle: seq<Event> -> Scalar)
      ensures this.proof == proof && this.oracle == oracle
      ensures pos == 0 && log == []
    {
      this.proof := proof;
      this.oracle := oracle;
      pos := 0;
      log := [];
    }

    /** `squeeze_challenge_scalar`: the challenge determined by the history; it joins the history. */
    method SqueezeChallengeScalar() returns (c: Scalar)
      modifies this
      ensures c == oracle(old(log))
      ensures log == old(log) + [Squeezed(c)] && pos == old(pos)
    {
      c := oracle(log);
      log := log + [Squeezed(c)];
    }

    /**
     * `read_point`: the next encoded point. Its bytes are consumed whether or not
     * they decode; only a decoded point is absorbed. At the end of the stream
     * nothing is consumed and the read fails.
     */
    method ReadPoint() returns (p: Option<GroupElem>)
      modifies this
      ensures old(pos) < |proof| ==> pos == old(pos) + 1 && p == proof[old(pos)]
      ensures old(pos) >= |proof| ==> pos == old(pos) && p == None
      ensures log == if p.Some? then old(log) + [Absorbed(p.value)] else old(log)
    {
      if pos < |proof| {
        p := proof[pos];
        pos := pos + 1;
        if p.Some? {
          log := log + [Absorbed(p.value)];
        }
      } else {
        p := None;
      }
    }
  }

  /** The entry at position p exists and decodes. */
  predicate Decodable(proof: seq<Option<GroupElem>>, p: nat)
  {
    p < |proof| && proof[p].Some?
  }

  /**
   * How many of the n reads starting at pos succeed before the first failure
   * (n when none fails): reading stops at the first failure.
   */
  function FirstUndecodable(proof: seq<Option<GroupElem>>, pos: nat, n: nat): (k: nat)
    ensures k <= n
    ensures k > 0 ==> pos + k <= |proof|
    ensures forall p :: pos <= p < pos + k ==> proof[p].Some?
    ensures k < n ==> !Decodable(proof, pos + k)
    decreases n
  {
    if n == 0 || !Decodable(proof, pos) then 0
    else 1 + FirstUndecodable(proof, pos + 1, n - 1)
  }

  /** The points decoded from the k entries at pos. */
  function Points(proof: seq<Option<GroupElem>>, pos: nat, k: nat): (ws: seq<GroupElem>)
    requires k > 0 ==> pos + k <= |proof|
    requires forall p :: pos <= p < pos + k ==> proof[p].Some?
    ensures |ws| == k
    ensures forall p :: pos <= p < pos + k ==> proof[p] == Some(ws[p - pos])
  {
    seq(k, j requires 0 <= j < k => proof[pos + j].value)
  }

  /** The history entries absorbing ws, in order. */
  function AbsorbAll(ws: seq<GroupElem>): seq<Event>
  {
    seq(|ws|, j requires 0 <= j < |ws| => Absorbed(ws[j]))
  }

  /** The count of successful reads is the one position where reading stopped. */
  lemma FirstUndecodableIs(proof: seq<Option<GroupElem>>, pos: nat, n: nat, i: nat)
    requires i <= n
    requires i > 0 ==> pos + i <= |proof|
    requires forall p :: pos <= p < pos + i ==> proof[p].Some?
    requires i < n ==> !Decodable(proof, pos + i)
    ensures FirstUndecodable(proof, pos, n) == i
  {
    var k := FirstUndecodable(proof, pos, n);
    assert k < n ==> !Decodable(proof, pos + k);
    assert forall p :: pos <= p < pos + k ==> proof[p].Some?;
  }

  lemma PointsSnoc(proof: seq<Option<GroupElem>>, pos: nat, i: nat)
    requires pos + i < |proof|
    requires forall p :: pos <= p <= pos + i ==> proof[p].Some?
    ensures Points(proof, pos, i + 1) == Points(proof, pos, i) + [proof[pos + i].value]
  {
  }

  lemma AbsorbAllSnoc(ws: seq<GroupElem>, x: GroupElem)
    ensures AbsorbAll(ws + [x]) == AbsorbAll(ws) + [Absorbed(x)]
  {
  }
}
