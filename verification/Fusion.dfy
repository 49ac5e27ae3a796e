/** Reciprocal-rank fusion of a vector lane and a lexical lane (policy/retrieval.py), over the
    reals. */
module Fusion {
  import opened Domain
  import opened FiniteSets
  import opened Sorting

  const RRF_K := 60

  /** A candidate chunk with its similarity and how many of its search terms the query contains. */
  datatype Candidate = Candidate(
    chunkId: Id, similarity: real, matches: nat, terms: nat, authority: int, effectiveFrom: Time)

  datatype Request = Request(minimumSimilarity: real, topK: nat)

  datatype Evidence = Evidence(
    chunkId: Id, vectorRank: Option<nat>, lexicalRank: Option<nat>, score: real, authority: int, effectiveFrom: Time)

  function LexicalScore(c: Candidate): real {
    if c.terms == 0 then 0.0 else c.matches as real / c.terms as real
  }

  /** A lane's score for a candidate, when the candidate is in the lane at all. */
  function VectorScore(r: Request, c: Candidate): Option<real> {
    if c.similarity >= r.minimumSimilarity then Some(c.similarity) else None
  }

  function LexicalLane(c: Candidate): Option<real> {
    if LexicalScore(c) > 0.0 then Some(LexicalScore(c)) else None
  }

  /** The distinct scores of a lane above `score`. */
  function Above(scores: seq<Option<real>>, score: real): set<real> {
    set k | 0 <= k < |scores| && scores[k].Some? && scores[k].value > score :: scores[k].value
  }

  /** Dense rank: one more than the number of distinct better scores. */
  function RankOf(scores: seq<Option<real>>, score: Option<real>): Option<nat> {
    if score.None? then None else Some(1 + |Above(scores, score.value)|)
  }

  function VectorScores(r: Request, candidates: seq<Candidate>): seq<Option<real>> {
    seq(|candidates|, k requires 0 <= k < |candidates| => VectorScore(r, candidates[k]))
  }

  function LexicalScores(candidates: seq<Candidate>): seq<Option<real>> {
    seq(|candidates|, k requires 0 <= k < |candidates| => LexicalLane(candidates[k]))
  }

  function LaneTerm(rank: Option<nat>): real {
    if rank.None? then 0.0 else 1.0 / (RRF_K + rank.value) as real
  }

  /** The two lanes' reciprocal ranks, scaled so that two first places make one. */
  function FusionScore(vectorRank: Option<nat>, lexicalRank: Option<nat>): real {
    (LaneTerm(vectorRank) + LaneTerm(lexicalRank)) / (2.0 / (RRF_K + 1) as real)
  }

  function EvidenceFor(r: Request, candidates: seq<Candidate>, c: Candidate): Evidence {
    var v := RankOf(VectorScores(r, candidates), VectorScore(r, c));
    var l := RankOf(LexicalScores(candidates), LexicalLane(c));
    Evidence(c.chunkId, v, l, FusionScore(v, l), c.authority, c.effectiveFrom)
  }

  /** In at least one lane. */
  predicate Supported(r: Request, c: Candidate) {
    VectorScore(r, c).Some? || LexicalLane(c).Some?
  }

  // ----- Scores -----

  lemma SmallerAbove(scores: seq<Option<real>>, low: real, high: real)
    requires low <= high
    ensures |Above(scores, high)| <= |Above(scores, low)|
    ensures low < high && Some(high) in scores ==> |Above(scores, high)| < |Above(scores, low)|
  {
    var a, b := Above(scores, high), Above(scores, low);
    assert a <= b;
    SubsetIsSmaller(a, b);
    if low < high && Some(high) in scores {
      var k :| 0 <= k < |scores| && scores[k] == Some(high);
      assert high in b && high !in a;
      assert a <= b - {high};
      SubsetIsSmaller(a, b - {high});
    }
  }

  /** A better rank earns more, a missing lane least, and no lane more than a first place. */
  lemma TermsFollowRanks(a: Option<nat>, b: Option<nat>)
    requires a.Some? ==> a.value >= 1
    requires b.Some? ==> b.value >= 1
    ensures 0.0 <= LaneTerm(a) <= 1.0 / (RRF_K + 1) as real
    ensures a.Some? && b.Some? && a.value <= b.value ==> LaneTerm(a) >= LaneTerm(b)
    ensures a.Some? && b.Some? && a.value < b.value ==> LaneTerm(a) > LaneTerm(b)
    ensures a.Some? && b.None? ==> LaneTerm(a) > LaneTerm(b)
  {
    if a.Some? {
      Reciprocals(61.0, (60 + a.value) as real);
      if b.Some? && a.value <= b.value {
        Reciprocals((60 + a.value) as real, (60 + b.value) as real);
      }
    }
  }

  lemma Reciprocals(x: real, y: real)
    requires 0.0 < x <= y
    ensures 0.0 < 1.0 / y <= 1.0 / x
    ensures x < y ==> 1.0 / y < 1.0 / x
  {
    var p, q := 1.0 / x, 1.0 / y;
    assert p * x == 1.0 && q * y == 1.0 && p > 0.0 && q > 0.0;
    assert p - q == (p * q) * (y - x) by {
      assert (p * q) * y == p * (q * y) && (p * q) * x == q * (p * x);
    }
  }

  /** At least as good on both lanes; a lane the other is missing from counts as better. */
  predicate AtLeastAsGood(r: Request, a: Candidate, b: Candidate) {
    && (VectorScore(r, b).Some? ==> VectorScore(r, a).Some? && VectorScore(r, a).value >= VectorScore(r, b).value)
    && (LexicalLane(b).Some? ==> LexicalLane(a).Some? && LexicalLane(a).value >= LexicalLane(b).value)
  }

  /** Strictly better on some lane. */
  predicate BetterSomewhere(r: Request, a: Candidate, b: Candidate) {
    || (VectorScore(r, a).Some? && (VectorScore(r, b).None? || VectorScore(r, a).value > VectorScore(r, b).value))
    || (LexicalLane(a).Some? && (LexicalLane(b).None? || LexicalLane(a).value > LexicalLane(b).value))
  }

  lemma LaneFollowsScores(scores: seq<Option<real>>, a: Option<real>, b: Option<real>)
    requires a in scores && b in scores && (b.Some? ==> a.Some? && a.value >= b.value)
    ensures LaneTerm(RankOf(scores, a)) >= LaneTerm(RankOf(scores, b))
    ensures a.Some? && (b.None? || a.value > b.value) ==> LaneTerm(RankOf(scores, a)) > LaneTerm(RankOf(scores, b))
    ensures 0.0 <= LaneTerm(RankOf(scores, a)) <= 1.0 / (RRF_K + 1) as real
  {
    hide Above, LaneTerm;
    if a.Some? && b.Some? {
      SmallerAbove(scores, b.value, a.value);
    }
    TermsFollowRanks(RankOf(scores, a), RankOf(scores, b));
    TermsFollowRanks(RankOf(scores, b), RankOf(scores, b));
    MissingLane();
  }

  lemma MissingLane()
    ensures LaneTerm(None) == 0.0
  {
  }

  /** A candidate's terms on the two lanes: its score is their sum, scaled. */
  function VectorTerm(r: Request, candidates: seq<Candidate>, c: Candidate): real {
    LaneTerm(RankOf(VectorScores(r, candidates), VectorScore(r, c)))
  }

  function LexicalTerm(candidates: seq<Candidate>, c: Candidate): real {
    LaneTerm(RankOf(LexicalScores(candidates), LexicalLane(c)))
  }

  lemma ScoreIsScaledSum(r: Request, candidates: seq<Candidate>, c: Candidate)
    ensures EvidenceFor(r, candidates, c).score == (VectorTerm(r, candidates, c) + LexicalTerm(candidates, c)) * 30.5
  {
    hide LaneTerm, RankOf, LexicalScore, VectorScore, LexicalLane;
    ScaledSum(VectorTerm(r, candidates, c), LexicalTerm(candidates, c));
  }

  lemma TermsFollowLanes(r: Request, candidates: seq<Candidate>, a: Candidate, b: Candidate)
    requires a in candidates && b in candidates
    ensures 0.0 <= VectorTerm(r, candidates, a) <= 1.0 / (RRF_K + 1) as real
    ensures 0.0 <= LexicalTerm(candidates, a) <= 1.0 / (RRF_K + 1) as real
    ensures AtLeastAsGood(r, a, b) ==>
      VectorTerm(r, candidates, a) >= VectorTerm(r, candidates, b) && LexicalTerm(candidates, a) >= LexicalTerm(candidates, b)
    ensures AtLeastAsGood(r, a, b) && BetterSomewhere(r, a, b) ==>
      VectorTerm(r, candidates, a) > VectorTerm(r, candidates, b) || LexicalTerm(candidates, a) > LexicalTerm(candidates, b)
  {
    var vs, ls := VectorScores(r, candidates), LexicalScores(candidates);
    var i :| 0 <= i < |candidates| && candidates[i] == a;
    var j :| 0 <= j < |candidates| && candidates[j] == b;
    assert vs[i] == VectorScore(r, a) && vs[j] == VectorScore(r, b) && ls[i] == LexicalLane(a) && ls[j] == LexicalLane(b);
    hide LaneTerm, RankOf, LexicalScore, VectorScore, LexicalLane;
    LaneFollowsScores(vs, VectorScore(r, a), VectorScore(r, a));
    LaneFollowsScores(ls, LexicalLane(a), LexicalLane(a));
    if AtLeastAsGood(r, a, b) {
      LaneFollowsScores(vs, VectorScore(r, a), VectorScore(r, b));
      LaneFollowsScores(ls, LexicalLane(a), LexicalLane(b));
    }
  }

  /** Every fusion score is between 0 and 1. A candidate at least as good on both lanes never scores
      lower, missing lanes included, and one that is also better somewhere scores higher. */
  lemma ScoresFollowLanes(r: Request, candidates: seq<Candidate>, a: Candidate, b: Candidate)
    requires a in candidates && b in candidates
    ensures var x, y := EvidenceFor(r, candidates, a).score, EvidenceFor(r, candidates, b).score;
      && 0.0 <= x <= 1.0
      && (AtLeastAsGood(r, a, b) ==> x >= y)
      && (AtLeastAsGood(r, a, b) && BetterSomewhere(r, a, b) ==> x > y)
  {
    hide EvidenceFor, VectorTerm, LexicalTerm, AtLeastAsGood, BetterSomewhere;
    ScoreIsScaledSum(r, candidates, a);
    ScoreIsScaledSum(r, candidates, b);
    TermsFollowLanes(r, candidates, a, b);
  }

  lemma ScaledSum(p: real, q: real)
    ensures (p + q) / (2.0 / (RRF_K + 1) as real) == (p + q) * 30.5
  {
    assert 2.0 / 61.0 * 30.5 == 1.0;
  }

  lemma FirstPlaceTerm(scores: seq<Option<real>>, a: Option<real>)
    ensures LaneTerm(RankOf(scores, a)) == 1.0 / (RRF_K + 1) as real <==>
      a.Some? && forall k :: 0 <= k < |scores| && scores[k].Some? ==> scores[k].value <= a.value
    ensures 0.0 <= LaneTerm(RankOf(scores, a)) <= 1.0 / (RRF_K + 1) as real
  {
    if a.Some? {
      var above := Above(scores, a.value);
      Reciprocals(61.0, (61 + |above|) as real);
      if k :| 0 <= k < |scores| && scores[k].Some? && scores[k].value > a.value {
        assert scores[k].value in above;
        assert |above| > 0;
      } else {
        assert above == {};
      }
    }
  }

  /** No candidate is ahead of `a` on either lane, and `a` is on both. */
  predicate FirstOnBoth(r: Request, candidates: seq<Candidate>, a: Candidate) {
    && VectorScore(r, a).Some? && LexicalLane(a).Some?
    && forall b :: b in candidates ==>
         && (VectorScore(r, b).Some? ==> VectorScore(r, b).value <= VectorScore(r, a).value)
         && (LexicalLane(b).Some? ==> LexicalLane(b).value <= LexicalLane(a).value)
  }

  /** The full score is reached exactly by a first place on both lanes, and none exactly by being on
      neither. */
  lemma ExtremeScores(r: Request, candidates: seq<Candidate>, a: Candidate)
    ensures EvidenceFor(r, candidates, a).score == 1.0 <==> FirstOnBoth(r, candidates, a)
    ensures EvidenceFor(r, candidates, a).score == 0.0 <==> !Supported(r, a)
  {
    var vs, ls := VectorScores(r, candidates), LexicalScores(candidates);
    assert FirstOnBoth(r, candidates, a) <==>
      && (VectorScore(r, a).Some? && forall k :: 0 <= k < |vs| && vs[k].Some? ==> vs[k].value <= VectorScore(r, a).value)
      && (LexicalLane(a).Some? && forall k :: 0 <= k < |ls| && ls[k].Some? ==> ls[k].value <= LexicalLane(a).value) by {
      hide LexicalScore, VectorScore, LexicalLane;
      assert forall k :: 0 <= k < |candidates| ==> candidates[k] in candidates && vs[k] == VectorScore(r, candidates[k]) && ls[k] == LexicalLane(candidates[k]);
    }
    FirstPlaceTerm(vs, VectorScore(r, a));
    FirstPlaceTerm(ls, LexicalLane(a));
    var p, q := LaneTerm(RankOf(vs, VectorScore(r, a))), LaneTerm(RankOf(ls, LexicalLane(a)));
    PositiveTerm(vs, VectorScore(r, a));
    PositiveTerm(ls, LexicalLane(a));
    hide LaneTerm, RankOf, LexicalScore, VectorScore, LexicalLane, FirstOnBoth;
    ScaledSum(p, q);
    assert (p + q) * 30.5 == 1.0 <==> p + q == 2.0 / 61.0;
  }

  lemma PositiveTerm(scores: seq<Option<real>>, a: Option<real>)
    ensures LaneTerm(RankOf(scores, a)) > 0.0 <==> a.Some?
  {
    if a.Some? {
      Reciprocals(61.0, (61 + |Above(scores, a.value)|) as real);
    }
  }

  // ----- The answer -----

  /** Higher score, then higher authority, then later effect, then smaller id. */
  predicate Outranks(a: Evidence, b: Evidence) {
    || a.score > b.score
    || (a.score == b.score && a.authority > b.authority)
    || (a.score == b.score && a.authority == b.authority && a.effectiveFrom > b.effectiveFrom)
    || (a.score == b.score && a.authority == b.authority && a.effectiveFrom == b.effectiveFrom && a.chunkId < b.chunkId)
  }

  const BEST_FIRST: (Evidence, Evidence) -> bool := (a: Evidence, b: Evidence) => Outranks(a, b)

  predicate DistinctChunks(candidates: seq<Candidate>) {
    forall i, j :: 0 <= i < j < |candidates| ==> candidates[i].chunkId != candidates[j].chunkId
  }

  /** `e` is the evidence of the `k`-th candidate, which is in some lane. */
  predicate Supports(r: Request, candidates: seq<Candidate>, k: nat, e: Evidence)
    requires k < |candidates|
  {
    Supported(r, candidates[k]) && e == EvidenceFor(r, candidates, candidates[k])
  }

  /** The answer is the first `topK` of the supported candidates' evidence in one strict order. */
  ghost predicate BestEvidence(r: Request, candidates: seq<Candidate>, answer: seq<Evidence>) {
    && |answer| <= r.topK
    && (forall i, j :: 0 <= i < j < |answer| ==> Outranks(answer[i], answer[j]))
    && (forall e :: e in answer ==> exists k :: 0 <= k < |candidates| && Supports(r, candidates, k, e))
    && (forall k :: 0 <= k < |candidates| && Supported(r, candidates[k]) ==>
          var e := EvidenceFor(r, candidates, candidates[k]);
          e in answer || (|answer| == r.topK && forall i :: 0 <= i < |answer| ==> Outranks(answer[i], e)))
  }

  method FuseCandidates(r: Request, candidates: seq<Candidate>) returns (answer: seq<Evidence>)
    requires DistinctChunks(candidates)
    ensures BestEvidence(r, candidates, answer)
  {
    hide EvidenceFor, Supported;
    var evidence: seq<Evidence> := [];
    ghost var of: seq<nat> := [];
    var k := 0;
    while k < |candidates|
      invariant 0 <= k <= |candidates| && |of| == |evidence|
      invariant forall i :: 0 <= i < |of| ==>
        of[i] < k && Supported(r, candidates[of[i]]) && evidence[i] == EvidenceFor(r, candidates, candidates[of[i]])
      invariant forall i, j :: 0 <= i < j < |of| ==> of[i] < of[j]
      invariant forall l :: 0 <= l < k && Supported(r, candidates[l]) ==> EvidenceFor(r, candidates, candidates[l]) in evidence
    {
      if Supported(r, candidates[k]) {
        evidence, of := evidence + [EvidenceFor(r, candidates, candidates[k])], of + [k];
      }
      k := k + 1;
    }
    forall i, j | 0 <= i < j < |evidence| ensures evidence[i].chunkId != evidence[j].chunkId {
      KeepsChunk(r, candidates, candidates[of[i]]);
      KeepsChunk(r, candidates, candidates[of[j]]);
    }
    SortedEvidence(evidence);
    forall e | e in evidence ensures exists k :: 0 <= k < |candidates| && Supports(r, candidates, k, e) {
      var i :| 0 <= i < |evidence| && evidence[i] == e;
      assert Supports(r, candidates, of[i], e);
    }
    var sorted := Sorted(BEST_FIRST, evidence);
    FirstAreBest(r, candidates, evidence, sorted);
    answer := if |sorted| <= r.topK then sorted else sorted[..r.topK];
  }

  /** The first of the evidence in order are the best of it. */
  lemma FirstAreBest(r: Request, candidates: seq<Candidate>, evidence: seq<Evidence>, sorted: seq<Evidence>)
    requires forall e :: e in sorted <==> e in evidence
    requires forall i, j :: 0 <= i < j < |sorted| ==> Outranks(sorted[i], sorted[j])
    requires forall e :: e in evidence ==> exists k :: 0 <= k < |candidates| && Supports(r, candidates, k, e)
    requires forall k :: 0 <= k < |candidates| && Supported(r, candidates[k]) ==> EvidenceFor(r, candidates, candidates[k]) in evidence
    ensures BestEvidence(r, candidates, if |sorted| <= r.topK then sorted else sorted[..r.topK])
  {
    hide EvidenceFor, Supported, Outranks, Supports;
    var answer := if |sorted| <= r.topK then sorted else sorted[..r.topK];
    assert forall e :: e in answer ==> e in sorted;
    forall k | 0 <= k < |candidates| && Supported(r, candidates[k])
      ensures var e := EvidenceFor(r, candidates, candidates[k]);
        e in answer || (|answer| == r.topK && forall i :: 0 <= i < |answer| ==> Outranks(answer[i], e))
    {
      var e := EvidenceFor(r, candidates, candidates[k]);
      assert e in sorted;
      var l :| 0 <= l < |sorted| && sorted[l] == e;
      if l < |answer| {
        assert answer[l] == e;
      }
    }
  }

  lemma KeepsChunk(r: Request, candidates: seq<Candidate>, c: Candidate)
    ensures EvidenceFor(r, candidates, c).chunkId == c.chunkId
  {
  }

  lemma SortedEvidence(evidence: seq<Evidence>)
    requires forall i, j :: 0 <= i < j < |evidence| ==> evidence[i].chunkId != evidence[j].chunkId
    ensures var sorted := Sorted(BEST_FIRST, evidence);
      && (forall e :: e in sorted <==> e in evidence)
      && (forall i, j :: 0 <= i < j < |sorted| ==> Outranks(sorted[i], sorted[j]))
  {
    var sorted := Sorted(BEST_FIRST, evidence);
    SortedPermutes(BEST_FIRST, evidence);
    SortedAscending(BEST_FIRST, evidence);
    forall i, j | 0 <= i < j < |sorted| ensures Outranks(sorted[i], sorted[j]) {
      assert !BEST_FIRST(sorted[j], sorted[i]);
      var k, l := PairMoves(sorted, evidence, i, j);
    }
  }
}
