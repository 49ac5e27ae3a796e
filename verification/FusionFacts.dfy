/** Lanes, ranks and scores of rank fusion, computed from the candidates alone (policy/retrieval.py). */
module FusionFacts {
  import opened Domain
  import opened Fusion

  /** Of the query's search terms the candidate has at least one. */
  predicate Matching(c: Candidate) {
    c.terms > 0 && c.matches > 0
  }

  /** The better share of search terms found. */
  predicate BetterMatch(a: Candidate, b: Candidate) {
    Matching(a) && (Matching(b) ==> a.matches * b.terms > b.matches * a.terms)
  }

  /** The similarities above the candidate's. */
  ghost function CloserOnes(candidates: seq<Candidate>, c: Candidate): set<real> {
    set d | d in candidates && d.similarity > c.similarity :: d.similarity
  }

  /** The shares above the candidate's. */
  ghost function BetterMatches(candidates: seq<Candidate>, c: Candidate): set<real> {
    set d | d in candidates && BetterMatch(d, c) :: Share(d)
  }

  function Share(c: Candidate): real {
    if c.terms > 0 then c.matches as real / c.terms as real else 0.0
  }

  lemma SharesCompare(a: Candidate, b: Candidate)
    requires Matching(a) && Matching(b)
    ensures a.matches as real / a.terms as real > b.matches as real / b.terms as real <==> a.matches * b.terms > b.matches * a.terms
    ensures a.matches as real / a.terms as real > 0.0
  {
    var m, n, p, q := a.matches as real, a.terms as real, b.matches as real, b.terms as real;
    var x, y := m / n, p / q;
    assert x * n == m && y * q == p;
    assert m * q == x * (n * q) && p * n == y * (n * q) && n * q > 0.0;
    assert (x - y) * (n * q) == m * q - p * n;
    assert m * q == (a.matches * b.terms) as real && p * n == (b.matches * a.terms) as real;
    if x > y {
      assert (x - y) * (n * q) > 0.0;
    } else {
      assert (y - x) * (n * q) >= 0.0;
    }
  }

  /** Evidence carries its chunk's own identity, authority and date. It is ranked among the vectors when
      it is similar enough, one below the similarities above its own, and among the texts when it
      matches at all, one below the shares above its own; equal scores share a rank. */
  lemma RankedExactly(r: Request, candidates: seq<Candidate>, c: Candidate)
    requires c in candidates
    ensures
      var e := EvidenceFor(r, candidates, c);
      && e.chunkId == c.chunkId && e.authority == c.authority && e.effectiveFrom == c.effectiveFrom
      && e.vectorRank == (if c.similarity >= r.minimumSimilarity then Some(1 + |CloserOnes(candidates, c)|) else None)
      && e.lexicalRank == (if Matching(c) then Some(1 + |BetterMatches(candidates, c)|) else None)
  {
    if c.similarity >= r.minimumSimilarity {
      CloserIsAbove(r, candidates, c);
    }
    InLaneWhenMatching(c);
    if Matching(c) {
      BetterIsAbove(candidates, c);
    }
    hide Above, CloserOnes, BetterMatches, LexicalScore, LexicalLane, VectorScores, LexicalScores;
  }

  lemma CloserIsAbove(r: Request, candidates: seq<Candidate>, c: Candidate)
    requires c.similarity >= r.minimumSimilarity
    ensures Above(VectorScores(r, candidates), c.similarity) == CloserOnes(candidates, c)
  {
    var scores := VectorScores(r, candidates);
    forall x | x in CloserOnes(candidates, c) ensures x in Above(scores, c.similarity) {
      var d :| d in candidates && d.similarity > c.similarity && d.similarity == x;
      var k :| 0 <= k < |candidates| && candidates[k] == d;
      assert scores[k] == Some(x);
    }
    forall x | x in Above(scores, c.similarity) ensures x in CloserOnes(candidates, c) {
      var k :| 0 <= k < |scores| && scores[k].Some? && scores[k].value > c.similarity && scores[k].value == x;
      assert candidates[k] in candidates && candidates[k].similarity == x;
    }
  }

  lemma InLaneWhenMatching(c: Candidate)
    ensures LexicalLane(c) == if Matching(c) then Some(Share(c)) else None
  {
    if Matching(c) {
      SharesCompare(c, c);
    }
  }

  lemma BetterIsAbove(candidates: seq<Candidate>, c: Candidate)
    requires Matching(c)
    ensures Above(LexicalScores(candidates), Share(c)) == BetterMatches(candidates, c)
  {
    var scores := LexicalScores(candidates);
    forall d ensures LexicalLane(d) == if Matching(d) then Some(Share(d)) else None {
      InLaneWhenMatching(d);
    }
    forall d ensures BetterMatch(d, c) <==> Matching(d) && Share(d) > Share(c) {
      if Matching(d) {
        SharesCompare(d, c);
      }
    }
    hide LexicalLane, Matching, BetterMatch, Share;
    forall x | x in BetterMatches(candidates, c) ensures x in Above(scores, Share(c)) {
      var d :| d in candidates && BetterMatch(d, c) && Share(d) == x;
      var k :| 0 <= k < |candidates| && candidates[k] == d;
      assert scores[k] == Some(x);
    }
    forall x | x in Above(scores, Share(c)) ensures x in BetterMatches(candidates, c) {
      var k :| 0 <= k < |scores| && scores[k].Some? && scores[k].value > Share(c) && scores[k].value == x;
      assert candidates[k] in candidates && Share(candidates[k]) == x;
    }
  }

  /** A rank `n` on a lane earns 1 / (60 + n); the sum of both lanes is scaled by 61 / 2. */
  lemma ScoredExactly(r: Request, candidates: seq<Candidate>, c: Candidate)
    ensures
      var e := EvidenceFor(r, candidates, c);
      && e.score == ((if e.vectorRank.Some? then 1.0 / (60 + e.vectorRank.value) as real else 0.0)
                     + (if e.lexicalRank.Some? then 1.0 / (60 + e.lexicalRank.value) as real else 0.0)) * (61.0 / 2.0)
      && (Supported(r, c) <==> e.vectorRank.Some? || e.lexicalRank.Some?)
  {
    var e := EvidenceFor(r, candidates, c);
    ScaledSum(LaneTerm(e.vectorRank), LaneTerm(e.lexicalRank));
    hide VectorScore, LexicalLane, Above;
  }

  /** The higher score first; then the higher authority, the later date and the smaller id. */
  lemma OrderOfEvidence(a: Evidence, b: Evidence)
    ensures Outranks(a, b) <==>
      if a.score != b.score then a.score > b.score
      else if a.authority != b.authority then a.authority > b.authority
      else if a.effectiveFrom != b.effectiveFrom then a.effectiveFrom > b.effectiveFrom
      else a.chunkId < b.chunkId
  {
  }
}
