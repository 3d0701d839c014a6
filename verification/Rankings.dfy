/** Positions ranked by a real score, highest first, ties to the lower position. */
module Rankings {
  import opened Order

  function Score(scores: seq<real>, p: nat): real { if p < |scores| then scores[p] else 0.0 }

  /** Higher scores first; equal scores by position. */
  predicate Ahead(scores: seq<real>, a: nat, b: nat) {
    Score(scores, a) > Score(scores, b) || (Score(scores, a) == Score(scores, b) && a <= b)
  }

  function Ranking(scores: seq<real>): (nat, nat) -> bool { (a: nat, b: nat) => Ahead(scores, a, b) }

  lemma RankingOrder(scores: seq<real>)
    ensures TotalOrder(Ranking(scores))
  {
  }
}
