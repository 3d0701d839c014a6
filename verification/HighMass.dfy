/** The support a probability comparison looks at: the most likely tokens up to a mass. */
module HighMass {
  import opened Order
  import opened Ranges
  import opened Rankings

  const TAIL_EPSILON: real := 0.0001

  const TARGET: real := 1.0 - TAIL_EPSILON

  /** Total probability of the listed tokens. */
  function Mass(probabilities: seq<real>, tokens: seq<nat>): real {
    if tokens == [] then 0.0
    else Mass(probabilities, tokens[..|tokens| - 1]) + Score(probabilities, tokens[|tokens| - 1])
  }

  function AllTokens(n: nat): (r: seq<nat>)
    ensures |r| == n
  {
    seq<nat>(n, i requires 0 <= i < n => i)
  }

  /** A list that stands for a set of tokens. */
  ghost predicate TokenSet(probabilities: seq<real>, tokens: seq<nat>) {
    Distinct(tokens) && forall t :: t in tokens ==> t < |probabilities|
  }

  lemma AllTokensListed(n: nat)
    ensures Distinct(AllTokens(n)) && forall t: nat :: t in AllTokens(n) <==> t < n
  {
    forall t: nat | t < n
      ensures t in AllTokens(n)
    {
      assert AllTokens(n)[t] == t;
    }
  }

  // ----- sums

  lemma {:induction false} MassWithout(probabilities: seq<real>, tokens: seq<nat>, i: nat)
    requires i < |tokens|
    ensures Mass(probabilities, tokens) == Mass(probabilities, tokens[..i] + tokens[i + 1..])
      + Score(probabilities, tokens[i])
  {
    if i == |tokens| - 1 {
      assert tokens[..i] + tokens[i + 1..] == tokens[..i];
    } else {
      var front := tokens[..|tokens| - 1];
      MassWithout(probabilities, front, i);
      var less := tokens[..i] + tokens[i + 1..];
      assert less[..|less| - 1] == front[..i] + front[i + 1..];
    }
  }

  lemma WithoutOne(tokens: seq<nat>, i: nat)
    requires Distinct(tokens) && i < |tokens|
    ensures Distinct(tokens[..i] + tokens[i + 1..])
    ensures forall t :: t in tokens[..i] + tokens[i + 1..] ==> t in tokens
  {
  }

  // ----- the top of the ranking is the heaviest set of its size

  /** More tokens than the first `k` of the ranking: one of them ranks at `k` or later. */
  lemma Outside(order: seq<nat>, tokens: seq<nat>, k: nat) returns (i: nat)
    requires Distinct(tokens) && Distinct(order) && k < |tokens| && k <= |order|
    ensures i < |tokens| && tokens[i] !in order[..k]
  {
    if forall i :: 0 <= i < |tokens| ==> tokens[i] in order[..k] {
      assert ToSet(tokens) <= ToSet(order[..k]);
      DistinctSetSize(tokens);
      DistinctSetSize(order[..k]);
      SubsetSize(ToSet(tokens), ToSet(order[..k]));
    }
    i :| 0 <= i < |tokens| && tokens[i] !in order[..k];
  }

  lemma Taken(order: seq<nat>, k: nat, j: nat)
    requires j < k <= |order|
    ensures order[j] in order[..k]
  {
    assert order[..k][j] == order[j];
  }

  lemma LaterIsLighter(probabilities: seq<real>, order: seq<nat>, k: nat, t: nat)
    requires SortedBy(Ranking(probabilities), order) && k < |order| && t in order && t !in order[..k]
    ensures Score(probabilities, t) <= Score(probabilities, order[k])
  {
    var j: nat :| j < |order| && order[j] == t;
    if k < j {
      assert Ranking(probabilities)(order[k], order[j]);
    } else if j < k {
      Taken(order, k, j);
    }
  }

  lemma {:induction false} TopIsHeaviest(probabilities: seq<real>, order: seq<nat>, tokens: seq<nat>)
    requires SortedBy(Ranking(probabilities), order) && Distinct(order) && Distinct(tokens)
    requires |tokens| <= |order| && forall t :: t in tokens ==> t in order
    ensures Mass(probabilities, tokens) <= Mass(probabilities, order[..|tokens|])
    decreases |tokens|
  {
    if tokens != [] {
      var k := |tokens| - 1;
      var i := Outside(order, tokens, k);
      LaterIsLighter(probabilities, order, k, tokens[i]);
      WithoutOne(tokens, i);
      MassWithout(probabilities, tokens, i);
      TopIsHeaviest(probabilities, order, tokens[..i] + tokens[i + 1..]);
      assert order[..k + 1][..k] == order[..k];
    }
  }

  /** Every listing of all tokens has the same mass. */
  lemma {:induction false} MassOfBag(probabilities: seq<real>, a: seq<nat>, b: seq<nat>)
    requires multiset(a) == multiset(b)
    ensures Mass(probabilities, a) == Mass(probabilities, b)
    decreases |a|
  {
    if a == [] || b == [] {
      EmptyPermutation(a, b);
    } else {
      var x := a[|a| - 1];
      assert x in multiset(b);
      var i :| 0 <= i < |b| && b[i] == x;
      MassWithout(probabilities, b, i);
      LastInBag(a);
      assert b == b[..i] + [x] + b[i + 1..];
      assert multiset(b[..i] + b[i + 1..]) == multiset(b) - multiset{x};
      MassOfBag(probabilities, a[..|a| - 1], b[..i] + b[i + 1..]);
    }
  }

  // ----- the greedy support

  /** `order` lists every token once, heaviest first. */
  ghost predicate IsRanking(probabilities: seq<real>, order: seq<nat>) {
    && SortedBy(Ranking(probabilities), order) && Distinct(order) && |order| == |probabilities|
    && (forall t: nat :: t in order <==> t < |probabilities|)
  }

  method RankTokens(probabilities: seq<real>) returns (order: seq<nat>)
    ensures IsRanking(probabilities, order)
    ensures Mass(probabilities, order) == Mass(probabilities, AllTokens(|probabilities|))
  {
    var all := AllTokens(|probabilities|);
    order := SortBy(Ranking(probabilities), all);
    SortedRanking(probabilities, all, order);
    SortMultiset(Ranking(probabilities), all);
    MassOfBag(probabilities, order, all);
  }

  lemma SortedRanking(probabilities: seq<real>, all: seq<nat>, order: seq<nat>)
    requires all == AllTokens(|probabilities|) && order == SortBy(Ranking(probabilities), all)
    ensures IsRanking(probabilities, order)
  {
    AllTokensListed(|probabilities|);
    RankingOrder(probabilities);
    SortSorted(Ranking(probabilities), all);
    SortMultiset(Ranking(probabilities), all);
    SortElements(Ranking(probabilities), all);
    DistinctPermutation(all, order);
  }

  /** `support` is the first `k` ranked tokens, no shorter stretch reached the target, and the
      walk stopped because it did or because there were no more tokens. */
  ghost predicate StopsAt(probabilities: seq<real>, order: seq<nat>, k: nat) {
    && 0 < k <= |order|
    && (forall j :: 0 < j < k ==> MassOfFirst(probabilities, order, j) < TARGET)
    && (k < |order| ==> MassOfFirst(probabilities, order, k) >= TARGET)
  }

  function MassOfFirst(probabilities: seq<real>, order: seq<nat>, k: nat): real
    requires k <= |order|
  {
    Mass(probabilities, order[..k])
  }

  lemma MassNext(probabilities: seq<real>, order: seq<nat>, k: nat)
    requires k < |order|
    ensures MassOfFirst(probabilities, order, k + 1) == MassOfFirst(probabilities, order, k)
      + Score(probabilities, order[k])
  {
    assert order[..k + 1][..k] == order[..k];
  }

  /** Takes tokens in ranking order until the target mass is reached. */
  method Accumulate(probabilities: seq<real>, order: seq<nat>) returns (support: seq<nat>)
    requires IsRanking(probabilities, order)
    ensures order != [] ==> StopsAt(probabilities, order, |support|)
    ensures |support| <= |order| && support == order[..|support|]
  {
    var cumulative := 0.0;
    support := [];
    for k := 0 to |order|
      invariant support == order[..k] && cumulative == MassOfFirst(probabilities, order, k)
      invariant forall j :: 0 < j <= k ==> MassOfFirst(probabilities, order, j) < TARGET
    {
      MassNext(probabilities, order, k);
      TakeNext(order, k);
      assert order[k] in order;
      support := support + [order[k]];
      cumulative := cumulative + probabilities[order[k]];
      if cumulative >= TARGET {
        return;
      }
    }
    TakeAll(order);
  }

  lemma StretchIsSet(probabilities: seq<real>, order: seq<nat>, k: nat)
    requires IsRanking(probabilities, order) && k <= |order|
    ensures TokenSet(probabilities, order[..k])
  {
    forall t | t in order[..k]
      ensures t < |probabilities|
    {
      assert t in order;
    }
  }

  /** Any set smaller than the stretch taken falls short of the target. */
  lemma SmallerFallsShort(probabilities: seq<real>, order: seq<nat>, k: nat, other: seq<nat>)
    requires IsRanking(probabilities, order) && StopsAt(probabilities, order, k)
    requires TokenSet(probabilities, other) && |other| < k
    ensures Mass(probabilities, other) < TARGET
  {
    TopIsHeaviest(probabilities, order, other);
    if |other| > 0 {
      assert MassOfFirst(probabilities, order, |other|) < TARGET;
    }
  }

  lemma StretchReaches(probabilities: seq<real>, order: seq<nat>, k: nat)
    requires StopsAt(probabilities, order, k) && Mass(probabilities, order) == 1.0
    ensures MassOfFirst(probabilities, order, k) >= TARGET
  {
    TakeAll(order);
  }

  /** For a probability vector, the support carries at least 1 - epsilon, and no smaller set
      of tokens does.  It is empty only for an empty vocabulary. */
  method HighMassSupport(probabilities: seq<real>) returns (found: bool, support: seq<nat>)
    ensures found <==> probabilities != []
    ensures found && Mass(probabilities, AllTokens(|probabilities|)) == 1.0 ==>
      && TokenSet(probabilities, support) && Mass(probabilities, support) >= TARGET
      && forall other :: TokenSet(probabilities, other) && |other| < |support| ==> Mass(probabilities, other) < TARGET
  {
    var order := RankTokens(probabilities);
    support := Accumulate(probabilities, order);
    found := support != [];
    if found && Mass(probabilities, AllTokens(|probabilities|)) == 1.0 {
      StretchIsSet(probabilities, order, |support|);
      StretchReaches(probabilities, order, |support|);
      forall other | TokenSet(probabilities, other) && |other| < |support|
        ensures Mass(probabilities, other) < TARGET
      {
        SmallerFallsShort(probabilities, order, |support|, other);
      }
    }
  }
}
