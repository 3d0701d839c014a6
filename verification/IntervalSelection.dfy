/** Weighted interval scheduling with a canonical tie-break, as the planner and the
    storage lookup both run it over their verified candidates. */
module IntervalSelection {
  import opened Order
  import opened Ranges

  /** A candidate as the selection sees it.  Every sort key in the source starts with
      the target start and end; `rest` holds the remaining components. */
  datatype Item = Item(start: nat, end: nat, rest: SortKey) {
    function Key(): SortKey { [[start], [end]] + rest }
  }

  ghost predicate NonEmptyItems(items: seq<Item>) {
    forall i :: 0 <= i < |items| ==> items[i].start < items[i].end
  }

  // ----- selections

  /** A selection listed left to right: indexes of items that follow each other. */
  predicate IsChain(items: seq<Item>, c: seq<nat>) {
    c == [] ||
    var front, last := c[..|c| - 1], c[|c| - 1];
    && last < |items|
    && IsChain(items, front)
    && (front == [] || items[front[|front| - 1]].end <= items[last].start)
  }

  function Tokens(items: seq<Item>, c: seq<nat>): int
    requires IsChain(items, c)
  {
    if c == [] then 0
    else
      var x := items[c[|c| - 1]];
      Tokens(items, c[..|c| - 1]) + (x.end - x.start)
  }

  function Keys(items: seq<Item>, c: seq<nat>): (keys: seq<SortKey>)
    requires IsChain(items, c)
    ensures |keys| == |c|
  {
    if c == [] then [] else Keys(items, c[..|c| - 1]) + [items[c[|c| - 1]].Key()]
  }

  /** Whether a selection with these tokens and keys is at least as good as `c`. */
  ghost predicate Beats(items: seq<Item>, tokens: int, keys: seq<SortKey>, c: seq<nat>)
    requires IsChain(items, c)
  {
    Tokens(items, c) < tokens || (Tokens(items, c) == tokens && KeysLe(keys, Keys(items, c)))
  }

  /** `chosen` has the most tokens of all selections, and the least keys among those. */
  ghost predicate IsBest(items: seq<Item>, chosen: seq<nat>) {
    && IsChain(items, chosen)
    && forall c: seq<nat> :: IsChain(items, c) ==> Beats(items, Tokens(items, chosen), Keys(items, chosen), c)
  }

  lemma {:induction false} ChainIndexes(items: seq<Item>, c: seq<nat>, i: nat)
    requires IsChain(items, c) && i < |c|
    ensures c[i] < |items|
  {
    if i < |c| - 1 {
      ChainIndexes(items, c[..|c| - 1], i);
    }
  }

  lemma {:induction false} ChainPair(items: seq<Item>, c: seq<nat>, i: nat, j: nat)
    requires NonEmptyItems(items) && IsChain(items, c) && i < j < |c|
    ensures c[i] < |items| && c[j] < |items|
    ensures items[c[i]].end <= items[c[j]].start
  {
    var front := c[..|c| - 1];
    if j < |c| - 1 {
      ChainPair(items, front, i, j);
    } else {
      ChainIndexes(items, c, i);
      if i < |front| - 1 {
        ChainPair(items, front, i, |front| - 1);
      }
    }
  }

  lemma ChainFacts(items: seq<Item>, chosen: seq<nat>)
    requires NonEmptyItems(items) && IsChain(items, chosen)
    ensures forall i :: 0 <= i < |chosen| ==> chosen[i] < |items|
    ensures forall i, j :: 0 <= i < j < |chosen| ==> items[chosen[i]].end <= items[chosen[j]].start
    ensures Distinct(chosen)
  {
    forall i | 0 <= i < |chosen|
      ensures chosen[i] < |items|
    {
      ChainIndexes(items, chosen, i);
    }
    forall i, j | 0 <= i < j < |chosen|
      ensures items[chosen[i]].end <= items[chosen[j]].start
    {
      ChainPair(items, chosen, i, j);
    }
  }

  lemma KeyLeStarts(a: Item, b: Item)
    ensures KeyLe(a.Key(), b.Key()) ==> a.start <= b.start
    ensures a.start < b.start ==> KeyLe(a.Key(), b.Key())
  {
    assert a.Key()[0] == [a.start] && b.Key()[0] == [b.start];
    NumberText(a.start, b.start);
  }

  // ----- the dynamic program

  datatype Solution = Solution(tokens: int, indexes: seq<nat>, keys: seq<SortKey>)

  function Better(left: Solution, right: Solution): Solution {
    if left.tokens != right.tokens then
      if left.tokens > right.tokens then left else right
    else if KeysLe(left.keys, right.keys) then left else right
  }

  /** `s` is the best selection that uses only indexes from `available`. */
  ghost predicate BestAmong(items: seq<Item>, available: set<nat>, s: Solution) {
    && IsChain(items, s.indexes)
    && ToSet(s.indexes) <= available
    && s.tokens == Tokens(items, s.indexes)
    && s.keys == Keys(items, s.indexes)
    && forall c: seq<nat> :: IsChain(items, c) && ToSet(c) <= available ==> Beats(items, s.tokens, s.keys, c)
  }

  function Extend(base: Solution, index: nat, x: Item): Solution {
    Solution(base.tokens + (x.end - x.start), base.indexes + [index], base.keys + [x.Key()])
  }

  /** One step: appending item `index` to `base` against keeping `previous`. */
  lemma StepIsBest(
      items: seq<Item>, available: set<nat>, before: set<nat>, index: nat, base: Solution, previous: Solution)
    requires NonEmptyItems(items) && index < |items|
    requires BestAmong(items, available, previous)
    requires BestAmong(items, before, base)
    requires before <= available
    requires forall y :: y in available ==> y < |items| && items[y].end <= items[index].end
    requires forall y :: y in available ==> (y in before <==> items[y].end <= items[index].start)
    ensures BestAmong(items, available + {index}, Better(Extend(base, index, items[index]), previous))
  {
    var included := Extend(base, index, items[index]);
    var best := Better(included, previous);
    ExtendIsChain(items, before, index, base);
    forall c: seq<nat> | IsChain(items, c) && ToSet(c) <= available + {index}
      ensures Beats(items, best.tokens, best.keys, c)
    {
      if index in c {
        ExtendBeats(items, available, before, index, base, c);
      } else {
        assert ToSet(c) <= available;
      }
      BetterBeats(items, included, previous, c);
    }
  }

  lemma ChainNext(items: seq<Item>, front: seq<nat>, index: nat)
    requires IsChain(items, front) && index < |items|
    requires front != [] ==> front[|front| - 1] < |items| && items[front[|front| - 1]].end <= items[index].start
    ensures IsChain(items, front + [index]) && ToSet(front + [index]) == ToSet(front) + {index}
    ensures Tokens(items, front + [index]) == Tokens(items, front) + (items[index].end - items[index].start)
    ensures Keys(items, front + [index]) == Keys(items, front) + [items[index].Key()]
  {
    assert (front + [index])[..|front|] == front;
  }

  lemma ExtendIsChain(items: seq<Item>, before: set<nat>, index: nat, base: Solution)
    requires index < |items| && IsChain(items, base.indexes) && ToSet(base.indexes) <= before
    requires base.tokens == Tokens(items, base.indexes) && base.keys == Keys(items, base.indexes)
    requires forall y :: y in before ==> y < |items| && items[y].end <= items[index].start
    ensures IsChain(items, base.indexes + [index]) && ToSet(base.indexes + [index]) <= before + {index}
    ensures Extend(base, index, items[index]).tokens == Tokens(items, base.indexes + [index])
    ensures Extend(base, index, items[index]).keys == Keys(items, base.indexes + [index])
  {
    var c := base.indexes;
    assert c != [] ==> c[|c| - 1] in ToSet(c);
    ChainNext(items, c, index);
  }

  lemma BetterBeats(items: seq<Item>, left: Solution, right: Solution, c: seq<nat>)
    requires IsChain(items, c)
    requires Beats(items, left.tokens, left.keys, c) || Beats(items, right.tokens, right.keys, c)
    ensures Beats(items, Better(left, right).tokens, Better(left, right).keys, c)
  {
    KeysOrder();
  }

  /** A selection that uses `index` ends with it, and its front avoids everything overlapping it. */
  lemma EndsWith(items: seq<Item>, available: set<nat>, before: set<nat>, index: nat, c: seq<nat>)
    requires NonEmptyItems(items) && index < |items|
    requires forall y :: y in available ==> y < |items| && items[y].end <= items[index].end
    requires forall y :: y in available ==> (y in before <==> items[y].end <= items[index].start)
    requires IsChain(items, c) && ToSet(c) <= available + {index} && index in c
    ensures c != [] && c[|c| - 1] == index
    ensures ToSet(c[..|c| - 1]) <= before
  {
    var i :| 0 <= i < |c| && c[i] == index;
    assert c[|c| - 1] in ToSet(c);
    if i < |c| - 1 {
      ChainPair(items, c, i, |c| - 1);
    }
    assert i == |c| - 1;
    forall y | y in ToSet(c[..|c| - 1])
      ensures y in before
    {
      var j :| 0 <= j < |c| - 1 && c[j] == y;
      ChainPair(items, c, j, |c| - 1);
      assert y in ToSet(c);
    }
  }

  lemma ExtendBeats(items: seq<Item>, available: set<nat>, before: set<nat>, index: nat, base: Solution, c: seq<nat>)
    requires NonEmptyItems(items) && index < |items|
    requires BestAmong(items, before, base)
    requires forall y :: y in available ==> y < |items| && items[y].end <= items[index].end
    requires forall y :: y in available ==> (y in before <==> items[y].end <= items[index].start)
    requires IsChain(items, c) && ToSet(c) <= available + {index} && index in c
    ensures var s := Extend(base, index, items[index]); Beats(items, s.tokens, s.keys, c)
  {
    EndsWith(items, available, before, index, c);
    var front := c[..|c| - 1];
    assert Beats(items, base.tokens, base.keys, front);
    if Tokens(items, front) == base.tokens {
      PrefixHasFewer(items, base.indexes, front);
      var k := [items[index].Key()];
      LexAppend(KeyLe, base.keys, Keys(items, front), k, k);
    }
  }

  /** Keys fix token counts, so equally good selections are never prefixes of each other. */
  lemma {:induction false} PrefixHasFewer(items: seq<Item>, a: seq<nat>, b: seq<nat>)
    requires NonEmptyItems(items) && IsChain(items, a) && IsChain(items, b)
    ensures Keys(items, a) == Keys(items, b) ==> Tokens(items, a) == Tokens(items, b)
    ensures Keys(items, a) < Keys(items, b) ==> Tokens(items, a) < Tokens(items, b)
    decreases |a| + |b|
  {
    if a != [] && b != [] && Keys(items, a) == Keys(items, b) {
      KeysFront(items, a);
      KeysFront(items, b);
      PrefixHasFewer(items, a[..|a| - 1], b[..|b| - 1]);
      SameKeySameBounds(items[a[|a| - 1]], items[b[|b| - 1]]);
    } else if Keys(items, a) < Keys(items, b) {
      KeysFront(items, b);
      PrefixHasFewer(items, a, b[..|b| - 1]);
    }
  }

  lemma KeysFront(items: seq<Item>, c: seq<nat>)
    requires IsChain(items, c) && c != []
    ensures Keys(items, c)[..|c| - 1] == Keys(items, c[..|c| - 1])
    ensures Keys(items, c)[|c| - 1] == items[c[|c| - 1]].Key()
  {
  }

  lemma SameKeySameBounds(x: Item, y: Item)
    requires x.Key() == y.Key()
    ensures x.start == y.start && x.end == y.end
  {
    assert x.Key()[0] == [x.start] && x.Key()[1] == [x.end];
    assert y.Key()[0] == [y.start] && y.Key()[1] == [y.end];
    assert x.Key()[0][0] == y.Key()[0][0] && x.Key()[1][0] == y.Key()[1][0];
  }

  // ----- sorting by end

  datatype Entry = Entry(index: nat, item: Item) {
    function OrderKey(): SortKey { [[item.end]] + item.Key() }
  }

  predicate EntryLe(a: Entry, b: Entry) { KeyLe(a.OrderKey(), b.OrderKey()) }

  lemma EntryOrder()
    ensures TotalPreorder(EntryLe)
  {
    KeyOrder();
    forall a: Entry, b: Entry
      ensures EntryLe(a, b) || EntryLe(b, a)
    {
    }
    forall a: Entry, b: Entry, c: Entry | EntryLe(a, b) && EntryLe(b, c)
      ensures EntryLe(a, c)
    {
      assert KeyLe(a.OrderKey(), b.OrderKey()) && KeyLe(b.OrderKey(), c.OrderKey());
    }
  }

  lemma EntryLeEnds(a: Entry, b: Entry)
    requires EntryLe(a, b)
    ensures a.item.end <= b.item.end
  {
    assert a.OrderKey()[0] == [a.item.end] && b.OrderKey()[0] == [b.item.end];
    if a.OrderKey()[0] != b.OrderKey()[0] {
      assert TextLe([a.item.end], [b.item.end]);
    } else {
      assert a.OrderKey()[0][0] == b.OrderKey()[0][0];
    }
  }

  /** All indexes, ordered by (end, sort key). */
  method OrderByEnd(items: seq<Item>) returns (order: seq<nat>)
    ensures EndsSorted(items, order)
    ensures forall x: nat :: x < |items| ==> x in order
  {
    var entries := seq(|items|, i requires 0 <= i < |items| => Entry(i, items[i]));
    var sorted := SortBy(EntryLe, entries);
    SortElements(EntryLe, entries);
    EntryOrder();
    SortSorted(EntryLe, entries);
    order := seq(|sorted|, i requires 0 <= i < |sorted| => sorted[i].index);
    forall i | 0 <= i < |sorted|
      ensures sorted[i].index < |items| && sorted[i].item == items[sorted[i].index]
    {
      assert sorted[i] in entries;
    }
    forall i, j | 0 <= i < j < |order|
      ensures items[order[i]].end <= items[order[j]].end
    {
      EntryLeEnds(sorted[i], sorted[j]);
    }
    forall x: nat | x < |items|
      ensures x in order
    {
      assert entries[x] in sorted;
      var i :| 0 <= i < |sorted| && sorted[i] == entries[x];
      assert order[i] == x;
    }
  }

  ghost predicate EndsSorted(items: seq<Item>, order: seq<nat>) {
    && (forall i :: 0 <= i < |order| ==> order[i] < |items|)
    && (forall i, j :: 0 <= i < j < |order| ==> items[order[i]].end <= items[order[j]].end)
  }

  lemma AvailableSplit(items: seq<Item>, order: seq<nat>, k: nat, p: nat)
    requires NonEmptyItems(items) && EndsSorted(items, order) && p <= k < |order|
    requires forall i :: p <= i < k ==> items[order[k]].start < items[order[i]].end
    requires p > 0 ==> items[order[p - 1]].end <= items[order[k]].start
    ensures var available, before := ToSet(order[..k]), ToSet(order[..p]);
      && before <= available
      && ToSet(order[..k + 1]) == available + {order[k]}
      && (forall y :: y in available ==> y < |items| && items[y].end <= items[order[k]].end)
      && (forall y :: y in available ==> (y in before <==> items[y].end <= items[order[k]].start))
  {
    var available, before := ToSet(order[..k]), ToSet(order[..p]);
    TakeNext(order, k);
    forall y | y in before
      ensures y in available && items[y].end <= items[order[k]].start
    {
      var i :| 0 <= i < p && order[i] == y;
      assert order[..k][i] == y;
      assert i < p - 1 ==> items[order[i]].end <= items[order[p - 1]].end;
    }
    forall y | y in available
      ensures y < |items| && items[y].end <= items[order[k]].end
      ensures items[y].end <= items[order[k]].start ==> y in before
    {
      var i :| 0 <= i < k && order[i] == y;
      if i < p {
        assert order[..p][i] == y;
      }
    }
  }

  /** Table entry `i` is the best selection among the first `i` ordered items. */
  ghost predicate Solved(items: seq<Item>, order: seq<nat>, solutions: seq<Solution>) {
    && |solutions| <= |order| + 1
    && forall i :: 0 <= i < |solutions| ==> BestAmong(items, ToSet(order[..i]), solutions[i])
  }

  lemma SolvedStep(items: seq<Item>, order: seq<nat>, solutions: seq<Solution>, p: nat)
    requires NonEmptyItems(items) && EndsSorted(items, order) && Solved(items, order, solutions)
    requires 1 <= |solutions| <= |order| && p < |solutions|
    requires var k := |solutions| - 1;
      && (forall i :: p <= i < k ==> items[order[k]].start < items[order[i]].end)
      && (p > 0 ==> items[order[p - 1]].end <= items[order[k]].start)
    ensures var k := |solutions| - 1;
      Solved(items, order, solutions + [Better(Extend(solutions[p], order[k], items[order[k]]), solutions[k])])
  {
    var k := |solutions| - 1;
    AvailableSplit(items, order, k, p);
    var available := ToSet(order[..k]);
    var s := Better(Extend(solutions[p], order[k], items[order[k]]), solutions[k]);
    assert BestAmong(items, available + {order[k]}, s) by {
      StepIsBest(items, available, ToSet(order[..p]), order[k], solutions[p], solutions[k]);
    }
    assert order[..|solutions|] == order[..k + 1];
    SolvedAppend(items, order, solutions, s);
  }

  lemma SolvedAppend(items: seq<Item>, order: seq<nat>, solutions: seq<Solution>, s: Solution)
    requires Solved(items, order, solutions) && |solutions| <= |order|
    requires BestAmong(items, ToSet(order[..|solutions|]), s)
    ensures Solved(items, order, solutions + [s])
  {
  }

  /** How many of the ordered items end before item `k` starts. */
  method CompatiblePrefix(items: seq<Item>, order: seq<nat>, k: nat) returns (p: nat)
    requires k < |order| && forall i :: 0 <= i < |order| ==> order[i] < |items|
    ensures p <= k && (forall i :: p <= i < k ==> items[order[k]].start < items[order[i]].end)
    ensures p > 0 ==> items[order[p - 1]].end <= items[order[k]].start
  {
    var predecessor := k - 1;
    while predecessor >= 0 && items[order[predecessor]].end > items[order[k]].start
      invariant -1 <= predecessor < k
      invariant forall i :: predecessor < i < k ==> items[order[k]].start < items[order[i]].end
    {
      predecessor := predecessor - 1;
    }
    p := predecessor + 1;
  }

  /** Selects verified candidates: the most tokens, then the least keys. */
  method SelectNonOverlapping(items: seq<Item>) returns (chosen: seq<nat>)
    requires NonEmptyItems(items)
    ensures IsBest(items, chosen)
  {
    var order := OrderByEnd(items);
    var solutions := [Solution(0, [], [])];
    assert ToSet(order[..0]) == {};
    EmptyIsBest(items);
    for k := 0 to |order|
      invariant |solutions| == k + 1
      invariant Solved(items, order, solutions)
    {
      var p := CompatiblePrefix(items, order, k);
      SolvedStep(items, order, solutions, p);
      solutions := solutions + [Better(Extend(solutions[p], order[k], items[order[k]]), solutions[k])];
    }
    chosen := solutions[|order|].indexes;
    TakeAll(order);
    AllAvailable(items, order, solutions[|order|]);
  }

  lemma EmptyIsBest(items: seq<Item>)
    ensures BestAmong(items, {}, Solution(0, [], []))
  {
    forall c: seq<nat> | IsChain(items, c) && ToSet(c) <= {}
      ensures Beats(items, 0, [], c)
    {
      if c != [] {
        ListingHasMember(c);
      }
    }
  }

  lemma ListingHasMember(c: seq<nat>)
    requires c != []
    ensures ToSet(c) != {}
  {
    assert c[0] in ToSet(c);
  }

  lemma AllAvailable(items: seq<Item>, order: seq<nat>, s: Solution)
    requires BestAmong(items, ToSet(order), s)
    requires forall x: nat :: x < |items| ==> x in order
    ensures IsBest(items, s.indexes)
  {
    forall c: seq<nat> | IsChain(items, c)
      ensures ToSet(c) <= ToSet(order)
    {
      forall x | x in c
        ensures x in order
      {
        var i :| 0 <= i < |c| && c[i] == x;
        ChainIndexes(items, c, i);
      }
    }
  }

  // ----- what the selection means for sets of candidates

  ghost predicate Feasible(items: seq<Item>, s: set<nat>) {
    && (forall i :: i in s ==> i < |items|)
    && (forall i, j :: i in s && j in s && i != j ==> Apart(items, i, j))
  }

  predicate Apart(items: seq<Item>, i: nat, j: nat)
    requires i < |items| && j < |items|
  {
    items[i].end <= items[j].start || items[j].end <= items[i].start
  }

  /** The positions covered by a set of candidates. */
  ghost function Coverage(items: seq<Item>, s: set<nat>): (points: set<int>)
    requires forall i :: i in s ==> i < |items|
    ensures forall p :: p in points <==> exists i :: i in s && InBounds(items[i].start, items[i].end, p)
  {
    set i, p | i in s && items[i].start <= p < items[i].end && InBounds(items[i].start, items[i].end, p) :: p
  }

  lemma {:induction false} ChainCoverage(items: seq<Item>, c: seq<nat>)
    requires NonEmptyItems(items) && IsChain(items, c)
    ensures Feasible(items, ToSet(c))
    ensures |Coverage(items, ToSet(c))| == Tokens(items, c)
  {
    if c == [] {
      assert Coverage(items, ToSet(c)) == {};
    } else {
      var front, last := c[..|c| - 1], c[|c| - 1];
      ChainCoverage(items, front);
      forall i | i in ToSet(front)
        ensures items[i].end <= items[last].start
      {
        var k :| 0 <= k < |front| && front[k] == i;
        ChainPair(items, c, k, |c| - 1);
      }
      assert ToSet(c) == ToSet(front) + {last};
      FeasibleGrows(items, ToSet(front), last);
      CoverageGrows(items, ToSet(front), last);
    }
  }

  lemma FeasibleGrows(items: seq<Item>, s: set<nat>, last: nat)
    requires Feasible(items, s) && last < |items|
    requires forall i :: i in s ==> items[i].end <= items[last].start
    ensures Feasible(items, s + {last})
  {
  }

  lemma CoverageGrows(items: seq<Item>, s: set<nat>, last: nat)
    requires NonEmptyItems(items) && Feasible(items, s) && last < |items|
    requires forall i :: i in s ==> items[i].end <= items[last].start
    ensures |Coverage(items, s + {last})| == |Coverage(items, s)| + (items[last].end - items[last].start)
  {
    var x := items[last];
    IntervalSize(x.start, x.end);
    assert Coverage(items, s + {last}) == Coverage(items, s) + Interval(x.start, x.end);
    assert Coverage(items, s) !! Interval(x.start, x.end);
  }

  lemma {:induction false} LastOf(items: seq<Item>, s: set<nat>) returns (m: nat)
    requires s != {} && forall i :: i in s ==> i < |items|
    ensures m in s && forall i :: i in s ==> items[i].end <= items[m].end
  {
    m :| m in s;
    var rest := s - {m};
    if rest != {} {
      var other := LastOf(items, rest);
      if items[m].end < items[other].end {
        m := other;
      }
    }
  }

  /** Every feasible set has a left-to-right listing. */
  lemma {:induction false} ListSet(items: seq<Item>, s: set<nat>) returns (c: seq<nat>)
    requires NonEmptyItems(items) && Feasible(items, s)
    ensures IsChain(items, c) && ToSet(c) == s
  {
    if s == {} {
      c := [];
    } else {
      var m := LastOf(items, s);
      var front := ListSet(items, s - {m});
      c := front + [m];
      assert c[..|c| - 1] == front;
      if front != [] {
        assert front[|front| - 1] in ToSet(front);
      }
      assert ToSet(c) == ToSet(front) + {m};
    }
  }

  /** No non-overlapping set covers more positions, and one that covers as many has a
      left-to-right listing whose keys are not smaller. */
  lemma BestCoversMost(items: seq<Item>, chosen: seq<nat>, s: set<nat>)
    requires NonEmptyItems(items) && IsBest(items, chosen) && Feasible(items, s)
    ensures Feasible(items, ToSet(chosen))
    ensures |Coverage(items, s)| <= |Coverage(items, ToSet(chosen))|
    ensures |Coverage(items, s)| == |Coverage(items, ToSet(chosen))| ==>
      exists c: seq<nat> :: IsChain(items, c) && ToSet(c) == s && KeysLe(Keys(items, chosen), Keys(items, c))
  {
    ChainCoverage(items, chosen);
    var c := ListSet(items, s);
    ChainCoverage(items, c);
  }

  /** A candidate that was left out overlaps one that was chosen. */
  lemma LeftOutOverlaps(items: seq<Item>, chosen: seq<nat>, i: nat)
    requires NonEmptyItems(items) && IsBest(items, chosen) && i < |items| && i !in chosen
    ensures exists j :: j in ToSet(chosen) && j < |items| && !Apart(items, i, j)
  {
    ChainCoverage(items, chosen);
    var s := ToSet(chosen);
    if forall j :: j in s ==> Apart(items, i, j) {
      CoverageAdds(items, s, i);
      BestCoversMost(items, chosen, s + {i});
    }
  }

  lemma CoverageAdds(items: seq<Item>, s: set<nat>, i: nat)
    requires NonEmptyItems(items) && Feasible(items, s) && i < |items| && i !in s
    requires forall j :: j in s ==> Apart(items, i, j)
    ensures Feasible(items, s + {i})
    ensures |Coverage(items, s)| < |Coverage(items, s + {i})|
  {
    var x := items[i];
    assert InBounds(x.start, x.end, x.start);
    assert x.start in Coverage(items, s + {i}) - Coverage(items, s);
    SubsetSize(Coverage(items, s), Coverage(items, s + {i}));
  }

  lemma {:induction false} ChainElsewhere(items: seq<Item>, other: seq<Item>, c: seq<nat>) returns (d: seq<nat>)
    requires IsChain(items, c) && forall x :: x in items ==> x in other
    ensures IsChain(other, d) && Keys(other, d) == Keys(items, c) && Tokens(other, d) == Tokens(items, c)
    ensures |d| == |c| && (c != [] ==> d[|d| - 1] < |other| && items[c[|c| - 1]] == other[d[|d| - 1]])
  {
    if c == [] {
      d := [];
    } else {
      var front := ChainElsewhere(items, other, c[..|c| - 1]);
      assert items[c[|c| - 1]] in other;
      var i: nat :| i < |other| && other[i] == items[c[|c| - 1]];
      d := front + [i];
      assert d[..|d| - 1] == front;
    }
  }

  /** The chosen keys depend only on which candidates there are, not on their order. */
  lemma KeysIgnoreOrder(items: seq<Item>, chosen: seq<nat>, items': seq<Item>, chosen': seq<nat>)
    requires forall x :: x in items <==> x in items'
    requires IsBest(items, chosen) && IsBest(items', chosen')
    ensures Keys(items, chosen) == Keys(items', chosen')
  {
    var d := ChainElsewhere(items, items', chosen);
    var d' := ChainElsewhere(items', items, chosen');
    KeysOrder();
    assert Beats(items', Tokens(items', chosen'), Keys(items', chosen'), d);
    assert Beats(items, Tokens(items, chosen), Keys(items, chosen), d');
  }
}
