/** The hybrid cache layout: two cache groups whose layers alternate, validated once. */
module HybridLayout {
  import opened Order
  import opened Ranges
  import opened ModelTarget

  const NUM_CACHE_GROUPS: nat := 2

  datatype AttentionKind = Sliding | Full

  datatype LayoutError =
    | InvalidGroupCount
    | InvalidGroupId
    | DuplicateGroupId
    | InvalidLayerCount
    | DuplicateLayer
    | LayerIndexOutOfRange
    | AttentionPatternMismatch
    | MissingBlockTable
    | UnexpectedBlockTable
    | DuplicateBlockTable
    | BlockSizeMismatch
    | EmptyTransfer
    | RangeLengthMismatch
    | PositionOutOfRange
    | BlockTableTooShort
    | BlockUnavailable

  datatype LayoutResult<+T> = Laid(value: T) | Invalid(error: LayoutError)

  datatype Group = Group(groupId: nat, kind: AttentionKind, layers: seq<nat>, blockSize: nat)
  /** The group constructor refuses a block size that is not positive. */
  type CacheGroup = g: Group | g.blockSize > 0 witness Group(0, Sliding, [], 1)

  datatype LayerLayout = LayerLayout(layerIndex: nat, groupId: nat, kind: AttentionKind)

  datatype Layout = Layout(groups: seq<CacheGroup>, layers: seq<LayerLayout>)

  function KindOf(layerIndex: nat): AttentionKind { if layerIndex % 2 == 0 then Sliding else Full }

  /** Group `g` lists every layer of its kind, each once. */
  ghost predicate ListsItsKind(g: CacheGroup) {
    Distinct(g.layers) && forall i: nat :: i in g.layers <==> i < NUM_LAYERS && KindOf(i) == g.kind
  }

  /** What the layout promises: groups 0 and 1, one of each kind, each with all its layers. */
  ghost predicate ValidGroups(groups: seq<CacheGroup>) {
    && |groups| == NUM_CACHE_GROUPS
    && {groups[0].groupId, groups[1].groupId} == {0, 1}
    && groups[0].kind != groups[1].kind
    && ListsItsKind(groups[0]) && ListsItsKind(groups[1])
  }

  ghost predicate ValidLayout(layout: Layout) {
    && ValidGroups(layout.groups)
    && |layout.layers| == NUM_LAYERS
    && forall i :: 0 <= i < NUM_LAYERS ==> LayerFits(layout, i)
  }

  /** Entry `i` describes layer `i` and names the group that lists it. */
  ghost predicate LayerFits(layout: Layout, i: nat)
    requires i < |layout.layers|
  {
    && layout.layers[i].layerIndex == i && layout.layers[i].kind == KindOf(i)
    && exists g ::
      0 <= g < |layout.groups| && layout.groups[g].groupId == layout.layers[i].groupId && i in layout.groups[g].layers
  }

  // ----- counting layers

  ghost predicate OnlyItsKind(g: CacheGroup) {
    Distinct(g.layers) && forall i: nat :: i in g.layers ==> i < NUM_LAYERS && KindOf(i) == g.kind
  }

  lemma KindsApart(a: CacheGroup, b: CacheGroup)
    requires a.kind != b.kind && OnlyItsKind(a) && OnlyItsKind(b)
    ensures Positions(a.layers) !! Positions(b.layers)
    ensures Positions(a.layers) + Positions(b.layers) <= Interval(0, NUM_LAYERS)
  {
  }

  lemma NothingMissing(a: CacheGroup, b: CacheGroup)
    requires a.kind != b.kind && OnlyItsKind(a) && OnlyItsKind(b)
    requires |a.layers| + |b.layers| == NUM_LAYERS
    ensures Positions(a.layers) + Positions(b.layers) == Interval(0, NUM_LAYERS)
  {
    KindsApart(a, b);
    PositionsSize(a.layers);
    PositionsSize(b.layers);
    IntervalSize(0, NUM_LAYERS);
    SubsetSize(Positions(a.layers) + Positions(b.layers), Interval(0, NUM_LAYERS));
  }

  /** Twenty-four distinct layers of the right kinds are all the layers. */
  lemma AllLayersListed(a: CacheGroup, b: CacheGroup)
    requires a.kind != b.kind && OnlyItsKind(a) && OnlyItsKind(b)
    requires |a.layers| + |b.layers| == NUM_LAYERS
    ensures ListsItsKind(a)
  {
    NothingMissing(a, b);
    forall i: nat | i < NUM_LAYERS && KindOf(i) == a.kind
      ensures i in a.layers
    {
      assert i in Positions(a.layers) + Positions(b.layers);
    }
  }

  lemma ValidGroupsCount(groups: seq<CacheGroup>)
    requires ValidGroups(groups)
    ensures |groups[0].layers| + |groups[1].layers| == NUM_LAYERS
  {
    var a, b := Positions(groups[0].layers), Positions(groups[1].layers);
    PositionsSize(groups[0].layers);
    PositionsSize(groups[1].layers);
    IntervalSize(0, NUM_LAYERS);
    forall i: int
      ensures i in a + b <==> i in Interval(0, NUM_LAYERS)
      ensures !(i in a && i in b)
    {
    }
    assert a + b == Interval(0, NUM_LAYERS);
    assert a !! b;
  }

  // ----- construction

  function EntryOf(g: CacheGroup, i: nat): LayerLayout { LayerLayout(i, g.groupId, g.kind) }

  /** Adds one group's layers, refusing repeats, foreign indexes and the wrong kind. */
  method AddGroup(g: CacheGroup, layers: seq<LayerLayout>, seen: set<nat>) returns (r: LayoutResult<seq<LayerLayout>>)
    ensures r.Laid? <==>
      && Distinct(g.layers)
      && forall i :: i in g.layers ==> i !in seen && i < NUM_LAYERS && KindOf(i) == g.kind
    ensures r.Laid? ==> r.value == layers + seq(|g.layers|, k requires 0 <= k < |g.layers| => EntryOf(g, g.layers[k]))
  {
    var added: seq<LayerLayout> := [];
    for k := 0 to |g.layers|
      invariant |added| == k
      invariant Distinct(g.layers[..k])
      invariant forall j :: 0 <= j < k ==>
        g.layers[j] !in seen && g.layers[j] < NUM_LAYERS && KindOf(g.layers[j]) == g.kind
      invariant forall j :: 0 <= j < k ==> added[j] == EntryOf(g, g.layers[j])
    {
      var i := g.layers[k];
      assert i in g.layers;
      if i >= NUM_LAYERS {
        return Invalid(LayerIndexOutOfRange);
      }
      if i in seen || i in g.layers[..k] {
        return Invalid(DuplicateLayer);
      }
      if g.kind != KindOf(i) {
        return Invalid(AttentionPatternMismatch);
      }
      TakeNext(g.layers, k);
      added := added + [EntryOf(g, i)];
    }
    TakeAll(g.layers);
    r := Laid(layers + added);
  }

  predicate ByIndex(a: LayerLayout, b: LayerLayout) { a.layerIndex <= b.layerIndex }

  /** Accepts exactly the valid group pairs; the last completeness check can never fail. */
  method MakeLayout(groups: seq<CacheGroup>) returns (r: LayoutResult<Layout>)
    ensures r.Laid? <==> ValidGroups(groups)
    ensures r.Laid? ==> r.value.groups == groups && ValidLayout(r.value)
  {
    if |groups| != NUM_CACHE_GROUPS {
      return Invalid(InvalidGroupCount);
    }
    if groups[0].groupId == groups[1].groupId {
      return Invalid(DuplicateGroupId);
    }
    if {groups[0].groupId, groups[1].groupId} != {0, 1} {
      return Invalid(InvalidGroupId);
    }
    if groups[0].kind == groups[1].kind {
      return Invalid(AttentionPatternMismatch);
    }
    if ValidGroups(groups) {
      ValidGroupsCount(groups);
    }
    if |groups[0].layers| + |groups[1].layers| != NUM_LAYERS {
      return Invalid(InvalidLayerCount);
    }
    var first := AddGroup(groups[0], [], {});
    if first.Invalid? {
      return Invalid(first.error);
    }
    var second := AddGroup(groups[1], first.value, ToSet(groups[0].layers));
    if second.Invalid? {
      return Invalid(second.error);
    }
    AllLayersListed(groups[0], groups[1]);
    AllLayersListed(groups[1], groups[0]);
    var layers := SortBy(ByIndex, second.value);
    LayersInOrder(groups, second.value);
    r := Laid(Layout(groups, layers));
  }

  lemma {:induction false} AtLeastIndex(s: seq<LayerLayout>, i: nat)
    requires i < |s| && forall j, k :: 0 <= j < k < |s| ==> s[j].layerIndex < s[k].layerIndex
    ensures s[i].layerIndex >= i
  {
    if i > 0 {
      AtLeastIndex(s, i - 1);
    }
  }

  lemma {:induction false} AtMostIndex(s: seq<LayerLayout>, i: nat, n: nat)
    requires i < |s| == n && forall j, k :: 0 <= j < k < |s| ==> s[j].layerIndex < s[k].layerIndex
    requires forall j :: 0 <= j < |s| ==> s[j].layerIndex < n
    ensures s[i].layerIndex <= i
    decreases n - i
  {
    if i < n - 1 {
      AtMostIndex(s, i + 1, n);
    }
  }

  /** Sorting the collected entries puts layer `i` at position `i`. */
  lemma LayersInOrder(groups: seq<CacheGroup>, entries: seq<LayerLayout>)
    requires ValidGroups(groups)
    requires entries == Entries(groups[0]) + Entries(groups[1]) && |entries| == NUM_LAYERS
    ensures ValidLayout(Layout(groups, SortBy(ByIndex, entries)))
  {
    var sorted := SortBy(ByIndex, entries);
    EntriesDistinct(groups);
    SortSorted(ByIndex, entries);
    SortMultiset(ByIndex, entries);
    SortElements(ByIndex, entries);
    DistinctPermutation(entries, sorted);
    forall e | e in sorted
      ensures e.layerIndex < NUM_LAYERS && e.kind == KindOf(e.layerIndex)
      ensures exists g :: 0 <= g < 2 && e in Entries(groups[g])
    {
      assert e in Entries(groups[0]) || e in Entries(groups[1]);
      EntryFacts(groups, e);
    }
    forall j, k | 0 <= j < k < |sorted|
      ensures sorted[j].layerIndex < sorted[k].layerIndex
    {
      assert ByIndex(sorted[j], sorted[k]);
      assert sorted[j] in entries && sorted[k] in entries;
      SameIndexSameEntry(groups, sorted[j], sorted[k]);
    }
    forall i | 0 <= i < NUM_LAYERS
      ensures LayerFits(Layout(groups, sorted), i)
    {
      AtLeastIndex(sorted, i);
      AtMostIndex(sorted, i, NUM_LAYERS);
      assert sorted[i] in sorted;
      EntryFacts(groups, sorted[i]);
    }
  }

  function Entries(g: CacheGroup): seq<LayerLayout> {
    seq(|g.layers|, k requires 0 <= k < |g.layers| => EntryOf(g, g.layers[k]))
  }

  lemma EntryFacts(groups: seq<CacheGroup>, e: LayerLayout)
    requires ValidGroups(groups) && (e in Entries(groups[0]) || e in Entries(groups[1]))
    ensures e.layerIndex < NUM_LAYERS && e.kind == KindOf(e.layerIndex)
    ensures exists g :: 0 <= g < |groups| && groups[g].groupId == e.groupId && e.layerIndex in groups[g].layers
  {
    var g := if e in Entries(groups[0]) then 0 else 1;
    var k :| 0 <= k < |groups[g].layers| && Entries(groups[g])[k] == e;
    assert e == EntryOf(groups[g], groups[g].layers[k]);
    assert groups[g].layers[k] in groups[g].layers;
  }

  lemma SameIndexSameEntry(groups: seq<CacheGroup>, a: LayerLayout, b: LayerLayout)
    requires ValidGroups(groups)
    requires a in Entries(groups[0]) || a in Entries(groups[1])
    requires b in Entries(groups[0]) || b in Entries(groups[1])
    ensures a.layerIndex == b.layerIndex ==> a == b
  {
    EntryFacts(groups, a);
    EntryFacts(groups, b);
    var g := if a in Entries(groups[0]) then 0 else 1;
    var k :| 0 <= k < |groups[g].layers| && Entries(groups[g])[k] == a;
    var h := if b in Entries(groups[0]) then 0 else 1;
    var l :| 0 <= l < |groups[h].layers| && Entries(groups[h])[l] == b;
    assert a == EntryOf(groups[g], groups[g].layers[k]) && b == EntryOf(groups[h], groups[h].layers[l]);
  }

  lemma EntriesDistinct(groups: seq<CacheGroup>)
    requires ValidGroups(groups)
    ensures Distinct(Entries(groups[0]) + Entries(groups[1]))
  {
    var a, b := Entries(groups[0]), Entries(groups[1]);
    forall i, j | 0 <= i < j < |a + b|
      ensures (a + b)[i] != (a + b)[j]
    {
      if j < |a| {
        assert a[i] == EntryOf(groups[0], groups[0].layers[i]) && a[j] == EntryOf(groups[0], groups[0].layers[j]);
      } else if |a| <= i {
        assert b[i - |a|] == EntryOf(groups[1], groups[1].layers[i - |a|]);
        assert b[j - |a|] == EntryOf(groups[1], groups[1].layers[j - |a|]);
      } else {
        assert a[i] == EntryOf(groups[0], groups[0].layers[i])
          && b[j - |a|] == EntryOf(groups[1], groups[1].layers[j - |a|]);
      }
    }
  }
}
