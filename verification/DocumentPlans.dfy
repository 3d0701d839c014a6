/** From a document to a recordable plan: delimiters, rolling windows and planning together. */
module DocumentPlans {
  import opened Order
  import opened Models
  import opened Planner
  import opened RequestPlans
  import opened Segmentation
  import opened Delimiters

  /** The rolling windows of a document are distinct and inside the prompt ... */
  lemma DocumentQueries(tokens: seq<TokenId>, ds: seq<Delimiter>, offset: nat, sizes: seq<Size>, stride: Size)
    requires Distinct(sizes)
    ensures var queries := Rolling(Regions(tokens, ds, offset), sizes, stride);
      Distinct(queries) && forall i :: 0 <= i < |queries| ==> queries[i].range.end <= offset + |tokens|
  {
    var regions := Regions(tokens, ds, offset);
    var queries := Rolling(regions, sizes, stride);
    DocumentRegions(tokens, ds, offset);
    RollingDistinct(regions, sizes, stride);
    forall i | 0 <= i < |queries|
      ensures queries[i].range.end <= offset + |tokens|
    {
      RollingWithin(regions, sizes, stride, offset + |tokens|, queries[i]);
    }
  }

  /** ... so whatever the storage answers, the plan made for them is one the control plane
      accepts. */
  lemma DocumentPlanAcceptable(
      ns: CacheNamespace, tokens: seq<TokenId>, ds: seq<Delimiter>, offset: nat, sizes: seq<Size>, stride: Size,
      fp: Fingerprinter, lookup: RecordLookup, chosen: seq<nat>, plan: MatchPlan, requestId: string, promptTokens: nat)
    requires Distinct(sizes) && requestId != "" && offset + |tokens| <= promptTokens
    requires PlanFor(ns, Rolling(Regions(tokens, ds, offset), sizes, stride), fp, lookup, chosen, plan)
    ensures Acceptable(requestId, promptTokens, Rolling(Regions(tokens, ds, offset), sizes, stride), plan)
  {
    DocumentQueries(tokens, ds, offset, sizes, stride);
    PlannerResultAcceptable(ns, Rolling(Regions(tokens, ds, offset), sizes, stride), fp, lookup, chosen, plan,
                            requestId, promptTokens);
  }

  datatype DocumentResult = Refused | Planned(record: PlanResult)

  ghost predicate Configured(delimiters: seq<Delimiter>, sizes: seq<int>, stride: int) {
    delimiters != [] && Proper(delimiters) && sizes != [] && AllPositive(sizes) && stride > 0
  }

  /** The windows that a document is queried with. */
  ghost predicate QueriesOf(
      delimiters: seq<Delimiter>, tokens: seq<TokenId>, offset: nat, given: seq<int>, stride: int,
      queries: seq<TokenSegment>)
  {
    stride > 0 && exists sizes: seq<Size> ::
      QueriesBy(delimiters, tokens, offset, given, stride, sizes, queries)
  }

  ghost predicate QueriesBy(
      delimiters: seq<Delimiter>, tokens: seq<TokenId>, offset: nat, given: seq<int>, stride: Size, sizes: seq<Size>,
      queries: seq<TokenSegment>)
  {
    && Falling(sizes) && (forall s: int :: s in sizes <==> s in given)
    && queries == Rolling(Regions(tokens, delimiters, offset), sizes, stride)
  }

  /** Both segmenters, the planner and the record together: whatever the document, the settings
      and the storage, the plan is recorded exactly if there is an id and the windows fit. */
  method PlanDocument(
      ns: CacheNamespace, delimiters: seq<Delimiter>, tokens: seq<TokenId>, offset: nat, sizes: seq<int>, stride: int,
      fp: Fingerprinter, lookup: RecordLookup, requestId: string, promptTokens: int)
      returns (r: DocumentResult, ghost queries: seq<TokenSegment>)
    ensures r.Planned? <==> Configured(delimiters, sizes, stride)
    ensures r.Planned? ==> QueriesOf(delimiters, tokens, offset, sizes, stride, queries)
    ensures r.Planned? ==> (r.record.Accepted? <==>
      requestId != "" && promptTokens >= 0 && forall q :: q in queries ==> q.range.end <= promptTokens)
    ensures r.Planned? && requestId != "" && offset + |tokens| <= promptTokens ==> r.record.Accepted?
    ensures r.Planned? && r.record.Accepted? ==>
      exists chosen: seq<nat> :: PlanFor(ns, queries, fp, lookup, chosen, r.record.plan.matchPlan)
  {
    queries := [];
    var segmenter := MakeSegmenter(delimiters);
    if !segmenter.Segmenter? {
      return Refused, queries;
    }
    var roller := MakeRolling(sizes, stride);
    if !roller.Roller? {
      return Refused, queries;
    }
    var regions := SegmentDocument(segmenter.delimiters, tokens, offset);
    RegionsOfSame(tokens, segmenter.delimiters, delimiters, offset);
    var windows := RollingQuerySegments(regions, roller.sizes, roller.stride);
    queries := windows;
    FallingDistinct(roller.sizes);
    DocumentQueries(tokens, delimiters, offset, roller.sizes, roller.stride);
    assert QueriesBy(delimiters, tokens, offset, sizes, stride, roller.sizes, queries);
    var plan := Plan(ns, windows, fp, lookup);
    var record := MakeRequestPlan(requestId, promptTokens, windows, plan);
    r := Planned(record);
    RecordedIff(ns, windows, fp, lookup, plan, requestId, promptTokens);
  }

  lemma RecordedIff(
      ns: CacheNamespace, queries: seq<TokenSegment>, fp: Fingerprinter, lookup: RecordLookup, plan: MatchPlan,
      requestId: string, promptTokens: int)
    requires Distinct(queries) && exists chosen: seq<nat> :: PlanFor(ns, queries, fp, lookup, chosen, plan)
    ensures Acceptable(requestId, promptTokens, queries, plan) <==>
      requestId != "" && promptTokens >= 0 && forall q :: q in queries ==> q.range.end <= promptTokens
  {
    var chosen: seq<nat> :| PlanFor(ns, queries, fp, lookup, chosen, plan);
    if requestId != "" && promptTokens >= 0 && forall q :: q in queries ==> q.range.end <= promptTokens {
      PlannerResultAcceptable(ns, queries, fp, lookup, chosen, plan, requestId, promptTokens);
    }
  }
}
