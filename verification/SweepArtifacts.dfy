/** Ratio sweeps as plain mappings: writing one out, and reading one back with every
    cross-field rule checked again. */
module SweepArtifacts {
  import opened Ranges
  import opened ModelTarget
  import opened Models
  import opened RowSelection
  import opened SelectionPolicy

  const SCHEMA_VERSION: int := 1
  const KIND := "cacheblend_gpt_oss_selection_sweep"

  datatype ReadError =
    | InvalidSchema
    | InvalidPoint
    | InvalidRangeList
    | PointMismatch
    | MixedContext
    | IncompleteMeasurements

  datatype ReadResult<+T> = Read(value: T) | Unreadable(error: ReadError)

  /** A range is written as a two-element list; a reader may be handed any list. */
  type RawRange = seq<int>

  datatype RawPoint = RawPoint(
    candidates: seq<RawRange>,
    checkLayer: int,
    measurement: Option<Measurement>,
    promptTokens: int,
    layerRecompute: seq<seq<RawRange>>,
    recompute: seq<RawRange>,
    ratio: real,
    selected: seq<int>,
    suffix: int)

  datatype RawSweep = RawSweep(kind: string, points: seq<RawPoint>, schemaVersion: int)

  // ----- writing

  function WriteRange(r: TokenRange): RawRange { [r.start, r.end] }

  function WriteRanges(rs: seq<TokenRange>): seq<RawRange> { Map(WriteRange, rs) }

  function WriteRow(p: nat): int { p }

  function LayerText(rows: LayerRows): seq<RawRange> { WriteRanges(rows.recompute) }

  function WritePoint(p: SweepPoint): RawPoint {
    RawPoint(WriteRanges(p.result.candidates), p.result.checkLayer, p.measurement, p.result.rowPlan.promptTokens,
             Map(LayerText, p.result.rowPlan.layers), WriteRanges(p.result.recompute), p.result.ratio,
             Map(WriteRow, p.result.selected), p.result.suffix)
  }

  function WriteSweep(points: seq<SweepPoint>): RawSweep {
    RawSweep(KIND, Map(WritePoint, points), SCHEMA_VERSION)
  }

  ghost predicate ValidPoint(p: SweepPoint) {
    IsPoint(p.result) && (p.measurement.Some? ==> p.measurement.value.Valid())
  }

  ghost predicate AllOrNoneMeasured(points: seq<SweepPoint>) {
    || (forall i :: 0 <= i < |points| ==> points[i].measurement.Some?)
    || (forall i :: 0 <= i < |points| ==> points[i].measurement.None?)
  }

  ghost predicate ValidSweep(points: seq<SweepPoint>) {
    && SweepShape(points) && AllOrNoneMeasured(points)
    && forall i :: 0 <= i < |points| ==> ValidPoint(points[i])
  }

  // ----- reading ranges

  predicate RangeText(raw: RawRange, limit: int) {
    |raw| == 2 && 0 <= raw[0] < raw[1] <= limit
  }

  predicate RangeTexts(raw: seq<RawRange>, limit: int) {
    forall i :: 0 <= i < |raw| ==> RangeText(raw[i], limit)
  }

  function Decoded(raw: seq<RawRange>, limit: int): (rs: seq<TokenRange>)
    requires RangeTexts(raw, limit)
    ensures |rs| == |raw| && NonEmpty(rs) && Within(rs, limit)
  {
    seq(|raw|, i requires 0 <= i < |raw| =>
      assert RangeText(raw[i], limit);
      Bounds(raw[i][0], raw[i][1]))
  }

  lemma DecodedWrites(raw: seq<RawRange>, limit: int)
    requires RangeTexts(raw, limit)
    ensures WriteRanges(Decoded(raw, limit)) == raw
  {
    forall i | 0 <= i < |raw|
      ensures WriteRanges(Decoded(raw, limit))[i] == raw[i]
    {
      assert RangeText(raw[i], limit);
      assert WriteRange(Decoded(raw, limit)[i]) == raw[i];
    }
  }

  lemma WrittenDecodes(rs: seq<TokenRange>, limit: int)
    requires NonEmpty(rs) && Within(rs, limit)
    ensures RangeTexts(WriteRanges(rs), limit)
    ensures Decoded(WriteRanges(rs), limit) == rs
  {
    forall i | 0 <= i < |rs|
      ensures RangeText(WriteRanges(rs)[i], limit) && WriteRanges(rs)[i] == [rs[i].start, rs[i].end]
    {
      assert WriteRanges(rs)[i] == WriteRange(rs[i]);
    }
    var back := Decoded(WriteRanges(rs), limit);
    assert forall i :: 0 <= i < |rs| ==> back[i] == rs[i];
  }

  ghost predicate RangesOk(raw: seq<RawRange>, limit: int) {
    RangeTexts(raw, limit) && Ordered(Decoded(raw, limit))
  }

  method ReadRanges(raw: seq<RawRange>, limit: nat) returns (r: ReadResult<seq<TokenRange>>)
    requires limit <= MAX_CONTEXT_TOKENS
    ensures r.Read? <==> RangesOk(raw, limit)
    ensures r.Read? ==> r.value == Decoded(raw, limit)
  {
    var parsed: seq<TokenRange> := [];
    for k := 0 to |raw|
      invariant |parsed| == k
      invariant forall i :: 0 <= i < k ==> RangeText(raw[i], limit) && parsed[i] == Bounds(raw[i][0], raw[i][1])
    {
      if |raw[k]| != 2 {
        return Unreadable(InvalidRangeList);
      }
      if !(0 <= raw[k][0] <= limit && 0 <= raw[k][1] <= limit) {
        return Unreadable(InvalidPoint);
      }
      if raw[k][1] <= raw[k][0] {
        return Unreadable(InvalidRangeList);
      }
      parsed := parsed + [Bounds(raw[k][0], raw[k][1])];
    }
    assert parsed == Decoded(raw, limit);
    var checked := NormalizeRanges(limit, parsed);
    if checked.Refused? {
      return Unreadable(InvalidRangeList);
    }
    r := Read(parsed);
  }

  // ----- reading a point

  ghost predicate SelectedOk(raw: seq<int>, candidates: seq<TokenRange>, limit: int) {
    && (forall i, j :: 0 <= i < j < |raw| ==> raw[i] < raw[j])
    && (forall i :: 0 <= i < |raw| ==> 0 <= raw[i] < limit && raw[i] in Union(candidates))
  }

  function DecodedRows(raw: seq<int>): seq<nat>
    requires forall i :: 0 <= i < |raw| ==> 0 <= raw[i]
  {
    seq(|raw|, i requires 0 <= i < |raw| => raw[i])
  }

  method ReadSelected(
      raw: seq<int>, promptTokens: nat, candidates: seq<TokenRange>, suffix: nat) returns (r: ReadResult<seq<nat>>)
    requires suffix <= promptTokens
    ensures r.Read? <==> SelectedOk(raw, candidates, promptTokens - suffix)
    ensures r.Read? ==> r.value == DecodedRows(raw)
  {
    for k := 0 to |raw|
      invariant forall i :: 0 <= i < k ==> 0 <= raw[i] < promptTokens
    {
      if !(0 <= raw[k] <= promptTokens - 1) {
        return Unreadable(InvalidPoint);
      }
    }
    for k := 0 to |raw|
      invariant forall i, j :: 0 <= i < j < k ==> raw[i] < raw[j]
    {
      if k > 0 && raw[k - 1] >= raw[k] {
        return Unreadable(InvalidPoint);
      }
    }
    for k := 0 to |raw|
      invariant forall i :: 0 <= i < k ==> raw[i] < promptTokens - suffix && raw[i] in Union(candidates)
    {
      if !Covers(candidates, raw[k]) || raw[k] >= promptTokens - suffix {
        return Unreadable(PointMismatch);
      }
    }
    r := Read(DecodedRows(raw));
  }

  /** The rules a raw point must meet, field by field. */
  ghost predicate PointOk(raw: RawPoint) {
    && 0 <= raw.promptTokens <= MAX_CONTEXT_TOKENS && 0 <= raw.checkLayer < NUM_LAYERS
    && 0.0 <= raw.ratio <= 1.0 && 0 <= raw.suffix <= raw.promptTokens
    && RangesOk(raw.candidates, raw.promptTokens) && RangesOk(raw.recompute, raw.promptTokens)
    && raw.layerRecompute == seq(NUM_LAYERS, i => raw.recompute)
    && RowsOk(raw)
    && (raw.measurement.Some? ==> raw.measurement.value.Valid())
  }

  ghost predicate RowsOk(raw: RawPoint)
    requires 0 <= raw.suffix <= raw.promptTokens && 0.0 <= raw.ratio <= 1.0
    requires RangeTexts(raw.candidates, raw.promptTokens) && RangeTexts(raw.recompute, raw.promptTokens)
  {
    var candidates := Decoded(raw.candidates, raw.promptTokens);
    var recompute := Decoded(raw.recompute, raw.promptTokens);
    && SelectedOk(raw.selected, candidates, raw.promptTokens - raw.suffix)
    && |raw.selected| == Budget(|EligibleRows(candidates, raw.promptTokens - raw.suffix)|, raw.ratio)
    && Canonical(recompute)
    && Union(recompute) == Forced(raw.promptTokens, candidates, raw.suffix) + Positions(DecodedRows(raw.selected))
  }

  function UniformPlan(promptTokens: nat, recompute: seq<TokenRange>): RowPlan {
    RowPlan(promptTokens, seq(NUM_LAYERS, i requires 0 <= i < NUM_LAYERS => LayerRows(i, promptTokens, recompute)))
  }

  /** The point a well-formed mapping stands for. */
  function Rebuilt(raw: RawPoint): SweepPoint
    requires 0 <= raw.promptTokens && 0 <= raw.checkLayer && 0 <= raw.suffix
    requires RangeTexts(raw.candidates, raw.promptTokens) && RangeTexts(raw.recompute, raw.promptTokens)
    requires forall i :: 0 <= i < |raw.selected| ==> 0 <= raw.selected[i]
  {
    var recompute := Decoded(raw.recompute, raw.promptTokens);
    SweepPoint(PolicyResult(raw.checkLayer, raw.ratio, raw.suffix, Decoded(raw.candidates, raw.promptTokens), recompute,
                            DecodedRows(raw.selected), UniformPlan(raw.promptTokens, recompute)),
               raw.measurement)
  }

  lemma RebuiltIsValid(raw: RawPoint)
    requires PointOk(raw)
    ensures ValidPoint(Rebuilt(raw))
  {
    var p := Rebuilt(raw).result;
    assert p.rowPlan.Valid();
    assert p.selected == DecodedRows(raw.selected);
    forall q | q in p.selected
      ensures q in Union(p.candidates) && q < p.rowPlan.promptTokens - p.suffix
    {
      var i :| 0 <= i < |p.selected| && p.selected[i] == q;
      assert raw.selected[i] == q;
    }
  }

  lemma RebuiltWrites(raw: RawPoint)
    requires PointOk(raw)
    ensures WritePoint(Rebuilt(raw)) == raw
  {
    var p := Rebuilt(raw).result;
    DecodedWrites(raw.candidates, raw.promptTokens);
    DecodedWrites(raw.recompute, raw.promptTokens);
    assert Map(WriteRow, p.selected) == raw.selected;
    var texts := Map(LayerText, p.rowPlan.layers);
    forall i | 0 <= i < NUM_LAYERS
      ensures texts[i] == raw.layerRecompute[i]
    {
      assert texts[i] == LayerText(p.rowPlan.layers[i]);
    }
    assert texts == raw.layerRecompute;
  }

  lemma ValidIsUniform(r: PolicyResult)
    requires IsPoint(r)
    ensures r.rowPlan == UniformPlan(r.rowPlan.promptTokens, r.recompute)
    ensures Map(LayerText, r.rowPlan.layers) == seq(NUM_LAYERS, i => WriteRanges(r.recompute))
  {
    assert r.rowPlan.layers == UniformPlan(r.rowPlan.promptTokens, r.recompute).layers;
    forall i | 0 <= i < NUM_LAYERS
      ensures Map(LayerText, r.rowPlan.layers)[i] == WriteRanges(r.recompute)
    {
      assert Map(LayerText, r.rowPlan.layers)[i] == LayerText(r.rowPlan.layers[i]);
    }
  }

  lemma WrittenRows(selected: seq<nat>)
    ensures forall i :: 0 <= i < |selected| ==> Map(WriteRow, selected)[i] == selected[i]
    ensures DecodedRows(Map(WriteRow, selected)) == selected
  {
    forall i | 0 <= i < |selected|
      ensures Map(WriteRow, selected)[i] == selected[i]
    {
      assert Map(WriteRow, selected)[i] == WriteRow(selected[i]);
    }
  }

  lemma WrittenSelected(selected: seq<nat>, candidates: seq<TokenRange>, limit: int)
    requires Increasing(selected)
    requires forall p :: p in selected ==> p in Union(candidates) && p < limit
    ensures SelectedOk(Map(WriteRow, selected), candidates, limit)
  {
    WrittenRows(selected);
    forall i | 0 <= i < |selected|
      ensures Map(WriteRow, selected)[i] in Union(candidates) && Map(WriteRow, selected)[i] < limit
    {
      assert selected[i] in selected;
    }
  }

  /** Every valid point is readable, and reads back as itself. */
  lemma ValidIsReadable(p: SweepPoint)
    requires ValidPoint(p)
    ensures PointOk(WritePoint(p)) && Rebuilt(WritePoint(p)) == p
  {
    var r := p.result;
    var n := r.rowPlan.promptTokens;
    PlanRecomputeValid(r);
    WrittenDecodes(r.candidates, n);
    WrittenDecodes(r.recompute, n);
    ValidIsUniform(r);
    WrittenRows(r.selected);
    WrittenSelected(r.selected, r.candidates, n - r.suffix);
  }

  lemma PlanRecomputeValid(r: PolicyResult)
    requires IsPoint(r)
    ensures ValidRows(r.rowPlan.promptTokens, r.recompute)
  {
    assert r.rowPlan.layers[0].Valid() && r.rowPlan.layers[0].recompute == r.recompute;
  }

  method ReadLayers(
      raw: seq<seq<RawRange>>, promptTokens: nat, recomputeText: seq<RawRange>, recompute: seq<TokenRange>)
      returns (r: ReadResult<seq<seq<TokenRange>>>)
    requires promptTokens <= MAX_CONTEXT_TOKENS
    requires RangesOk(recomputeText, promptTokens) && recompute == Decoded(recomputeText, promptTokens)
    ensures r.Read? <==> raw == seq(NUM_LAYERS, i => recomputeText)
    ensures r.Read? ==> r.value == seq(NUM_LAYERS, i => recompute)
  {
    if |raw| != NUM_LAYERS {
      return Unreadable(InvalidPoint);
    }
    var parsed: seq<seq<TokenRange>> := [];
    for k := 0 to |raw|
      invariant |parsed| == k
      invariant forall i :: 0 <= i < k ==> RangesOk(raw[i], promptTokens) && parsed[i] == Decoded(raw[i], promptTokens)
    {
      var one := ReadRanges(raw[k], promptTokens);
      if one.Unreadable? {
        return Unreadable(one.error);
      }
      parsed := parsed + [one.value];
    }
    for k := 0 to |parsed|
      invariant forall i :: 0 <= i < k ==> raw[i] == recomputeText && parsed[i] == recompute
    {
      if parsed[k] != recompute {
        return Unreadable(PointMismatch);
      }
      DecodedWrites(raw[k], promptTokens);
      DecodedWrites(recomputeText, promptTokens);
    }
    r := Read(parsed);
  }

  /** Accepts exactly the mappings of valid points. */
  method ReadPoint(raw: RawPoint) returns (r: ReadResult<SweepPoint>)
    ensures r.Read? <==> PointOk(raw)
    ensures r.Read? ==> r.value == Rebuilt(raw)
  {
    if !(0 <= raw.promptTokens <= MAX_CONTEXT_TOKENS) || !(0 <= raw.checkLayer <= 23) || !(0.0 <= raw.ratio <= 1.0)
       || !(0 <= raw.suffix <= raw.promptTokens) {
      return Unreadable(InvalidPoint);
    }
    var prompt: nat := raw.promptTokens;
    var candidates := ReadRanges(raw.candidates, prompt);
    if candidates.Unreadable? {
      return Unreadable(candidates.error);
    }
    var recompute := ReadRanges(raw.recompute, prompt);
    if recompute.Unreadable? {
      return Unreadable(recompute.error);
    }
    var layers := ReadLayers(raw.layerRecompute, prompt, raw.recompute, recompute.value);
    if layers.Unreadable? {
      return Unreadable(layers.error);
    }
    var rows := CheckRows(raw, candidates.value, recompute.value);
    if rows.Unreadable? {
      return Unreadable(rows.error);
    }
    var plan := FromRecomputeRanges(prompt, layers.value);
    if plan.Refused? {
      return Unreadable(PointMismatch);
    }
    if raw.measurement.Some? && !raw.measurement.value.Valid() {
      return Unreadable(InvalidPoint);
    }
    assert plan.value.layers == UniformPlan(prompt, recompute.value).layers;
    r := Read(SweepPoint(PolicyResult(raw.checkLayer, raw.ratio, raw.suffix, candidates.value, recompute.value,
                                      DecodedRows(raw.selected), plan.value), raw.measurement));
  }

  method CheckRows(raw: RawPoint, candidates: seq<TokenRange>, recompute: seq<TokenRange>) returns (r: ReadResult<()>)
    requires 0 <= raw.suffix <= raw.promptTokens <= MAX_CONTEXT_TOKENS && 0.0 <= raw.ratio <= 1.0
    requires RangesOk(raw.candidates, raw.promptTokens) && RangesOk(raw.recompute, raw.promptTokens)
    requires candidates == Decoded(raw.candidates, raw.promptTokens)
      && recompute == Decoded(raw.recompute, raw.promptTokens)
    ensures r.Read? <==> RowsOk(raw)
  {
    var prompt: nat, suffix: nat := raw.promptTokens, raw.suffix;
    var selected := ReadSelected(raw.selected, prompt, candidates, suffix);
    if selected.Unreadable? {
      return Unreadable(selected.error);
    }
    if |selected.value| != Budget(|EligibleRows(candidates, prompt - suffix)|, raw.ratio) {
      return Unreadable(PointMismatch);
    }
    assert forall p :: p in selected.value ==> p < prompt;
    var expected := RecomputeRanges(prompt, candidates, suffix, selected.value);
    if Canonical(recompute) && Union(recompute) == Union(expected) {
      CanonicalUnique(recompute, expected);
    }
    if recompute != expected {
      return Unreadable(PointMismatch);
    }
    r := Read(());
  }

  // ----- whole sweeps

  method CheckContext(points: seq<SweepPoint>) returns (r: ReadResult<()>)
    requires SweepShape(points)
    ensures r.Read? <==> AllOrNoneMeasured(points)
    ensures r.Unreadable? ==> r.error == IncompleteMeasurements
  {
    if (exists i :: 0 <= i < |points| && points[i].measurement.Some?)
      && (exists i :: 0 <= i < |points| && points[i].measurement.None?) {
      return Unreadable(IncompleteMeasurements);
    }
    r := Read(());
  }

  ghost predicate SweepOk(raw: RawSweep) {
    && raw.kind == KIND && raw.schemaVersion == SCHEMA_VERSION
    && (forall i :: 0 <= i < |raw.points| ==> PointOk(raw.points[i]))
    && SweepShape(RebuiltAll(raw.points)) && AllOrNoneMeasured(RebuiltAll(raw.points))
  }

  function RebuiltAll(raw: seq<RawPoint>): (points: seq<SweepPoint>)
    requires forall i :: 0 <= i < |raw| ==> PointOk(raw[i])
    ensures |points| == |raw|
  {
    seq(|raw|, i requires 0 <= i < |raw| =>
      assert PointOk(raw[i]);
      Rebuilt(raw[i]))
  }

  lemma RebuiltSweep(raw: RawSweep)
    requires SweepOk(raw)
    ensures ValidSweep(RebuiltAll(raw.points)) && WriteSweep(RebuiltAll(raw.points)) == raw
  {
    var points := RebuiltAll(raw.points);
    forall i | 0 <= i < |points|
      ensures ValidPoint(points[i]) && Map(WritePoint, points)[i] == raw.points[i]
    {
      RebuiltIsValid(raw.points[i]);
      RebuiltWrites(raw.points[i]);
    }
    assert Map(WritePoint, points) == raw.points;
  }

  lemma ValidSweepReadable(points: seq<SweepPoint>)
    requires ValidSweep(points)
    ensures SweepOk(WriteSweep(points)) && RebuiltAll(WriteSweep(points).points) == points
  {
    var raw := WriteSweep(points).points;
    forall i | 0 <= i < |raw|
      ensures PointOk(raw[i]) && Rebuilt(raw[i]) == points[i]
    {
      assert raw[i] == WritePoint(points[i]);
      ValidIsReadable(points[i]);
    }
    assert RebuiltAll(raw) == points;
  }

  /** Reading is the inverse of writing: a mapping is accepted exactly when it is what some
      valid sweep is written as, and that sweep is returned. */
  method FromMapping(raw: RawSweep) returns (r: ReadResult<seq<SweepPoint>>)
    ensures r.Read? <==> exists points :: ValidSweep(points) && WriteSweep(points) == raw
    ensures r.Read? ==> ValidSweep(r.value) && WriteSweep(r.value) == raw
    ensures forall points :: ValidSweep(points) && WriteSweep(points) == raw ==> r == Read(points)
  {
    r := ReadSweep(raw);
    if SweepOk(raw) {
      RebuiltSweep(raw);
    }
    forall points | ValidSweep(points) && WriteSweep(points) == raw
      ensures SweepOk(raw) && points == RebuiltAll(raw.points)
    {
      ValidSweepReadable(points);
    }
  }

  method ReadSweep(raw: RawSweep) returns (r: ReadResult<seq<SweepPoint>>)
    ensures r.Read? <==> SweepOk(raw)
    ensures r.Read? ==> r.value == RebuiltAll(raw.points)
  {
    if raw.kind != KIND || raw.schemaVersion != SCHEMA_VERSION || raw.points == [] {
      return Unreadable(InvalidSchema);
    }
    var points: seq<SweepPoint> := [];
    for k := 0 to |raw.points|
      invariant |points| == k
      invariant forall i :: 0 <= i < k ==> PointOk(raw.points[i]) && points[i] == Rebuilt(raw.points[i])
    {
      var point := ReadPoint(raw.points[k]);
      if point.Unreadable? {
        return Unreadable(point.error);
      }
      points := points + [point.value];
    }
    assert points == RebuiltAll(raw.points);
    var made := MakeSweep(points);
    if made.Failed? {
      return Unreadable(if made.error == InconsistentSweep then MixedContext else InvalidPoint);
    }
    var checked := CheckContext(points);
    if checked.Unreadable? {
      return Unreadable(checked.error);
    }
    r := Read(points);
  }

  lemma WriteRangesInjective(a: seq<TokenRange>, b: seq<TokenRange>)
    requires WriteRanges(a) == WriteRanges(b)
    ensures a == b
  {
    assert |a| == |WriteRanges(a)| == |b|;
    forall i | 0 <= i < |a|
      ensures a[i] == b[i]
    {
      assert WriteRange(a[i]) == WriteRanges(a)[i] == WriteRange(b[i]);
      assert WriteRange(a[i])[0] == WriteRange(b[i])[0] && WriteRange(a[i])[1] == WriteRange(b[i])[1];
    }
  }

  lemma SameLayers(a: RowPlan, b: RowPlan)
    requires a.Valid() && b.Valid() && a.promptTokens == b.promptTokens
    requires Map(LayerText, a.layers) == Map(LayerText, b.layers)
    ensures a == b
  {
    forall i | 0 <= i < NUM_LAYERS
      ensures a.layers[i] == b.layers[i]
    {
      assert LayerText(a.layers[i]) == Map(LayerText, a.layers)[i] == LayerText(b.layers[i]);
      WriteRangesInjective(a.layers[i].recompute, b.layers[i].recompute);
    }
    assert a.layers == b.layers;
  }

  /** The mapping determines the point. */
  lemma SamePoint(a: SweepPoint, b: SweepPoint)
    requires a.result.rowPlan.Valid() && b.result.rowPlan.Valid() && WritePoint(a) == WritePoint(b)
    ensures a == b
  {
    WriteRangesInjective(a.result.candidates, b.result.candidates);
    WriteRangesInjective(a.result.recompute, b.result.recompute);
    WrittenRows(a.result.selected);
    WrittenRows(b.result.selected);
    SameLayers(a.result.rowPlan, b.result.rowPlan);
  }

  lemma SameSweep(a: seq<SweepPoint>, b: seq<SweepPoint>)
    requires (forall i :: 0 <= i < |a| ==> a[i].result.rowPlan.Valid())
      && (forall i :: 0 <= i < |b| ==> b[i].result.rowPlan.Valid())
    requires WriteSweep(a) == WriteSweep(b)
    ensures a == b
  {
    assert |a| == |WriteSweep(a).points| == |b|;
    forall i | 0 <= i < |a|
      ensures a[i] == b[i]
    {
      assert WritePoint(a[i]) == WriteSweep(a).points[i] == WritePoint(b[i]);
      SamePoint(a[i], b[i]);
    }
  }

  /** Writing parses its own output first, so only valid sweeps are ever written. */
  method ToMapping(points: seq<SweepPoint>) returns (r: ReadResult<RawSweep>)
    requires SweepShape(points) && forall i :: 0 <= i < |points| ==> points[i].result.rowPlan.Valid()
    ensures r.Read? <==> ValidSweep(points)
    ensures r.Read? ==> r.value == WriteSweep(points)
  {
    var checked := CheckContext(points);
    if checked.Unreadable? {
      return Unreadable(checked.error);
    }
    var parsed := FromMapping(WriteSweep(points));
    if parsed.Unreadable? {
      return Unreadable(parsed.error);
    }
    SameSweep(points, parsed.value);
    r := Read(WriteSweep(points));
  }
}
