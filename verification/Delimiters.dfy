/** Splitting a document at exact token delimiters. */
module Delimiters {
  import opened Order
  import opened Ranges
  import opened Models
  import opened Dedup
  import opened Segmentation

  type Delimiter = seq<TokenId>

  datatype SegmenterResult = Segmenter(delimiters: seq<Delimiter>) | NoDelimiters | EmptyDelimiter

  predicate StartsAt(tokens: seq<TokenId>, at: nat, d: Delimiter) {
    at + |d| <= |tokens| && tokens[at..at + |d|] == d
  }

  /** The length of the longest delimiter that starts at a position, or 0. */
  function Longest(tokens: seq<TokenId>, ds: seq<Delimiter>, at: nat): (n: nat)
    ensures at <= |tokens| ==> at + n <= |tokens|
  {
    if ds == [] then 0
    else
      var n, d := Longest(tokens, ds[..|ds| - 1], at), ds[|ds| - 1];
      if StartsAt(tokens, at, d) && |d| > n then |d| else n
  }

  lemma {:induction false} LongestMeaning(tokens: seq<TokenId>, ds: seq<Delimiter>, at: nat)
    ensures var n := Longest(tokens, ds, at);
      && (forall d :: d in ds && StartsAt(tokens, at, d) ==> |d| <= n)
      && (n > 0 ==> exists d :: d in ds && StartsAt(tokens, at, d) && |d| == n)
  {
    if ds != [] {
      var front, last := ds[..|ds| - 1], ds[|ds| - 1];
      LongestMeaning(tokens, front, at);
      assert ds == front + [last];
    }
  }

  /** Only which delimiters there are matters, not their order or how often they are given. */
  lemma LongestOfSame(tokens: seq<TokenId>, a: seq<Delimiter>, b: seq<Delimiter>, at: nat)
    requires forall d :: d in a <==> d in b
    ensures Longest(tokens, a, at) == Longest(tokens, b, at)
  {
    LongestMeaning(tokens, a, at);
    LongestMeaning(tokens, b, at);
  }

  // ----- the order in which delimiters are tried

  function DelimiterKey(d: Delimiter): SortKey { [[-|d|], d] }

  predicate DelimiterLe(a: Delimiter, b: Delimiter) { KeyLe(DelimiterKey(a), DelimiterKey(b)) }

  lemma DelimiterOrder()
    ensures TotalPreorder(DelimiterLe)
  {
    KeyOrder();
    forall a: Delimiter, b: Delimiter
      ensures DelimiterLe(a, b) || DelimiterLe(b, a)
    {
      assert KeyLe(DelimiterKey(a), DelimiterKey(b)) || KeyLe(DelimiterKey(b), DelimiterKey(a));
    }
    forall a: Delimiter, b: Delimiter, c: Delimiter | DelimiterLe(a, b) && DelimiterLe(b, c)
      ensures DelimiterLe(a, c)
    {
      assert KeyLe(DelimiterKey(a), DelimiterKey(c));
    }
  }

  lemma EarlierIsLonger(a: Delimiter, b: Delimiter)
    requires DelimiterLe(a, b)
    ensures |a| >= |b|
  {
    assert DelimiterKey(a)[0] == [-|a|] && DelimiterKey(b)[0] == [-|b|];
    NumberText(-|a|, -|b|);
  }

  ghost predicate LongestFirst(ds: seq<Delimiter>) { forall i, j :: 0 <= i < j < |ds| ==> |ds[i]| >= |ds[j]| }

  ghost predicate Proper(ds: seq<Delimiter>) { forall d :: d in ds ==> d != [] }

  /** Refuses no delimiters and empty ones; otherwise keeps each once, longest first. */
  method MakeSegmenter(given: seq<Delimiter>) returns (r: SegmenterResult)
    ensures r.Segmenter? <==> given != [] && Proper(given)
    ensures r.NoDelimiters? <==> given == []
    ensures r.Segmenter? ==>
      && LongestFirst(r.delimiters) && Proper(r.delimiters) && Distinct(r.delimiters)
      && forall d :: d in r.delimiters <==> d in given
  {
    if given == [] {
      return NoDelimiters;
    }
    if i :| 0 <= i < |given| && given[i] == [] {
      assert given[i] in given;
      return EmptyDelimiter;
    }
    var unique := Unique(given);
    var ordered := SortBy(DelimiterLe, unique);
    DelimiterOrder();
    SortSorted(DelimiterLe, unique);
    SortMultiset(DelimiterLe, unique);
    UniqueDistinct(given);
    DistinctPermutation(unique, ordered);
    SortElements(DelimiterLe, unique);
    forall d
      ensures d in ordered <==> d in given
    {
      UniqueMembers(given, d);
    }
    forall i, j | 0 <= i < j < |ordered|
      ensures |ordered[i]| >= |ordered[j]|
    {
      EarlierIsLonger(ordered[i], ordered[j]);
    }
    r := Segmenter(ordered);
  }

  /** Trying the delimiters in order finds the longest one that starts here. */
  method FirstMatch(ds: seq<Delimiter>, tokens: seq<TokenId>, at: nat) returns (n: nat)
    requires LongestFirst(ds) && Proper(ds) && at <= |tokens|
    ensures n == Longest(tokens, ds, at)
  {
    LongestMeaning(tokens, ds, at);
    for i := 0 to |ds|
      invariant forall k :: 0 <= k < i ==> !StartsAt(tokens, at, ds[k])
    {
      assert ds[i] in ds;
      if StartsAt(tokens, at, ds[i]) {
        return |ds[i]|;
      }
    }
    return 0;
  }

  // ----- the split

  /** For each position, the length of the delimiter to cut there, or 0. */
  type Cutter = nat -> nat

  function CutterOf(tokens: seq<TokenId>, ds: seq<Delimiter>): Cutter { (at: nat) => Longest(tokens, ds, at) }

  /** Cuts stay inside a document of `n` tokens. */
  ghost predicate Bounded(cut: Cutter, n: nat) { forall at: nat :: at <= n ==> at + cut(at) <= n }

  datatype Part = Text(range: TokenRange) | Cut(range: TokenRange)

  /** No delimiter starts between `lo` and `hi`. */
  ghost predicate Clear(cut: Cutter, lo: nat, hi: nat) {
    forall p: nat :: lo <= p < hi ==> cut(p) == 0
  }

  /** `parts` cut up the positions from `at` to `n`: a whole delimiter wherever one starts, and
      maximal texts in which none does. */
  ghost predicate Splits(n: nat, cut: Cutter, parts: seq<Part>, at: nat, afterText: bool) {
    if parts == [] then at == n
    else
      && FirstPart(n, cut, parts[0], at, afterText)
      && Splits(n, cut, parts[1..], parts[0].range.end, parts[0].Text?)
  }

  ghost predicate FirstPart(n: nat, cut: Cutter, part: Part, at: nat, afterText: bool) {
    && part.range.start == at < part.range.end <= n
    && match part {
         case Cut(r) => r.end - r.start == cut(at)
         case Text(r) => !afterText && Clear(cut, at, r.end)
       }
  }

  function TextPart(start: nat, end: nat): seq<Part> {
    if start < end then [Text(Bounds(start, end))] else []
  }

  /** The text that ends at `cursor`, the delimiter there, and what follows it. */
  function AfterCut(start: nat, cursor: nat, next: nat, rest: seq<Part>): seq<Part>
    requires cursor <= next
  {
    TextPart(start, cursor) + ([Cut(Bounds(cursor, next))] + rest)
  }

  /** The split computed left to right; the text since `start` is still open at `cursor`. */
  function Split(n: nat, cut: Cutter, start: nat, cursor: nat): seq<Part>
    decreases n - cursor
  {
    if cursor >= n then TextPart(start, n)
    else if cut(cursor) == 0 then Split(n, cut, start, cursor + 1)
    else AfterCut(start, cursor, cursor + cut(cursor), Split(n, cut, cursor + cut(cursor), cursor + cut(cursor)))
  }

  lemma SplitsNext(n: nat, cut: Cutter, part: Part, rest: seq<Part>, at: nat, afterText: bool)
    requires FirstPart(n, cut, part, at, afterText) && Splits(n, cut, rest, part.range.end, part.Text?)
    ensures Splits(n, cut, [part] + rest, at, afterText)
  {
    assert ([part] + rest)[1..] == rest;
  }

  /** The computed parts are a split ... */
  lemma {:induction false} SplitIsSplit(n: nat, cut: Cutter, start: nat, cursor: nat)
    requires start <= cursor <= n && Bounded(cut, n) && Clear(cut, start, cursor)
    ensures Splits(n, cut, Split(n, cut, start, cursor), start, false)
    decreases n - cursor
  {
    if cursor == n {
      if start < cursor {
        SplitsNext(n, cut, Text(Bounds(start, cursor)), [], start, false);
      }
    } else if cut(cursor) == 0 {
      SplitIsSplit(n, cut, start, cursor + 1);
    } else {
      var next := cursor + cut(cursor);
      SplitIsSplit(n, cut, next, next);
      CutSplits(n, cut, Split(n, cut, next, next), start, cursor);
    }
  }

  lemma CutSplits(n: nat, cut: Cutter, rest: seq<Part>, start: nat, cursor: nat)
    requires start <= cursor < n && Clear(cut, start, cursor) && 0 < cut(cursor) && cursor + cut(cursor) <= n
    requires Splits(n, cut, rest, cursor + cut(cursor), false)
    ensures Splits(n, cut, AfterCut(start, cursor, cursor + cut(cursor), rest), start, false)
  {
    var part := Cut(Bounds(cursor, cursor + cut(cursor)));
    SplitsNext(n, cut, part, rest, cursor, start < cursor);
    if start < cursor {
      SplitsNext(n, cut, Text(Bounds(start, cursor)), [part] + rest, start, false);
    } else {
      assert TextPart(start, cursor) + ([part] + rest) == [part] + rest;
    }
  }

  /** ... and there is no other. */
  lemma {:induction false} SplitUnique(n: nat, cut: Cutter, a: seq<Part>, b: seq<Part>, at: nat, afterText: bool)
    requires Splits(n, cut, a, at, afterText) && Splits(n, cut, b, at, afterText)
    ensures a == b
  {
    if a != [] && b != [] {
      NotShorter(n, cut, a, b, at, afterText);
      NotShorter(n, cut, b, a, at, afterText);
      assert a[0] == b[0];
      SplitUnique(n, cut, a[1..], b[1..], a[0].range.end, a[0].Text?);
      assert a == [a[0]] + a[1..] && b == [b[0]] + b[1..];
    }
  }

  lemma NotShorter(n: nat, cut: Cutter, a: seq<Part>, b: seq<Part>, at: nat, afterText: bool)
    requires Splits(n, cut, a, at, afterText) && Splits(n, cut, b, at, afterText) && a != [] && b != []
    ensures a[0].Text? == b[0].Text? && a[0].range.end >= b[0].range.end
  {
    assert FirstPart(n, cut, a[0], at, afterText) && FirstPart(n, cut, b[0], at, afterText);
    if a[0].Text? && b[0].Text? && a[1..] != [] {
      assert FirstPart(n, cut, a[1], a[0].range.end, true);
      assert cut(a[0].range.end) > 0;
    }
  }

  // ----- the regions

  ghost predicate InTokens(tokens: seq<TokenId>, parts: seq<Part>) {
    forall i :: 0 <= i < |parts| ==> parts[i].range.start < parts[i].range.end <= |tokens|
  }

  lemma {:induction false} SplitsInTokens(tokens: seq<TokenId>, cut: Cutter, parts: seq<Part>, at: nat, afterText: bool)
    requires Splits(|tokens|, cut, parts, at, afterText)
    ensures InTokens(tokens, parts)
  {
    if parts != [] {
      SplitsInTokens(tokens, cut, parts[1..], parts[0].range.end, parts[0].Text?);
      assert parts == [parts[0]] + parts[1..];
    }
  }

  /** A stretch of the tokens, in absolute request coordinates. */
  function RegionAt(tokens: seq<TokenId>, offset: nat, start: nat, end: nat): TokenSegment
    requires start < end <= |tokens|
  {
    Segment(Bounds(offset + start, offset + end), tokens[start..end])
  }

  function RegionsOf(tokens: seq<TokenId>, offset: nat, parts: seq<Part>): seq<TokenSegment>
    requires InTokens(tokens, parts)
  {
    if parts == [] then []
    else
      TextOf(tokens, offset, parts[0]) + RegionsOf(tokens, offset, parts[1..])
  }

  lemma RegionsNext(tokens: seq<TokenId>, offset: nat, part: Part, rest: seq<Part>)
    requires part.range.start < part.range.end <= |tokens| && InTokens(tokens, rest)
    ensures InTokens(tokens, [part] + rest)
    ensures RegionsOf(tokens, offset, [part] + rest) == TextOf(tokens, offset, part) + RegionsOf(tokens, offset, rest)
  {
    assert ([part] + rest)[1..] == rest;
  }

  lemma Assoc<T>(a: seq<T>, b: seq<T>, c: seq<T>)
    ensures a + (b + c) == (a + b) + c
  {
  }

  function TextOf(tokens: seq<TokenId>, offset: nat, part: Part): seq<TokenSegment>
    requires part.range.start < part.range.end <= |tokens|
  {
    if part.Text? then [RegionAt(tokens, offset, part.range.start, part.range.end)] else []
  }

  lemma {:induction false} RegionsAppend(tokens: seq<TokenId>, offset: nat, a: seq<Part>, b: seq<Part>)
    requires InTokens(tokens, a) && InTokens(tokens, b)
    ensures InTokens(tokens, a + b)
    ensures RegionsOf(tokens, offset, a + b) == RegionsOf(tokens, offset, a) + RegionsOf(tokens, offset, b)
  {
    if a == [] {
      assert a + b == b;
    } else {
      RegionsAppend(tokens, offset, a[1..], b);
      RegionsNext(tokens, offset, a[0], a[1..] + b);
      assert a + b == [a[0]] + (a[1..] + b);
      Assoc(TextOf(tokens, offset, a[0]), RegionsOf(tokens, offset, a[1..]), RegionsOf(tokens, offset, b));
    }
  }

  lemma SplitOfDocument(tokens: seq<TokenId>, ds: seq<Delimiter>)
    ensures Splits(|tokens|, CutterOf(tokens, ds), Split(|tokens|, CutterOf(tokens, ds), 0, 0), 0, false)
    ensures InTokens(tokens, Split(|tokens|, CutterOf(tokens, ds), 0, 0))
  {
    SplitIsSplit(|tokens|, CutterOf(tokens, ds), 0, 0);
    SplitsInTokens(tokens, CutterOf(tokens, ds), Split(|tokens|, CutterOf(tokens, ds), 0, 0), 0, false);
  }

  /** The regions of a document: the texts of its split. */
  ghost function Regions(tokens: seq<TokenId>, ds: seq<Delimiter>, offset: nat): seq<TokenSegment> {
    SplitOfDocument(tokens, ds);
    RegionsOf(tokens, offset, Split(|tokens|, CutterOf(tokens, ds), 0, 0))
  }

  /** The region that ends at `cursor`, unless it is empty. */
  function OpenRegion(tokens: seq<TokenId>, offset: nat, start: nat, cursor: nat): seq<TokenSegment>
    requires start <= cursor <= |tokens|
  {
    if start < cursor then [RegionAt(tokens, offset, start, cursor)] else []
  }

  lemma OpenRegionIs(tokens: seq<TokenId>, offset: nat, start: nat, cursor: nat)
    requires start <= cursor <= |tokens|
    ensures InTokens(tokens, TextPart(start, cursor))
    ensures RegionsOf(tokens, offset, TextPart(start, cursor)) == OpenRegion(tokens, offset, start, cursor)
  {
    if start < cursor {
      RegionsNext(tokens, offset, Text(Bounds(start, cursor)), []);
    }
  }

  /** The regions found so far belong to the parts done so far. */
  ghost predicate Found(tokens: seq<TokenId>, offset: nat, done: seq<Part>, segments: seq<TokenSegment>) {
    InTokens(tokens, done) && segments == RegionsOf(tokens, offset, done)
  }

  lemma FoundText(
      tokens: seq<TokenId>, offset: nat, done: seq<Part>, segments: seq<TokenSegment>, start: nat, cursor: nat)
    requires start <= cursor <= |tokens| && Found(tokens, offset, done, segments)
    ensures Found(tokens, offset, done + TextPart(start, cursor), segments + OpenRegion(tokens, offset, start, cursor))
  {
    OpenRegionIs(tokens, offset, start, cursor);
    RegionsAppend(tokens, offset, done, TextPart(start, cursor));
  }

  lemma FoundCut(
      tokens: seq<TokenId>, offset: nat, done: seq<Part>, segments: seq<TokenSegment>, start: nat, cursor: nat,
      next: nat)
    requires start <= cursor < next <= |tokens| && Found(tokens, offset, done, segments)
    ensures Found(tokens, offset, done + TextPart(start, cursor) + [Cut(Bounds(cursor, next))],
                  segments + OpenRegion(tokens, offset, start, cursor))
  {
    FoundText(tokens, offset, done, segments, start, cursor);
    RegionsNext(tokens, offset, Cut(Bounds(cursor, next)), []);
    RegionsAppend(tokens, offset, done + TextPart(start, cursor), [Cut(Bounds(cursor, next))]);
  }

  lemma Regroup<T>(a: seq<T>, b: seq<T>, c: seq<T>, d: seq<T>)
    ensures a + (b + (c + d)) == (a + b + c) + d
  {
  }

  /** The parts done, followed by those ahead, are all the parts. */
  ghost predicate OnCourse(n: nat, cut: Cutter, all: seq<Part>, done: seq<Part>, start: nat, cursor: nat) {
    done + Split(n, cut, start, cursor) == all
  }

  /** Passing a delimiter moves its text and itself from the parts ahead to the parts done. */
  lemma PassCut(n: nat, cut: Cutter, all: seq<Part>, done: seq<Part>, start: nat, cursor: nat, next: nat)
    requires OnCourse(n, cut, all, done, start, cursor)
    requires cursor < n && cut(cursor) > 0 && next == cursor + cut(cursor)
    ensures OnCourse(n, cut, all, done + TextPart(start, cursor) + [Cut(Bounds(cursor, next))], next, next)
  {
    Regroup(done, TextPart(start, cursor), [Cut(Bounds(cursor, next))], Split(n, cut, next, next));
  }

  lemma PassToken(n: nat, cut: Cutter, all: seq<Part>, done: seq<Part>, start: nat, cursor: nat)
    requires OnCourse(n, cut, all, done, start, cursor) && cursor < n && cut(cursor) == 0
    ensures OnCourse(n, cut, all, done, start, cursor + 1)
  {
  }

  lemma CloseRegion(
      tokens: seq<TokenId>, cut: Cutter, offset: nat, all: seq<Part>, done: seq<Part>, segments: seq<TokenSegment>,
      start: nat, cursor: nat) returns (now: seq<Part>)
    requires start <= cursor < |tokens| && cut(cursor) > 0 && cursor + cut(cursor) <= |tokens|
    requires OnCourse(|tokens|, cut, all, done, start, cursor) && Found(tokens, offset, done, segments)
    ensures OnCourse(|tokens|, cut, all, now, cursor + cut(cursor), cursor + cut(cursor))
    ensures Found(tokens, offset, now, segments + OpenRegion(tokens, offset, start, cursor))
  {
    var next := cursor + cut(cursor);
    PassCut(|tokens|, cut, all, done, start, cursor, next);
    FoundCut(tokens, offset, done, segments, start, cursor, next);
    now := done + TextPart(start, cursor) + [Cut(Bounds(cursor, next))];
  }

  lemma LastRegion(
      tokens: seq<TokenId>, cut: Cutter, offset: nat, all: seq<Part>, done: seq<Part>, segments: seq<TokenSegment>,
      start: nat)
    requires start <= |tokens|
    requires OnCourse(|tokens|, cut, all, done, start, |tokens|) && Found(tokens, offset, done, segments)
    ensures Found(tokens, offset, all, segments + OpenRegion(tokens, offset, start, |tokens|))
  {
    FoundText(tokens, offset, done, segments, start, |tokens|);
  }

  method CutHere(ds: seq<Delimiter>, tokens: seq<TokenId>, at: nat, ghost cut: Cutter) returns (length: nat)
    requires LongestFirst(ds) && Proper(ds) && at < |tokens| && cut == CutterOf(tokens, ds)
    ensures length == cut(at) && at + length <= |tokens|
  {
    length := FirstMatch(ds, tokens, at);
  }

  /** One pass over the tokens, closing a region at each delimiter. */
  method SegmentDocument(ds: seq<Delimiter>, tokens: seq<TokenId>, offset: nat) returns (segments: seq<TokenSegment>)
    requires LongestFirst(ds) && Proper(ds)
    ensures segments == Regions(tokens, ds, offset)
  {
    ghost var cut := CutterOf(tokens, ds);
    ghost var all, done := Split(|tokens|, cut, 0, 0), [];
    segments := [];
    var start: nat, cursor: nat := 0, 0;
    while cursor < |tokens|
      invariant start <= cursor <= |tokens|
      invariant OnCourse(|tokens|, cut, all, done, start, cursor)
      invariant Found(tokens, offset, done, segments)
    {
      var length := CutHere(ds, tokens, cursor, cut);
      if length == 0 {
        PassToken(|tokens|, cut, all, done, start, cursor);
        cursor := cursor + 1;
      } else {
        done := CloseRegion(tokens, cut, offset, all, done, segments, start, cursor);
        segments := segments + OpenRegion(tokens, offset, start, cursor);
        cursor := cursor + length;
        start := cursor;
      }
    }
    LastRegion(tokens, cut, offset, all, done, segments, start);
    segments := segments + OpenRegion(tokens, offset, start, |tokens|);
  }

  // ----- what the regions are

  ghost predicate InSome(parts: seq<Part>, text: bool, p: nat) {
    exists i :: 0 <= i < |parts| && parts[i].Text? == text && InBounds(parts[i].range.start, parts[i].range.end, p)
  }

  lemma InSomeNext(part: Part, rest: seq<Part>, text: bool, p: nat)
    ensures InSome([part] + rest, text, p)
       <==> (part.Text? == text && InBounds(part.range.start, part.range.end, p)) || InSome(rest, text, p)
  {
    var parts := [part] + rest;
    if i :| 0 <= i < |rest| && rest[i].Text? == text && InBounds(rest[i].range.start, rest[i].range.end, p) {
      assert parts[i + 1] == rest[i];
    }
    assert parts[0] == part;
  }

  /** Every position is in a region or in a delimiter, never in both. */
  lemma {:induction false} EveryPositionOnce(
      n: nat, cut: Cutter, parts: seq<Part>, at: nat, afterText: bool, p: nat)
    requires Splits(n, cut, parts, at, afterText)
    ensures p < at ==> !InSome(parts, true, p) && !InSome(parts, false, p)
    ensures at <= p < n ==> InSome(parts, true, p) != InSome(parts, false, p)
  {
    if parts != [] {
      EveryPositionOnce(n, cut, parts[1..], parts[0].range.end, parts[0].Text?, p);
      assert parts == [parts[0]] + parts[1..];
      InSomeNext(parts[0], parts[1..], true, p);
      InSomeNext(parts[0], parts[1..], false, p);
    }
  }

  /** A region that reads the tokens, from `at` on. */
  ghost predicate ReadsFrom(tokens: seq<TokenId>, offset: nat, region: TokenSegment, at: nat, strictly: bool) {
    && offset + at <= region.range.start && region.range.end <= offset + |tokens|
    && (strictly ==> offset + at < region.range.start)
    && region.tokens == tokens[region.range.start - offset..region.range.end - offset]
  }

  /** The regions read the tokens, in order, with a delimiter between any two of them. */
  ghost predicate Separated(tokens: seq<TokenId>, offset: nat, regions: seq<TokenSegment>, at: nat, strictly: bool) {
    && (forall i :: 0 <= i < |regions| ==> ReadsFrom(tokens, offset, regions[i], at, strictly))
    && forall i, j :: 0 <= i < j < |regions| ==> regions[i].range.end < regions[j].range.start
  }

  lemma ReadsFromEarlier(tokens: seq<TokenId>, offset: nat, region: TokenSegment, at: nat, end: nat, strictly: bool)
    requires at < end && ReadsFrom(tokens, offset, region, end, strictly)
    ensures forall other :: ReadsFrom(tokens, offset, region, at, other)
  {
  }

  lemma SeparatedNext(tokens: seq<TokenId>, offset: nat, rest: seq<TokenSegment>, start: nat, end: nat)
    requires start < end <= |tokens| && Separated(tokens, offset, rest, end, true)
    ensures Separated(tokens, offset, [RegionAt(tokens, offset, start, end)] + rest, start, false)
  {
    var regions := [RegionAt(tokens, offset, start, end)] + rest;
    forall i | 0 <= i < |regions|
      ensures ReadsFrom(tokens, offset, regions[i], start, false)
    {
      if i > 0 {
        ReadsFromEarlier(tokens, offset, rest[i - 1], start, end, true);
      }
    }
    forall i, j | 0 <= i < j < |regions|
      ensures regions[i].range.end < regions[j].range.start
    {
      assert ReadsFrom(tokens, offset, rest[j - 1], end, true);
    }
  }

  lemma SeparatedAfterCut(
      tokens: seq<TokenId>, offset: nat, regions: seq<TokenSegment>, at: nat, end: nat, strictly: bool)
    requires at < end && Separated(tokens, offset, regions, end, false)
    ensures Separated(tokens, offset, regions, at, strictly)
  {
    forall i | 0 <= i < |regions|
      ensures ReadsFrom(tokens, offset, regions[i], at, strictly)
    {
      ReadsFromEarlier(tokens, offset, regions[i], at, end, false);
    }
  }

  lemma {:induction false} RegionsSeparated(
      tokens: seq<TokenId>, cut: Cutter, parts: seq<Part>, at: nat, afterText: bool, offset: nat)
    requires Splits(|tokens|, cut, parts, at, afterText)
    ensures InTokens(tokens, parts) && Separated(tokens, offset, RegionsOf(tokens, offset, parts), at, afterText)
  {
    if parts != [] {
      RegionsSeparated(tokens, cut, parts[1..], parts[0].range.end, parts[0].Text?, offset);
      SeparatedMore(tokens, offset, parts[0], parts[1..], afterText);
      assert parts == [parts[0]] + parts[1..];
    }
  }

  lemma SeparatedMore(tokens: seq<TokenId>, offset: nat, part: Part, rest: seq<Part>, afterText: bool)
    requires part.range.start < part.range.end <= |tokens| && InTokens(tokens, rest)
    requires Separated(tokens, offset, RegionsOf(tokens, offset, rest), part.range.end, part.Text?)
    requires part.Text? ==> !afterText
    ensures InTokens(tokens, [part] + rest)
    ensures Separated(tokens, offset, RegionsOf(tokens, offset, [part] + rest), part.range.start, afterText)
  {
    RegionsNext(tokens, offset, part, rest);
    var regions := RegionsOf(tokens, offset, rest);
    if part.Text? {
      SeparatedNext(tokens, offset, regions, part.range.start, part.range.end);
    } else {
      SeparatedAfterCut(tokens, offset, regions, part.range.start, part.range.end, afterText);
      assert [] + regions == regions;
    }
  }

  /** A document's regions do not meet, and lie inside the document. */
  lemma DocumentRegions(tokens: seq<TokenId>, ds: seq<Delimiter>, offset: nat)
    ensures DisjointRegions(Regions(tokens, ds, offset))
    ensures Separated(tokens, offset, Regions(tokens, ds, offset), 0, false)
  {
    var cut := CutterOf(tokens, ds);
    SplitOfDocument(tokens, ds);
    RegionsSeparated(tokens, cut, Split(|tokens|, cut, 0, 0), 0, false, offset);
    var regions := Regions(tokens, ds, offset);
    forall i, j | 0 <= i < j < |regions|
      ensures !regions[i].range.Overlaps(regions[j].range)
    {
      assert regions[i].range.end < regions[j].range.start;
    }
  }

  // ----- the delimiters as they were given

  lemma {:induction false} SplitsAlike(n: nat, c: Cutter, d: Cutter, parts: seq<Part>, at: nat, afterText: bool)
    requires Splits(n, c, parts, at, afterText) && forall p: nat :: c(p) == d(p)
    ensures Splits(n, d, parts, at, afterText)
  {
    if parts != [] {
      assert FirstPart(n, d, parts[0], at, afterText);
      SplitsAlike(n, c, d, parts[1..], parts[0].range.end, parts[0].Text?);
    }
  }

  /** The regions depend on which delimiters there are, not on their order or repetition. */
  lemma RegionsOfSame(tokens: seq<TokenId>, a: seq<Delimiter>, b: seq<Delimiter>, offset: nat)
    requires forall d :: d in a <==> d in b
    ensures Regions(tokens, a, offset) == Regions(tokens, b, offset)
  {
    var c, d := CutterOf(tokens, a), CutterOf(tokens, b);
    forall p: nat
      ensures c(p) == d(p)
    {
      LongestOfSame(tokens, a, b, p);
    }
    SplitOfDocument(tokens, a);
    SplitOfDocument(tokens, b);
    SplitsAlike(|tokens|, c, d, Split(|tokens|, c, 0, 0), 0, false);
    SplitUnique(|tokens|, d, Split(|tokens|, c, 0, 0), Split(|tokens|, d, 0, 0), 0, false);
  }
}
