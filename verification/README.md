# Verification model of the cache-reuse planner and data plane

The system finds stored token chunks anywhere in a prompt, verifies them token by token,
maps them to paged key/value slots, writes only the rows a selective forward pass recomputes,
and accounts for every token.  This project models that logic in Dafny and proves what it is
relied on for.  `dafny verify dfyconfig.toml` verifies all files.

What the modules cover:

- **Match planning**: `IntervalSelection` (weighted interval scheduling with a tie-break),
  `Planner`, `PlanProperties`, `RecordIndex`, `Segmentation`, `Delimiters`,
  `PositionIndependence`, `RequestPlans`, `DocumentPlans`.
- **Storage lookup**: `StorageLookup` (untrusted candidates), `ExactMatcher` (the two-dictionary
  chunk index), `Codec`, `TextCodec`, `Preimages`, `Dedup`, `Sidecar`, `SidecarStore`,
  `SidecarDigests` (the persistent record table).
- **Request control plane**: `ControlPlane` (state transitions and the controller object),
  `Protocol` (scheduler and worker with messages in flight), `Metrics`.
- **Paged data plane**: `HybridLayout`, `Scatter`, `Tilings`, `BlockArithmetic`,
  `SelectiveWrites`, `WritePlanning`, `CacheRows`, `KvUpdate`, `KvBatch`, `KvSession`,
  `AttentionBridge`, `BridgeRuns`, `EndToEnd`.
- **Row policy**: `Ranges`, `RowSelection`, `Rankings`, `SelectionPolicy`, `SweepArtifacts`,
  `SweepOrigins`.
- **Numerics**: `Yarn` (key correction), `HighMass` (probability support).
- `Order`, `Models`, `ModelTarget`: orders and a stable sort, value types, constants.

Objects whose methods change fields are classes; caches are arrays written in place; loops are
loops, each proved against a function or a relation that is then reasoned about in lemmas.
Fingerprints and digests are arbitrary functions: no result needs them to be injective, and
`SidecarDigests` says exactly what a collision between two preimages in play would refuse.  Floats are reals; cosine,
sine, logarithm and power are given functions with the laws named in `Yarn.Functions`.

Three expectations turned out false of the code as it stands.  Each has a concrete example and
an exact condition:

- Adding one hash twice in a single call can leave the two matcher dictionaries in disagreement
  (`AddCanLoseAgreement`); they stay in agreement exactly when additions of that call that share
  a hash share their first token (`AddKeepsAgreementIff`).
- The sweep reader accepts sweeps that no score vector produces (`ReadableButNotProducible`);
  a readable sweep is producible exactly when its selections are nested (`ProducibleIffNested`).
- After a scheduler discard generations restart, so an old receipt can be accepted
  (`DiscardAdmitsOldReceipt`).  Over all runs, a receipt in flight at a discard is accepted later
  exactly when `OldReceiptAcceptedIff` says; between discards the staleness theorems hold.

One smaller point: a YaRN base of 1 passes the configuration check and then divides by the
logarithm of 1 (`BaseOneFails`); with every other accepted base the frequencies are computed
(`InverseFrequencies`).

## Model

| member | source | states |
|---|---|---|
| `IntervalSelection.SelectNonOverlapping` | src/cacheblend_gpt_oss/planner/matching.py:176-208 | For every list of non-empty candidates the dynamic program returns a left-to-right chain with the most tokens of any chain and, among those, the lexicographically least list of sort keys; the same algorithm is `storage/lookup.py:267-300`. |
| `IntervalSelection.CompatiblePrefix` | src/cacheblend_gpt_oss/planner/matching.py:193-198 | The predecessor scan returns the number of end-ordered items that end before the current one starts. |
| `IntervalSelection.BestCoversMost` | src/cacheblend_gpt_oss/planner/matching.py:170-208 | No set of pairwise non-overlapping candidates, in any order, covers more positions than the selection, and one that covers as many does not have smaller keys. |
| `IntervalSelection.KeysIgnoreOrder` | src/cacheblend_gpt_oss/planner/matching.py:132-208 | The chosen keys depend only on which candidates occur, not on their input order or multiplicity. |
| `IntervalSelection.LeftOutOverlaps` | src/cacheblend_gpt_oss/planner/matching.py:244-257 | Every candidate left out overlaps a chosen one, so the overlap reason given to it is true. |
| `Ranges.CoveredTokenCount` | src/cacheblend_gpt_oss/planner/matching.py:146-160 | The cursor sweep counts exactly the positions in the union of the ranges, for any order, overlap or empty range. |
| `Planner.Plan` | src/cacheblend_gpt_oss/planner/matching.py:223-268 | Some optimal selection among the verified candidates is what the plan lists, with every other looked-up candidate rejected with its reason. |
| `Planner.GatherCandidates` | src/cacheblend_gpt_oss/planner/matching.py:232-242 | Every record of every looked-up bucket is put through the gate once, and lands in the verified or in the rejected list. |
| `PlanProperties.EveryCandidateAccounted` | src/cacheblend_gpt_oss/planner/matching.py:223-268 | Matches and rejections together are, as a multiset, exactly the looked-up candidates. |
| `PlanProperties.MatchesAreExact` | src/cacheblend_gpt_oss/planner/matching.py:270-287 | A match carries the tokens of its query segment, in the right namespace, for an arbitrary fingerprint function (no injectivity). |
| `PlanProperties.MatchesInOrder` | src/cacheblend_gpt_oss/planner/matching.py:244-265 | Matched targets are non-empty, sorted and pairwise disjoint. |
| `PlanProperties.MatchedWithinRequested` | src/cacheblend_gpt_oss/planner/matching.py:74-76 | Matched tokens are the size of the union of matched targets and never exceed the requested tokens. |
| `PlanProperties.RejectionsExplained` | src/cacheblend_gpt_oss/planner/matching.py:236-287 | A gate reason is the gate's verdict; an overlap reason comes with a match that really overlaps. |
| `RecordIndex.InMemoryRecordIndex.Add` | src/cacheblend_gpt_oss/planner/matching.py:117-119 | Adding appends to the record's bucket and changes no other bucket. |
| `RecordIndex.InMemoryRecordIndex.Lookup` | src/cacheblend_gpt_oss/planner/matching.py:121-125 | A lookup lists the bucket in stable (key, start, end) order. |
| `RecordIndex.LookupMembers` | src/cacheblend_gpt_oss/planner/matching.py:107-130 | A lookup contains exactly the added records of that namespace and fingerprint. |
| `Segmentation.RollingQuerySegments` | src/cacheblend_gpt_oss/planner/segmentation.py:136-153 | The nested loops emit the windows of all regions in region, position, size order. |
| `Segmentation.MakeRolling` | src/cacheblend_gpt_oss/planner/segmentation.py:118-134 | Refuses exactly no sizes, a size or a stride that is not positive; otherwise keeps each size once, largest first. |
| `Segmentation.RollingWindows` | src/cacheblend_gpt_oss/planner/segmentation.py:136-153 | A segment is emitted if and only if it is a window of one of the sizes at a multiple of the stride that fits its region. |
| `Segmentation.StorageChunks` | src/cacheblend_gpt_oss/planner/segmentation.py:89-108 | The cursor loop emits the fixed-size chunks of all regions, the last one only if partial chunks of its size are wanted. |
| `Segmentation.ChunksConcat` | src/cacheblend_gpt_oss/planner/segmentation.py:89-108 | For every setting, the chunks of a region in order are its tokens without loss or repetition, up to a remainder that is too short or not wanted. |
| `Segmentation.ChunksAdjacent` | src/cacheblend_gpt_oss/planner/segmentation.py:89-108 | For every setting, the chunks of a region start with it and lie side by side, every one full except possibly the last. |
| `Segmentation.ChunksMeaning` | src/cacheblend_gpt_oss/planner/segmentation.py:89-108 | For every setting, a segment is a storage chunk if and only if it is the piece at a multiple of the chunk size that is full, or partial, wanted and long enough. |
| `Segmentation.RollingDistinct` | src/cacheblend_gpt_oss/planner/segmentation.py:136-153 | Windows of distinct sizes over disjoint regions are pairwise distinct. |
| `Segmentation.RollingWithin` | src/cacheblend_gpt_oss/planner/segmentation.py:136-153 | No window leaves the prompt if no region does. |
| `Delimiters.MakeSegmenter` | src/cacheblend_gpt_oss/planner/segmentation.py:21-29 | Refuses exactly an empty list and empty delimiters; otherwise keeps each delimiter once, longest first. |
| `Delimiters.FirstMatch` | src/cacheblend_gpt_oss/planner/segmentation.py:48-55 | Trying the delimiters in order finds the longest one that starts at the position. |
| `Delimiters.SegmentDocument` | src/cacheblend_gpt_oss/planner/segmentation.py:31-68 | The cursor loop returns the texts of the split of the document, in request coordinates. |
| `Delimiters.SplitIsSplit` | src/cacheblend_gpt_oss/planner/segmentation.py:44-67 | The computed parts follow one another: the longest delimiter wherever one starts, and maximal texts in which none does. |
| `Delimiters.SplitUnique` | src/cacheblend_gpt_oss/planner/segmentation.py:44-67 | There is only one such split, so this describes the result completely. |
| `Delimiters.EveryPositionOnce` | src/cacheblend_gpt_oss/planner/segmentation.py:44-67 | Every position is in a region or in a delimiter, never in both. |
| `Delimiters.DocumentRegions` | src/cacheblend_gpt_oss/planner/segmentation.py:31-68 | Regions read the document in order, with a delimiter between any two, and stay inside it. |
| `Delimiters.RegionsOfSame` | src/cacheblend_gpt_oss/planner/segmentation.py:21-29 | The regions depend only on which delimiters there are, not on their order or repetition. |
| `PositionIndependence.MovedChunksAreMatched` | src/cacheblend_gpt_oss/planner/matching.py:176-268 | With stride 1, for any pairwise disjoint occurrences of stored chunks whose sizes are among the windows, anywhere in the query regions, the plan matches at least their total length. |
| `RequestPlans.MakeRequestPlan` | src/cacheblend_gpt_oss/connector/control_plane.py:207-251 | The constructor accepts exactly the acceptable plans (distinct in-prompt queries, matches sorted, disjoint, exact, among the queries, requested equal to coverage, matched at most requested) and stores the queries sorted. |
| `RequestPlans.CheckMatches` | src/cacheblend_gpt_oss/connector/control_plane.py:223-244 | The match loop accepts exactly the lists whose every match is exact and whose targets are sorted and disjoint. |
| `RequestPlans.PlannerResultAcceptable` | src/cacheblend_gpt_oss/connector/control_plane.py:207-251 | Every plan the planner returns for distinct in-prompt queries passes every request-plan check. |
| `DocumentPlans.DocumentPlanAcceptable` | src/cacheblend_gpt_oss/connector/control_plane.py:207-251 | For every document, delimiters, distinct window sizes, stride and storage answer, the plan made for the rolling windows passes every request-plan check: its premises hold of every segmented document. |
| `DocumentPlans.PlanDocument` | src/cacheblend_gpt_oss/connector/control_plane.py:207-251 | Both segmenters, the planner and the request plan run together: for all settings the segmenters accept, every document and every storage, the plan is recorded exactly if there is a request id and no window ends outside the prompt. |
| `ControlPlane.ReceiptWellFormed` | src/cacheblend_gpt_oss/connector/control_plane.py:307-333 | A constructed receipt has sorted, distinct, disjoint, non-negative index lists. |
| `ControlPlane.AllocateCoherent` | src/cacheblend_gpt_oss/connector/control_plane.py:415-447 | Allocation keeps the state coherent, succeeds from lookup exactly with zero external tokens and capturable tables, and otherwise only replays. |
| `ControlPlane.HandOffCoherent` | src/cacheblend_gpt_oss/connector/control_plane.py:449-471 | A hand-off succeeds exactly once an allocation exists, and carries that plan and allocation. |
| `ControlPlane.ApplyCoherent` | src/cacheblend_gpt_oss/connector/control_plane.py:473-502 | An accepted receipt is for the current generation and block tables; a second one must be identical. |
| `ControlPlane.PreemptCoherent` | src/cacheblend_gpt_oss/connector/control_plane.py:504-519 | Preemption drops allocation and receipt and advances the generation unless nothing was allocated; it is refused only when finished. |
| `ControlPlane.FinishCoherent` | src/cacheblend_gpt_oss/connector/control_plane.py:521-528 | Finishing succeeds exactly from a validated or finished state and keeps its receipt. |
| `ControlPlane.FromHandoffCoherent` | src/cacheblend_gpt_oss/connector/control_plane.py:396-413 | A worker state rebuilt from a hand-off is coherent and holds its plan and allocation. |
| `ControlPlane.ReceiptAcceptedIff` | src/cacheblend_gpt_oss/connector/control_plane.py:473-502 | A receipt is accepted if and only if it names the current allocation, its indexes partition all matches, and the state is handed off or already holds it. |
| `ControlPlane.RequestControlPlane.Lookup` | src/cacheblend_gpt_oss/connector/control_plane.py:609-632 | Refuses unacceptable plans and duplicate ids without changing any state; otherwise records the new plan. |
| `ControlPlane.RequestControlPlane.AllocateRequest` | src/cacheblend_gpt_oss/connector/control_plane.py:639-652 | Replaces one request's state by the transition's result and leaves all states alone on failure. |
| `ControlPlane.RequestControlPlane.HandOffRequest` | src/cacheblend_gpt_oss/connector/control_plane.py:654-659 | As above for the hand-off, returning the metadata the new state holds. |
| `ControlPlane.RequestControlPlane.AcceptHandoff` | src/cacheblend_gpt_oss/connector/control_plane.py:661-673 | Worker side: stores the handed-off state, accepting an identical replay. |
| `ControlPlane.RequestControlPlane.ValidateWorker` | src/cacheblend_gpt_oss/connector/control_plane.py:675-695 | Worker side: builds and applies the receipt in one step. |
| `ControlPlane.RequestControlPlane.ApplyWorkerValidation` | src/cacheblend_gpt_oss/connector/control_plane.py:697-706 | Scheduler side: applies a delivered receipt to its request only. |
| `ControlPlane.RequestControlPlane.PreemptRequest` | src/cacheblend_gpt_oss/connector/control_plane.py:708-711 | Replaces one request's state by the preempted one; nothing changes on failure. |
| `ControlPlane.RequestControlPlane.FinishRequest` | src/cacheblend_gpt_oss/connector/control_plane.py:713-716 | Replaces one request's state by the finished one; nothing changes on failure. |
| `ControlPlane.RequestControlPlane.Discard` | src/cacheblend_gpt_oss/connector/control_plane.py:718-720 | Removes exactly the given request and returns its state if there was one. |
| `Protocol.RunSafe` | src/cacheblend_gpt_oss/connector/control_plane.py:587-720 | In every run of scheduler and worker with delayed, duplicated and reordered messages, every state and every message in flight stays coherent. |
| `Protocol.ValidatedHoldsCurrentReceipt` | src/cacheblend_gpt_oss/connector/control_plane.py:473-528 | In every run a validated or finished request holds a receipt the worker sent, for exactly its generation and block tables, whose indexes partition all matches. |
| `Protocol.OneReceiptPerGeneration` | src/cacheblend_gpt_oss/connector/control_plane.py:473-502 | While a request id lives, two receipts accepted in one generation are the same receipt. |
| `Protocol.NoReceiptForClosedGeneration` | src/cacheblend_gpt_oss/connector/control_plane.py:504-519 | In every lifetime of a request id: after a preemption no receipt for a generation that had begun by then is accepted again, whenever it was made, until the scheduler discards the request. |
| `Protocol.NoReceiptFromBeforePreemption` | src/cacheblend_gpt_oss/connector/control_plane.py:504-519 | In particular a receipt in flight when the request was preempted is never accepted afterwards, while the id has not been discarded. |
| `Protocol.RunStatesReachable` | src/cacheblend_gpt_oss/connector/control_plane.py:337-395 | Every state of every run is reachable in the sense the counter derivation relies on. |
| `Protocol.DiscardAdmitsOldReceipt` | src/cacheblend_gpt_oss/connector/control_plane.py:718-720 | A concrete run in which the scheduler discards a request, looks it up again with the same tables, and accepts a receipt from before the discard. |
| `Protocol.OldReceiptAcceptedIff` | src/cacheblend_gpt_oss/connector/control_plane.py:473-502 | In every run, a receipt in flight at a discard is accepted later if and only if the id is known again, stands at the very allocation the receipt names with as many matches as it disposes of, and is handed off or already holds it. |
| `Metrics.ValidateCounters` | src/cacheblend_gpt_oss/metrics/request.py:280-383 | The validator reports no issue exactly when the counters are consistent. |
| `Metrics.DeriveCounters` | src/cacheblend_gpt_oss/connector/control_plane.py:530-584 | From every reachable state the derivation succeeds exactly when validated or finished, and its counters violate no metric invariant; the negative-count branch cannot be reached. |
| `Metrics.LoadedWithinFound` | src/cacheblend_gpt_oss/connector/control_plane.py:548-563 | Loaded tokens are at most the distinct found tokens. |
| `Metrics.CountsBounded` | src/cacheblend_gpt_oss/connector/control_plane.py:554-563 | Found positions are at most requested positions, which are at most the prompt. |
| `StorageLookup.PlanLookup` | src/cacheblend_gpt_oss/storage/lookup.py:332-548 | A plan exactly when every candidate can be answered; otherwise the error is that of the first candidate that cannot: its target leaves the prompt, or the lookup it needs fails. The plan is an optimal selection with sorted rejections and balanced counters, so the binding and accounting failures are unreachable. |
| `StorageLookup.JudgeRecords` | src/cacheblend_gpt_oss/storage/lookup.py:391-464 | Which records verify, whether their source range is unique, and the reason otherwise. |
| `StorageLookup.AcceptedIsProven` | src/cacheblend_gpt_oss/storage/lookup.py:303-320 | An accepted candidate matches the prompt slice token for token under its own cache key, with one possible source range. |
| `StorageLookup.AcceptedIff` | src/cacheblend_gpt_oss/storage/lookup.py:303-320 | A candidate is accepted with a record if and only if its query is current and the record is provable for it, so the selection is over everything provable. |
| `StorageLookup.EveryRawAccounted` | src/cacheblend_gpt_oss/storage/lookup.py:332-548 | Every raw candidate is verified or rejected, and in exactly one of the two lists. |
| `StorageLookup.VerifiedOrdered` | src/cacheblend_gpt_oss/storage/lookup.py:484-498 | Verified targets are sorted and pairwise disjoint. |
| `StorageLookup.CountersBalance` | src/cacheblend_gpt_oss/storage/lookup.py:124-155 | All counter checks of the constructor hold of the counters the planner computes. |
| `StorageLookup.FoundTargetTokenCount` | src/cacheblend_gpt_oss/storage/lookup.py:166-185 | The property counts the union of the verified and found-but-rejected targets. |
| `StorageLookup.FoundCoverage` | src/cacheblend_gpt_oss/storage/lookup.py:166-185 | That union is exactly the union of all ranges found in storage. |
| `ExactMatcher.Matcher.OnNewTokenHashes` | src/cacheblend_gpt_oss/storage/lmcache_server_v0_4_3.py:93-150 | The loops compute the abstract add: conflicts and the capacity limit are decided before either dictionary changes. |
| `ExactMatcher.Matcher.RemoveChunks` | src/cacheblend_gpt_oss/storage/lmcache_server_v0_4_3.py:222-246 | Removal evicts the hashes from both dictionaries and drops emptied buckets. |
| `ExactMatcher.Matcher.MatchSubSequence` | src/cacheblend_gpt_oss/storage/lmcache_server_v0_4_3.py:153-219 | The indexed search returns exactly what brute force does: one match, at the least offset, for each stored hash whose chunk occurs, each once, by rising offset. |
| `ExactMatcher.RunSound` | src/cacheblend_gpt_oss/storage/lmcache_server_v0_4_3.py:93-246 | After any run of adds and evictions whose successful adds carry no hash for chunks with different first tokens, the dictionaries describe the same entries, no bucket is empty, chunks have the chunk size, and at most 2^20 hashes are stored. |
| `ExactMatcher.RunAgreesIff` | src/cacheblend_gpt_oss/storage/lmcache_server_v0_4_3.py:93-246 | Throughout a run the dictionaries agree if and only if every successful add of it carries no hash for chunks with different first tokens. |
| `ExactMatcher.AddKeepsAgreementIff` | src/cacheblend_gpt_oss/storage/lmcache_server_v0_4_3.py:131-143 | A successful add keeps the two dictionaries in agreement if and only if additions of that call that share a hash share their first token. |
| `ExactMatcher.AddCanLoseAgreement` | src/cacheblend_gpt_oss/storage/lmcache_server_v0_4_3.py:135-142 | A concrete call (one hash, two chunks) after which the dictionaries disagree. |
| `ExactMatcher.RegisterAllSize` | src/cacheblend_gpt_oss/storage/lmcache_server_v0_4_3.py:132-134 | The capacity test compares the size the index will have. |
| `ExactMatcher.EvictAllAgrees` | src/cacheblend_gpt_oss/storage/lmcache_server_v0_4_3.py:222-246 | Eviction keeps agreement and removes exactly the given hashes. |
| `ExactMatcher.RepeatedAddSucceedsIff` | src/cacheblend_gpt_oss/storage/lmcache_server_v0_4_3.py:135-142 | Repeating a successful add succeeds if and only if its hashes are distinct. |
| `Ranges.MergeRanges` | src/cacheblend_gpt_oss/gpt_oss/selective_policy.py:96-106 | Merging keeps the union, leaves a gap between any two ranges, and is canonical when no input is empty; the same loop is in `selective_policy_io.py:148-156`. |
| `Ranges.CanonicalUnique` | src/cacheblend_gpt_oss/gpt_oss/selective_policy.py:96-106 | A canonical list is determined by the positions it covers, so equal unions merge to identical lists. |
| `Ranges.ComputeComplement` | src/cacheblend_gpt_oss/gpt_oss/selective.py:97-111 | The cursor loop computes the complement; the same loop is in `selective_policy.py:109-121` and `selective_policy_io.py:134-145`. |
| `Ranges.ComplementMeaning` | src/cacheblend_gpt_oss/gpt_oss/selective.py:97-111 | The complement is canonical and covers exactly the prompt rows the ranges do not. |
| `Ranges.ComplementCounts` | src/cacheblend_gpt_oss/gpt_oss/selective.py:161-162 | Rows and complement rows add up to the prompt. |
| `Ranges.ComplementTwice` | src/cacheblend_gpt_oss/gpt_oss/selective_policy.py:109-121 | Complementing twice gives the merged original. |
| `RowSelection.NormalizeRanges` | src/cacheblend_gpt_oss/gpt_oss/selective.py:71-94 | The validator accepts exactly the ordered, in-prompt lists and returns them unchanged. |
| `RowSelection.SelectionCoversPrompt` | src/cacheblend_gpt_oss/gpt_oss/selective.py:119-166 | Recomputed and cached rows of a valid selection split the prompt. |
| `RowSelection.FromRecomputeRanges` | src/cacheblend_gpt_oss/gpt_oss/selective.py:176-233 | A row plan is built exactly when there is one valid list per layer; the coverage check on the built layers cannot fail. |
| `RowSelection.PlanAccountsForEveryRow` | src/cacheblend_gpt_oss/gpt_oss/selective.py:235-242 | Recomputed plus cached rows over all layers are one prompt per layer. |
| `SelectionPolicy.Select` | src/cacheblend_gpt_oss/gpt_oss/selective_policy.py:316-399 | Selection succeeds exactly on valid input, its ranges are always accepted by the row plan, and the result is the policy's top-ranked rows with the forced ones. |
| `SelectionPolicy.RecomputedIff` | src/cacheblend_gpt_oss/gpt_oss/selective_policy.py:370-399 | Row p is recomputed if and only if it is uncached, in the suffix, or outranked by fewer than floor(eligible * ratio) eligible rows (ties to lower positions). |
| `SelectionPolicy.LowerRatioNested` | src/cacheblend_gpt_oss/gpt_oss/selective_policy.py:370-399 | Lowering the ratio selects a subset of the rows. |
| `SelectionPolicy.FullRatio` | src/cacheblend_gpt_oss/gpt_oss/selective_policy.py:370-399 | Ratio 1 recomputes the whole prompt in every layer. |
| `SelectionPolicy.MakeSweep` | src/cacheblend_gpt_oss/gpt_oss/selective_policy.py:211-241 | A sweep is accepted exactly when it is non-empty, ratios strictly fall and the context is shared. |
| `SelectionPolicy.Sweep` | src/cacheblend_gpt_oss/gpt_oss/selective_policy.py:401-430 | A sweep succeeds exactly for valid inputs with strictly falling ratios; point k is the policy's own selection for ratio k. |
| `SweepArtifacts.FromMapping` | src/cacheblend_gpt_oss/gpt_oss/selective_policy_io.py:271-373 | A mapping is accepted if and only if it is what some valid sweep is written as, and exactly that sweep is returned. |
| `SweepArtifacts.ToMapping` | src/cacheblend_gpt_oss/gpt_oss/selective_policy_io.py:253-268 | Writing succeeds exactly for valid sweeps, even hand-built ones. |
| `SweepArtifacts.ReadRanges` | src/cacheblend_gpt_oss/gpt_oss/selective_policy_io.py:107-127 | Accepts exactly the encodings of ordered in-prompt range lists. |
| `SweepArtifacts.ReadSelected` | src/cacheblend_gpt_oss/gpt_oss/selective_policy_io.py:159-182 | Accepts exactly strictly rising rows that are cached and before the suffix. |
| `SweepArtifacts.ValidIsReadable` | src/cacheblend_gpt_oss/gpt_oss/selective_policy_io.py:203-226 | A valid point is readable and reads back as itself. |
| `SweepOrigins.PolicySweepSurvives` | src/cacheblend_gpt_oss/gpt_oss/selective_policy_io.py:253-373 | Every sweep the policy returns is written and read back unchanged. |
| `SweepOrigins.ProducibleIffNested` | src/cacheblend_gpt_oss/gpt_oss/selective_policy_io.py:271-373 | A readable sweep can come from one score vector if and only if a lower ratio never selects a row a higher ratio left cached. |
| `SweepOrigins.ReadableButNotProducible` | src/cacheblend_gpt_oss/gpt_oss/selective_policy_io.py:271-373 | A concrete two-row sweep that the reader accepts and no scores produce. |
| `HybridLayout.MakeLayout` | src/cacheblend_gpt_oss/gpt_oss/layout.py:169-227 | Accepts exactly two groups 0 and 1, one of each kind, listing each even (sliding) or odd (full) layer once; layer i ends up at position i; the final completeness test cannot fail. |
| `Scatter.MakeTransfer` | src/cacheblend_gpt_oss/gpt_oss/layout.py:294-307 | Accepts exactly equal-length, non-empty ranges inside the context. |
| `Scatter.ValidatedTables` | src/cacheblend_gpt_oss/gpt_oss/layout.py:391-425 | Accepts exactly one table per group with the group's block size and no missing block under the target. |
| `Scatter.ScatterGroup` | src/cacheblend_gpt_oss/gpt_oss/layout.py:428-465 | Spans tile the target range, keep the source shift, stay inside consecutive blocks and carry the right slot; the availability assertion cannot fail. |
| `Scatter.PlacedSlots` | src/cacheblend_gpt_oss/gpt_oss/layout.py:435-463 | Position p of a span goes to slot block_ids[p / size] * size + p % size, in the span's own block. |
| `Scatter.DistinctSlots` | src/cacheblend_gpt_oss/gpt_oss/layout.py:458-462 | Distinct block ids give distinct slots. |
| `Scatter.PlanTokenScatter` | src/cacheblend_gpt_oss/gpt_oss/layout.py:468-497 | Planning succeeds exactly for matching tables, and every layer's spans tile the target through its own group's table. |
| `Scatter.TilingSlots` | src/cacheblend_gpt_oss/gpt_oss/layout.py:428-465 | Read in order, the spans list exactly the block table's slots. |
| `Tilings.TilesMeaning` | src/cacheblend_gpt_oss/gpt_oss/selective_kv.py:194-208 | A tiling covers every position of its stretch exactly once, in order. |
| `Tilings.TilesFromCounts` | src/cacheblend_gpt_oss/gpt_oss/selective_kv.py:194-208 | Sorted ranges that cover the prompt and add up to its length tile it. |
| `SelectiveWrites.ValidateSpan` | src/cacheblend_gpt_oss/gpt_oss/selective_kv.py:119-154 | Accepts exactly spans of a known layer of the right kind, inside prompt, context and one block, with a matching slot. |
| `SelectiveWrites.SplitSpan` | src/cacheblend_gpt_oss/gpt_oss/selective_kv.py:157-191 | The loop cuts one span by the recompute ranges. |
| `SelectiveWrites.PiecesFit` | src/cacheblend_gpt_oss/gpt_oss/selective_kv.py:157-191 | Every piece keeps the source shift, block and slot of its rows. |
| `SelectiveWrites.PiecesCover` | src/cacheblend_gpt_oss/gpt_oss/selective_kv.py:157-191 | The pieces cover exactly the intersection of the span with the ranges. |
| `SelectiveWrites.ValidateLayerCoverage` | src/cacheblend_gpt_oss/gpt_oss/selective_kv.py:194-208 | Accepts exactly the span lists, in any order, that cover every prompt row once, and returns them as a tiling. |
| `WritePlanning.PlanSelectiveKvWrites` | src/cacheblend_gpt_oss/gpt_oss/selective_kv.py:306-338 | Succeeds exactly when every span is sound and every layer covers each row once; the plan's writes are the full spans cut by the rows to recompute. |
| `WritePlanning.FullScatterIsPlannable` | src/cacheblend_gpt_oss/gpt_oss/selective_kv.py:306-338 | A whole-prompt scatter is always plannable, whatever rows are chosen. |
| `WritePlanning.ValidateSlotMapping` | src/cacheblend_gpt_oss/gpt_oss/selective_kv.py:246-303 | For any plan, hand-built ones included: accepts exactly the vector of the slots of positions 0 to n, if the layer's spans cover these and nothing else; the layer, length and coverage errors have exact conditions, and a map of the right size that misses a position raises at that position; for a returned plan the only accepted vector is the plan's own and neither of the last two occurs. |
| `WritePlanning.AcceptedSlots` | src/cacheblend_gpt_oss/gpt_oss/selective_kv.py:291-303 | For a whole-prompt scatter that vector is the block table's slot of every position. |
| `WritePlanning.TableSlotsDistinct` | src/cacheblend_gpt_oss/gpt_oss/layout.py:428-465 | With distinct block ids no two positions share a slot. |
| `CacheRows.PlannedRows` | src/cacheblend_gpt_oss/gpt_oss/selective_kv.py:306-338 | A layer's planned writes cover exactly its rows to recompute. |
| `CacheRows.AppliedIsRefreshed` | src/cacheblend_gpt_oss/gpt_oss/selective_kv.py:506-556 | Copying the pieces puts each covered position's row into its slot and changes no other slot. |
| `CacheRows.PartialKeepsCached` | src/cacheblend_gpt_oss/gpt_oss/selective_kv.py:621-629 | Copying stopped at any point never touches the slot of a cached row. |
| `KvUpdate.PrepareLayer` | src/cacheblend_gpt_oss/gpt_oss/selective_kv.py:413-564 | Reads only; succeeds exactly for the plan's slot vector, full-prompt sources, one block size and existing blocks, and returns the planned pieces. |
| `KvUpdate.WriteLayer` | src/cacheblend_gpt_oss/gpt_oss/selective_kv.py:742-750 | Key and value copies in order; on an injected fault every slot is unchanged or holds its planned row. |
| `KvBatch.Update` | src/cacheblend_gpt_oss/gpt_oss/selective_kv.py:566-637 | Succeeds exactly if all layers pass preflight and no copy fails; then every layer holds its planned rows and the receipt is the plan's; a refused preflight changes nothing; a fault leaves only planned writes. |
| `KvBatch.UpdatedIsRefreshed` | src/cacheblend_gpt_oss/gpt_oss/selective_kv.py:566-637 | After success the key and value slot of each recomputed position hold its source rows and all other slots are unchanged (distinct slots). |
| `KvBatch.CachedSlotKept` | src/cacheblend_gpt_oss/gpt_oss/selective_kv.py:566-637 | However an update ended, cached slots keep their rows. |
| `EndToEnd.RefreshCaches` | src/cacheblend_gpt_oss/gpt_oss/selective_kv.py:566-637 | The whole chain, tables to scatter to write plan to caches: possible exactly for matching tables and a scatter of the whole prompt; on success every layer and position holds its source row or its old row; however it ends, no slot of any layer changes except those of recomputed positions, so blocks of other requests are untouched. |
| `EndToEnd.PlanWrites` | src/cacheblend_gpt_oss/gpt_oss/selective_kv.py:306-338 | Block tables give a write plan exactly when they match and the scatter covers the whole prompt, whatever rows are recomputed. |
| `EndToEnd.PositionAfterUpdate` | src/cacheblend_gpt_oss/gpt_oss/selective_kv.py:566-637 | From block tables to caches: position p's slot in its group's table is inside the cache and holds the source row if p is recomputed, and keeps its old row if p is cached. |
| `EndToEnd.PlannedSlotsDistinct` | src/cacheblend_gpt_oss/gpt_oss/selective_kv.py:291-303 | Distinct block ids in a layer's table make all slots of its plan distinct. |
| `KvSession.Session.UpdateLayer` | src/cacheblend_gpt_oss/gpt_oss/selective_kv.py:712-767 | Accepts only the next layer, only while active; success writes that layer and advances the counters; any failure is final; a preflight failure writes nothing. |
| `KvSession.Session.Finish` | src/cacheblend_gpt_oss/gpt_oss/selective_kv.py:769-783 | A receipt exactly when all layers are done, equal to the batch receipt. |
| `KvSession.RunSession` | src/cacheblend_gpt_oss/gpt_oss/selective_kv.py:712-783 | Driven over all layers without a copy fault, the session succeeds in exactly the cases in which the all-layer update does without a fault, with its caches and its receipt. |
| `KvSession.SameFinalCaches` | src/cacheblend_gpt_oss/gpt_oss/selective_kv.py:712-783 | The two contracts fix the same final caches. |
| `AttentionBridge.Bridge.RunLayer` | src/cacheblend_gpt_oss/gpt_oss/selective_attention.py:117-181 | A layer runs if and only if the bridge is active, the call is for the next layer with sinks and a callable, the update is prepared and survives, and attention succeeds; otherwise the error is that of the first failing check and is final; a call refused before its update touches neither log nor cache. |
| `AttentionBridge.Bridge.Finish` | src/cacheblend_gpt_oss/gpt_oss/selective_attention.py:183-203 | A receipt exactly when active and all layers ran, with the complete log. |
| `BridgeRuns.Drive` | src/cacheblend_gpt_oss/gpt_oss/selective_attention.py:99-212 | For any sequence of calls and failures: a receipt, one, exactly when call l runs layer l for every layer and the next call is a finish; the log is a prefix of update-0, attend-0, update-1, ...; each layer holds at most its own call's planned writes. |
| `BridgeRuns.Step` | src/cacheblend_gpt_oss/gpt_oss/selective_attention.py:205-212 | One call moves the bridge as the calls alone decide; it gives a receipt exactly when it is a finish on an active bridge with all layers run; once inactive, nothing changes. |
| `BridgeRuns.ProgressMeaning` | src/cacheblend_gpt_oss/gpt_oss/selective_attention.py:117-212 | After any k calls: still running exactly if call l ran layer l for all of them; halted only by the first call that did not; completed exactly by a whole request. |
| `BridgeRuns.RunRequest` | src/cacheblend_gpt_oss/gpt_oss/selective_attention.py:99-212 | An undisturbed request through the bridge gives the receipt and the caches of the all-layer update, in exactly the cases in which its preflight succeeds. |
| `BridgeRuns.RunKeepsCachedSlots` | src/cacheblend_gpt_oss/gpt_oss/selective_attention.py:99-212 | In every run, failed or not, the slots of cached positions keep their rows. |
| `Yarn.RotateNeox` | src/cacheblend_gpt_oss/gpt_oss/yarn.py:119-142 | The pairwise loop rotates pair (i, i + half) by position * frequency i, with the exact refusal conditions. |
| `Yarn.ShiftIsExact` | src/cacheblend_gpt_oss/gpt_oss/yarn.py:160-193 | Correcting the key rotated at source gives exactly the key rotated at target, for every raw key, all positions and either sign of shift, the scale applied once. |
| `Yarn.ShiftsCompose` | src/cacheblend_gpt_oss/gpt_oss/yarn.py:160-193 | Corrections compose by adding shifts. |
| `Yarn.ShiftUndone` | src/cacheblend_gpt_oss/gpt_oss/yarn.py:160-193 | Moving a key there and back restores it. |
| `Yarn.CorrectionUndone` | src/cacheblend_gpt_oss/gpt_oss/yarn.py:160-193 | For the real rotation, a correction followed by the opposite one restores the key. |
| `Yarn.ShiftKeepsNorms` | src/cacheblend_gpt_oss/gpt_oss/yarn.py:119-142 | A correction keeps the norm of every pair. |
| `Yarn.CorrectShiftedKey` | src/cacheblend_gpt_oss/gpt_oss/yarn.py:160-193 | Both branches compute the signed shift at unit scale; refused exactly for a wrong length, a negative position or a base of 1. |
| `Yarn.ApplyToKey` | src/cacheblend_gpt_oss/gpt_oss/yarn.py:145-157 | The rotated key at a position, scaled once; refused exactly for a wrong length, a negative position or a base of 1, and the scale check inside never fails. |
| `Yarn.Relocate` | src/cacheblend_gpt_oss/gpt_oss/yarn.py:145-193 | The two methods together: the corrected cached key equals the key rotated anew. |
| `Yarn.InverseFrequencies` | src/cacheblend_gpt_oss/gpt_oss/yarn.py:99-116 | The loop builds the blended frequencies, and fails exactly for a base of 1. |
| `Yarn.BaseOneFails` | src/cacheblend_gpt_oss/gpt_oss/yarn.py:29-74 | A configuration with base 1 is accepted, and then frequencies, rotation and correction all fail on it. |
| `Yarn.FrequencyEnds` | src/cacheblend_gpt_oss/gpt_oss/yarn.py:92-116 | For every extrapolation factor: slow pairs are divided by the factor, and fast pairs are plain to the extent of the extrapolation factor. |
| `Codec.EncodeTokenIds` | src/cacheblend_gpt_oss/storage/sidecar.py:394-399 | The loop builds magic, count and big-endian tokens. |
| `Codec.BlobRoundTrip` | src/cacheblend_gpt_oss/storage/sidecar.py:394-420 | Decoding undoes encoding for every permitted length. |
| `Codec.DecoderAcceptsExactly` | src/cacheblend_gpt_oss/storage/sidecar.py:402-420 | The decoder accepts a blob exactly when it encodes a tuple of the expected, permitted length. |
| `Codec.FramesInjective` | src/cacheblend_gpt_oss/storage/sidecar.py:378-383 | Length-prefixed fields under fixed names determine their values. |
| `Codec.ChunksInjective` | src/cacheblend_gpt_oss/planner/fingerprint.py:20-21 | A concatenation of length-prefixed values determines the list. |
| `TextCodec.Utf8Injective` | src/cacheblend_gpt_oss/storage/sidecar.py:386-391 | UTF-8 encoding is injective. |
| `TextCodec.Utf8KeepsOrder` | src/cacheblend_gpt_oss/storage/sidecar.py:908-918 | Byte order of UTF-8 keys is code point order, so the table sorts keys as the in-memory index does. |
| `TextCodec.DecimalInjective` | src/cacheblend_gpt_oss/planner/models.py:114-130 | The decimal schema version determines the number. |
| `Preimages.CanonicalTokenBytes` | src/cacheblend_gpt_oss/planner/fingerprint.py:24-32 | The loop builds the domain-separated token encoding. |
| `Preimages.FingerprintPreimageInjective` | src/cacheblend_gpt_oss/planner/fingerprint.py:44-56 | Equal fingerprint preimages mean equal namespaces and equal tokens. |
| `Preimages.NamespacePreimageInjective` | src/cacheblend_gpt_oss/storage/sidecar.py:386-391 | Equal namespace-key preimages mean equal namespaces. |
| `Preimages.RecordPreimageInjective` | src/cacheblend_gpt_oss/storage/sidecar.py:423-440 | Equal checksum preimages mean the same record in every field. |
| `Preimages.FeedFields` | src/cacheblend_gpt_oss/storage/sidecar.py:378-383 | Field-by-field digest updates feed exactly the framed preimage. |
| `Sidecar.RowRoundTrip` | src/cacheblend_gpt_oss/storage/sidecar.py:534-585 | A stored row gives back its record to a caller with its namespace and fingerprint, and is refused for any other. |
| `Sidecar.RowOrderIsRecordOrder` | src/cacheblend_gpt_oss/storage/sidecar.py:908-918 | The table's row order is the in-memory record order. |
| `Sidecar.SidecarCodingIsLawful` | src/cacheblend_gpt_oss/storage/sidecar.py:444-491 | The sidecar's encoding meets everything the store assumes of it, for any digest function. |
| `SidecarStore.Store.AddMany` | src/cacheblend_gpt_oss/storage/sidecar.py:849-892 | Stores the whole batch or nothing, exactly when the batch is within limits and no record's checksum belongs to a different earlier record; the count is the growth of the table. |
| `SidecarStore.InsertRow` | src/cacheblend_gpt_oss/storage/sidecar.py:868-889 | Insert-or-ignore by checksum; an ignored insert must find this very record. |
| `SidecarStore.CheckBatch` | src/cacheblend_gpt_oss/storage/sidecar.py:857-865 | The running checks decide exactly the record, count and token limits of the whole batch. |
| `SidecarStore.Store.Lookup` | src/cacheblend_gpt_oss/storage/sidecar.py:894-928 | Succeeds exactly for valid keys, at most 1,024 selected rows and no other namespace under the key; then returns the bucket in key, start, end, insertion order. |
| `SidecarStore.AgreesWithMemory` | src/cacheblend_gpt_oss/planner/matching.py:107-125 | For every history the sidecar's answer is the in-memory index's answer with repeats removed, each record once. |
| `SidecarDigests.BatchClashIff` | src/cacheblend_gpt_oss/storage/sidecar.py:868-889 | For any digest, a valid batch is refused for a clash if and only if the preimage of one of its records collides with that of a record before it. |
| `SidecarDigests.NamespaceAloneIff` | src/cacheblend_gpt_oss/storage/sidecar.py:534-545 | For any digest, a bucket mixes namespaces if and only if the caller's namespace preimage collides with that of a stored record under the same fingerprint. |
| `Dedup.UniqueSort` | src/cacheblend_gpt_oss/planner/matching.py:121-125 | Keeping first occurrences commutes with the stable sort. |
| `HighMass.HighMassSupport` | src/cacheblend_gpt_oss/correctness/probability_ensemble.py:361-376 | For every vector summing to 1 the greedy support has mass at least 1 - epsilon and no smaller set of tokens does; it is empty only for an empty vocabulary. |
| `HighMass.TopIsHeaviest` | src/cacheblend_gpt_oss/correctness/probability_ensemble.py:361-376 | The first k ranked tokens are the heaviest set of k tokens. |

## Left out

- Tensors: dtype, device and head-shape inspection, BF16 and FP32 rounding and the Torch kernels; a row is a value and a view is refused only for a missing block.
- KvBatch.Update: (and the session) the dtype and device comparisons between layers are not modelled, and the caches of different layers are assumed to be separate memory, which the engine provides.
- KvBatch.UpdatedIsRefreshed: distinct slots are a precondition, because distinct block ids are enforced by the engine adapter (`vllm_compat/v0_19_1/adapters.py`), not by the updater; `EndToEnd.PlannedSlotsDistinct` derives them from distinct block ids.
- ExactMatcher.Matcher.MatchSubSequence: among matches at one offset the order of the bucket is not fixed, and the vectorised hashing of the server is not modelled.
- StorageLookup.JudgeRecords: cache keys are given strings; their text pattern is not parsed.
- SQLite: schema checks, paths, pragmas, locking, the open and read-only modes and corrupt files; a table is a sequence of rows in insertion order with a unique checksum.
- JSON text and file handling of the sweep artifact: the model starts at the mapping, whose numbers are already numbers.
- SelectionPolicy.Select: the row budget is the floor of the exact product of count and ratio; the binary rounding of that product is not modelled.
- Preimages.RecordPreimageInjective: (and the other preimages) lengths are assumed to fit their 32- or 64-bit prefix; a longer value cannot be packed and the source raises.
- HighMass.HighMassSupport: only the support; log-softmax, Jensen-Shannon and the gates around it are numerics.
- Metric timers and correctness metrics, evidence and benchmark schemas, runtime and configuration validation: each checks one value at a time, so there is no state or algorithm behind it to reason about.
- Server wrappers, HTTP capture and scripts: they call foreign services.
- HybridLayout.MakeLayout: layers are given by index, so the parsing of layer names (aliases, non-decimal names) and the sliding-window values are not modelled.
- KvUpdate.PrepareLayer: the dtype, device and view-shape checks are not modelled; a row is a value.
- Type guards on booleans and integers, and non-finite floats: the model's types rule them out.
- Context binding of the active row plan (`gpt_oss/selective.py:255-282`): a single thread-local variable.
