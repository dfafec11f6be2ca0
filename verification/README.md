# Verdex: verified models of its stateful engines

Dafny models of the parts of Verdex where state and arithmetic carry promises
that no single function body shows, with proofs of those promises over whole
runs. `dafny verify dfyconfig.toml` checks everything.

## What is modelled

- **Audit chain** (`AuditChain.dfy`, `AuditStore.dfy`, `AuditRuns.dfy`;
  `packages/auditlog`). The digest and the hashed text are modelled character by
  character. SHA-256 (section 6.2 of FIPS 180-4) is a function into 64 lower-case
  hexadecimal characters, about which nothing is assumed except, where a result
  says so, that two rows at hand do not collide. IDs are UUID texts as in section
  4 of RFC 9562.
- **Bulk import** (`DedupKey.dfy`, `ImportTypes.dfy`, `ImportEngine.dfy`,
  `ImportRuns.dfy`, `ImportWitnesses.dfy`; `packages/bulkimport`). Any store call
  of `RunBatch` and `Rollback` may be the one that fails; runs interleave batches
  of any size, pauses, resumptions, failed rollbacks and other jobs.
- **Adaptive retrieval** (`RetrievalCache.dfy`, `RetrievalBuilder.dfy`;
  `packages/adaptiveretrieval`). The map and the linked list of the LRU cache,
  and the builder over a walk that is any function of tree and query.
- **Usage accounting** (`AccountingBudget.dfy`, `AccountingReports.dfy`;
  `packages/accounting`). Costs are added by an arbitrary function, so the
  agreement of the incremental and the recomputed state holds for rounding
  addition too; conservation of costs is stated for exact addition.
- **Agent runner** (`AgentRunner.dfy`; `packages/agentframework`). The model,
  the agent, the tools and the clock answer each step in any way.
- **Annotations** (`Annotations.dfy`; `packages/annotations`). Threads, the
  cascading delete, and an audit trail that is replayed.
- **Access decisions** (`AccessDecision.dfy`, `AccessEngine.dfy`;
  `packages/accessgovernance`). The stores list in map order, so a decision is
  described by a relation over their contents, and what does not depend on the
  order is a theorem.
- **Rule matching** (`RuleMatching.dfy`; `packages/application`). The
  hand-written insertion sort in place on an array, and the selection after it.

`Basics.dfy`, `Text.dfy` and `Sorting.dfy` hold what several of them share:
decimal numbers, joining and splitting at the separator, trimming, string order,
and the stable sort with its theory. Classes stand for the objects the source
updates in place, and each method is proved against a function of the old state;
the lemmas then reason about those functions.

For each component a file `…OnFields.dfy` says what its operations do in terms of
the fields of their inputs and of the stored records alone, without the functions
the methods are specified by: `AuditOnFields`, `DedupOnFields`, `ImportOnFields`,
`RetrievalOnFields`, `AccountingOnFields`, `AgentOnFields`, `AnnotationsOnFields`,
`AccessOnFields` and `MatchingOnFields`.

## Where the code and what is said about it differ

Each point names the exact condition and, behind it, a run or pair of inputs on
its failing side.

- `chain.go` says tampering with any single event, and deleting one, is caught.
  Rewriting the last event with a recomputed hash is not
  (`SingleEditUnnoticedIff`, `LastEventCanBeRewritten`), and neither is deleting
  rows at the start or at the end (`SelectionVerifiesIff`, `SegmentLinked`); of
  these, `VerifyGenesisChain` alone notices a missing start.
- `VerifyTenantChain` verifies rows re-sorted by (Time, ID), while `Append`
  links to the row inserted last: an untampered log whose events arrived out of
  that order is reported as broken (`AppendVerifiesIff`, `OutOfOrderAppendBreaks`).
  A purge can mend such a report, or leave a gap that is reported though all rows
  are in order (`RunVerifiesIff`, `PurgeMendsReport`, `PurgeLeavesGap`).
- The digest joins fields with a vertical bar and is ambiguous for fields that
  hold one; `Kind`, checked on append, and `Detail`, unless one of its tokens
  before a bar reads as a UUID, are safe (`DigestDeterminesIff`; every event that fails the
  condition has a twin).
- A batch that fails after writing rows leaves them: a retry writes the same
  source indices again and the counters fall short by what was left. A rollback
  that fails after reversing rows is not made up for by the next one either.
  `ImportedRecords` therefore ends below or above zero (`CountersExact`,
  `RollbackAfterRun`, `FailedBatchTakesCounterBelowZero`,
  `RetriedRollbackLeavesCounterAbove`).
- A job whose rollback failed can be resumed, and then completes without the
  keys that were reversed, unless later records carry them again
  (`CrashSafeAfterResumeIff`, `FailedRollbackLosesKey`).
- The deduplication key joins names with commas, so that two names and one name
  with a comma share it (`FalseDuplicateIff`, `MergedParties`); names written
  with a blank after the comma are told apart from one another
  (`EqualKeysEqualForms`).
- The shape key is ambiguous only with a hop outside the walker's vocabulary or
  an edge type that holds a vertical bar (`EqualShapesEqualWalks`,
  `VocabularyReadable`); which queries it then mixes up is `SharesIffReading` and
  `SharedWithAnotherWalkIff`, and that they are answered with the wrong walk is
  `MisreadIsServedWrong` (`SharedShapeDifferentWalk`, `EdgeBarSharesShape`).
- `build` never stamps `Subgraph.Revision`, so from the first revision above 0
  the cache never answers for a case (`HitsOnlyAtRevisionZero`,
  `RaisedCaseMissesAgain`).
- The comment of `Evaluate` ranks an elevation above a permitting case grant;
  the code asks the case grants first. The effect is the same, reason and grant
  differ (`DocumentedOrderIff`, `EffectAsDocumented`, `GrantShadowsElevation`).
  The order in which disagreeing policies are asked is the map's
  (`EffectDeterminedIff`, `PolicyOrderDecides`).
- `ScheduleReview` takes the requester from its caller: segregation of duties
  binds the grant's holder only if the review names that holder
  (`HolderRefusedIff`, `HolderCanApprove`). A revoking `Attest` whose revocation
  fails leaves the review decided (`AttestRevokeFailsIff`, `FailedAttestDecides`).
- Replies removed with their root get no audit record (`RemovalLoggedIff`,
  `CascadeLeavesNoTrace`), and `Create` replaces a stored annotation whose ID it
  is given, another tenant's as well (`CreateKeepsThreadsIff`,
  `CreateCanOrphanReply`, `OnlyAuthorsChange`, `CreateReplacesForeign`).
- The dashboard collects records dated after today in day buckets that no trend
  entry shows (`TrendAddsUp`, `FutureRecordInNoEntry`).

## Model

| member | source | states |
|---|---|---|
| AuditChain.DigestDeterminesIff | packages/auditlog/chain.go:16-36 | the digest text determines an event, up to its two hash fields, exactly when Actor, Action, Target, Outcome and Kind hold no vertical bar and no token of Detail that a bar follows reads as a UUID; every other event has a twin with the same digest |
| AuditChain.PreimageInjective | packages/auditlog/chain.go:44-48 | predecessor hash, event ID and digest can be read back from the hashed text: the '-' at index 8 of the ID tells an empty predecessor from a 64-character one, and the length frame delimits the digest |
| AuditChain.VerifyChain | packages/auditlog/chain.go:88-105 | Intact exactly for lists in which every row carries on from the one before and hashes to its own ChainHash; otherwise the first failing row, and which of the two checks failed there |
| AuditChain.VerifyGenesisChain | packages/auditlog/chain.go:128-133 | additionally the first row must have an empty PrevHash, and that failure is reported first, at row 0 |
| AuditChain.BuildChain | packages/auditlog/chain.go:59-67 | in place: every event gets the previous one's ChainHash as PrevHash and its own hash, everything else stays |
| AuditChain.BuildChainVerifies | packages/auditlog/chain.go:59-67 | what BuildChain makes is a verified genesis chain of the same events |
| AuditChain.VerifiedIffRebuildFixes | packages/auditlog/chain.go:59-133 | a list is a verified genesis chain exactly when building it again changes nothing |
| AuditChain.TailHashCommits | packages/auditlog/chain.go:88-133 | two verified genesis chains with one last ChainHash are equal in length and in every event, the first being unambiguous and no two of their rows colliding under SHA-256 |
| AuditChain.TailHashBindsIff | packages/auditlog/chain.go:16-133 | the last ChainHash of a chain commits to it, meaning no other verified chain ends in it, exactly when all its events are unambiguous |
| AuditChain.SelectionVerifiesIff | packages/auditlog/chain.go:69-105 | rows of a verified chain that repeats no hash, taken in any order with any omissions and repetitions still verify exactly when they are a contiguous segment |
| AuditChain.SegmentLinked | packages/auditlog/chain.go:69-105 | deleting rows at either end of a chain that verifies goes unnoticed |
| AuditChain.SingleEditUnnoticedIff | packages/auditlog/chain.go:69-105 | rewriting one unambiguous row, hashes and predecessor included, without a SHA-256 collision, goes unnoticed exactly when it is the last row, its hash is recomputed, and it names the predecessor it has, if it has one; the comment's claim about any single event holds for all other edits |
| AuditChain.GenesisReadOneWay | packages/auditlog/chain.go:44-48 | the text hashed for an unambiguous first event can be read as no other predecessor, ID and digest, even with an arbitrary text for predecessor |
| AuditChain.LastEventCanBeRewritten | packages/auditlog/chain.go:69-105 | the last event of any verified chain can be given any other detail so that the chain still verifies |
| AuditChain.SurvivorsHaveFreshHashes | packages/auditlog/chain.go:69-105 | any suffix of a verified full history with distinct IDs verifies and repeats no hash, which is what the two results above ask of a chain |
| AuditStore.InMemoryRepository.Append | packages/auditlog/inmemory_repository.go:27-42 | the event joins the end of its tenant's rows, or is refused for another tenant |
| AuditStore.InMemoryRepository.Query | packages/auditlog/inmemory_repository.go:69-90 | the matching rows in (Time, ID) order, cut to the limit or to 1000; which rows match is AuditOnFields.QueryAnswers |
| AuditStore.InMemoryRepository.PurgeBefore | packages/auditlog/inmemory_repository.go:93-109 | exactly the tenant's rows at or after the cutoff stay, in their order, and the number of the others is returned |
| AuditStore.Store.Append | packages/auditlog/store.go:43-77 | defaults, validation errors in their order, and the row linked to the insertion tail |
| AuditStore.Store.VerifyTenantChain | packages/auditlog/store.go:83-92 | the verdict on the rows re-sorted by (Time, ID) |
| AuditStore.Store.Purge | packages/auditlog/retention.go:34-72 | the rows before now minus the window go, and a purge that removed something appends its own event |
| AuditStore.ChainBeforeIsOrder | packages/auditlog/inmemory_repository.go:142-149 | (Time, ID) is a strict weak order, so the sort is well defined |
| AuditStore.PurgeRemovesPrefix | packages/auditlog/retention.go:34-72 | in whatever order rows were inserted, a purge removes exactly a prefix of what verification looks at, all of it before the cutoff, and an accepted chain stays accepted |
| AuditStore.PurgeEventAccepted | packages/auditlog/retention.go:50-76 | the event a purge writes passes Append's validation with the given time and ID |
| AuditStore.PurgeEventUnambiguous | packages/auditlog/retention.go:50-76 | the event a purge writes has a digest no other event has |
| AuditStore.ListAllVerifiesIff | packages/auditlog/store.go:83-92 | rows linked in insertion order without a repeated hash, re-sorted for verification, verify exactly when insertion followed (Time, ID) |
| AuditStore.AppendVerifiesIff | packages/auditlog/store.go:43-92 | with no hash repeated, appending to a verifying tenant leaves it verifying exactly when the new event does not lie before the last row by (Time, ID); otherwise an untampered log is reported as broken |
| AuditRuns.OutOfOrderAppendBreaks | packages/auditlog/store.go:43-92 | such a run: two accepted appends, the second earlier by time, no hash repeated, and the verdict is broken |
| AuditStore.QueryVerifiesIff | packages/auditlog/inmemory_repository.go:69-140 | with no hash repeated, a query over a verifying tenant selects increasing positions, and its answer verifies exactly when they are consecutive |
| AuditStore.WindowQueryIsSegment | packages/auditlog/inmemory_repository.go:69-140 | a query by Since, Until and Limit alone answers with a contiguous segment that verifies and misses no match except by the limit |
| AuditStore.RunVerifies | packages/auditlog/store.go:43-92 | after every run of appends and purges over many tenants in which each row added is in (Time, ID) order, VerifyTenantChain accepts every tenant |
| AuditStore.AppendOnlyRunVerifiesIff | packages/auditlog/store.go:43-92 | after any run of appends that repeats no hash a tenant is accepted exactly when its events were inserted in (Time, ID) order |
| AuditRuns.TraceIsFaithful | packages/auditlog/store.go:43-77 | after any run a tenant's rows are the traced ones that are still there: each carries the hash of the row it was linked to and its own hash, and the order is that of insertion |
| AuditRuns.RunVerifiesIff | packages/auditlog/store.go:43-92 | after any run of appends and purges with distinct IDs and no SHA-256 collision, VerifyTenantChain accepts a tenant exactly when its rows were inserted in (Time, ID) order and none but the first was linked to a row that has been purged |
| AuditRuns.PurgeMendsReport | packages/auditlog/retention.go:34-72 | such a run: reported as broken, and accepted once a purge has taken the row that came too late |
| AuditRuns.PurgeLeavesGap | packages/auditlog/retention.go:34-72 | such a run: rows in order and untouched, and broken because the purge took the row between two of them |
| AuditOnFields.AppendStores | packages/auditlog/store.go:43-77 | which events are taken, and every field of what is stored: gaps filled, linked to the row added last, all other rows as they were |
| AuditOnFields.HashedText | packages/auditlog/chain.go:16-48 | the nine fields in their order between bars, and the text that is hashed with them |
| AuditOnFields.QueryAnswers | packages/auditlog/inmemory_repository.go:69-140 | every row of an answer is stored and has the actor, case, action, kind and time asked for; every such row is there as often as it is stored, unless the answer is cut at the limit, 1000 if none is given, and then the earliest stay; by time, then ID |
| AuditOnFields.PurgeLeaves | packages/auditlog/retention.go:34-72 | exactly the rows from the cutoff on stay, in their order, and behind them the record of the purge when rows went, field by field |
| DedupKey.KeyIgnoresFormatAndOrder | packages/bulkimport/dedup.go:28-48 | records that agree after trimming and lower-casing and name the same parties in any order get the same key; which spellings agree is DedupOnFields.NormalFormIff |
| DedupKey.EqualKeysEqualForms | packages/bulkimport/dedup.go:28-48 | for case number and jurisdiction without a vertical bar and names whose commas have a blank next to them, as in Doe, Jane, equal keys mean equal normal forms and equal multisets of parties, and conversely |
| DedupKey.MergedParties | packages/bulkimport/dedup.go:28-48 | every record with two or more parties has the key of the record whose one party is their joined names |
| DedupKey.PartiesDeterminedIff | packages/bulkimport/dedup.go:28-48 | the joined names determine the multiset of parties exactly when there is none, or one that does not split at a comma into two names in order |
| DedupKey.DeterminedIff | packages/bulkimport/dedup.go:28-48 | the hashed text determines all three normal forms exactly when it has no other cut into trimmed fields and its parties are determined |
| DedupKey.FalseDuplicateIff | packages/bulkimport/dedup.go:28-48 | without a SHA-256 collision, some record with other normal forms shares the key exactly when the record does not read one way only, which can be looked up from it |
| DedupKey.SeparatorMakesFalseDuplicate | packages/bulkimport/dedup.go:28-48 | one such pair, of two case numbers in two jurisdictions |
| DedupOnFields.EndBlanksIgnored | packages/bulkimport/dedup.go:28-36 | blanks added at either end of a field leave its normal form as it is |
| DedupOnFields.TrimmedFormIff | packages/bulkimport/dedup.go:28-36 | two texts without blanks at their ends have one normal form exactly when they differ in the case of letters only |
| DedupOnFields.NormalFormIff | packages/bulkimport/dedup.go:28-36 | any two texts have one normal form exactly when they differ in blanks at the ends and the case of letters only |
| DedupOnFields.KeyIgnoresSpelling | packages/bulkimport/dedup.go:14-48 | letter case and end blanks of every field and name, and the order of the names, make no difference to the key |
| DedupOnFields.KeyOnFields | packages/bulkimport/dedup.go:28-48 | no key exactly for a record whose fields and names are all blank; else the hash of the three normal fields between bars |
| DedupOnFields.TwoPartyText | packages/bulkimport/dedup.go:32-46 | two names stand in alphabetical order with a comma between |
| ImportTypes.ReadAt | packages/bulkimport/source.go:58-73 | a read returns a non-empty slice exactly for a position inside the source, never past its end, and reports the end exactly |
| ImportTypes.DefaultRecordsHaveKeys | packages/bulkimport/validator.go:29-52 | every record the default validator passes has a non-empty key, so deduplication reaches all of them |
| ImportOnFields.DefaultValidationOnFields | packages/bulkimport/validator.go:29-52 | a record passes exactly if the three fields and every name have something in them, and names are given where asked for; each error names the field that fails |
| ImportOnFields.KeyOfRecord | packages/bulkimport/dedup.go:28-48 | a source record's key is that of its case number, jurisdiction and names |
| ImportOnFields.TransitionsOnFields | packages/bulkimport/types.go:71-95 | which status leads to which, told from the target's side |
| ImportOnFields.RegisteredOnFields | packages/bulkimport/types.go:168-180 | every field of a new job |
| ImportOnFields.TransitionOnFields | packages/bulkimport/resume.go:14-97 | status, times and failure reason after a transition, the start noted once, and nothing else changed |
| ImportOnFields.BatchOnFields | packages/bulkimport/engine.go:210-323 | when a batch is let through, how many records it reads, and every field of the job after one that commits |
| ImportOnFields.RowsOnFields | packages/bulkimport/engine.go:251-299 | every field of every row a batch writes: rejected with what the validator says, a duplicate if its key is that of a row imported for the job before, naming one, and imported otherwise; what was stored stays |
| ImportOnFields.RollbackReaches | packages/bulkimport/rollback.go:24-95 | whom a rollback is let through for, that it reverses imported rows of the job, how many, and when it goes through |
| ImportOnFields.RefusalsOnFields | packages/bulkimport/engine.go:210-247 | which error a refused batch, transition or rollback gives |
| ImportOnFields.ListingOnFields | packages/bulkimport/inmemory_repository.go:123-134 | a listing holds exactly the job's rows, once each, lower source indices first |
| ImportOnFields.RollbackOnFields | packages/bulkimport/rollback.go:24-95 | every field of the rows a rollback reverses and of the job it rolls back, and nothing else changed |
| ImportOnFields.RunTimes | packages/bulkimport/resume.go:14-33 | over every run a job that has not begun has no times, one that runs has a start, one that ended has an end, and the first start stays |
| ImportEngine.InMemoryRecordRepository.FindByDedupKey | packages/bulkimport/inmemory_repository.go:136-149 | finds an imported row of the job with the key exactly if there is one |
| ImportEngine.InMemoryRecordRepository.ListForJob | packages/bulkimport/inmemory_repository.go:123-134 | exactly the job's rows, each once, by SourceIndex |
| ImportEngine.Engine.RegisterJob | packages/bulkimport/engine.go:93-127 | which requests are refused, and the fresh job otherwise |
| ImportEngine.Engine.ApplyTransition | packages/bulkimport/resume.go:14-97 | the job moves with its timestamps exactly as the transition table allows; Pause, ResumeJob and FailJob are this with their target status |
| ImportEngine.Engine.Decide | packages/bulkimport/engine.go:244-283 | one record's row: rejected, skipped as a duplicate of a stored row, or imported |
| ImportEngine.Engine.RunBatch | packages/bulkimport/engine.go:210-323 | the rows written, the job afterwards and the result, for every refusal and for a storage failure at any call: rows written before a failure stay, the job moves only if the whole batch went through |
| ImportEngine.Engine.Rollback | packages/bulkimport/rollback.go:24-95 | exactly the job's imported rows are reversed, or as many as were reached before a failing write, and the job moves only if all went through |
| ImportRuns.CrashSafety | packages/bulkimport/engine.go:210-323 | over every run with failing and retried batches, transitions and rollbacks, beside other jobs: every source index below Cursor has a row, no key is imported twice, a completed job has read the whole source, and every valid key below Cursor is imported as long as no rollback has reversed a row |
| ImportRuns.FailedRollbackBreaksIff | packages/bulkimport/rollback.go:54-88 | a first rollback that reverses rows and then fails leaves some valid key below Cursor without an imported row exactly if a reversed row has such a key |
| ImportRuns.CrashSafeAfterResumeIff | packages/bulkimport/rollback.go:54-88 | after any run with failed rollbacks, resumed and completed without reversing more, every valid key is imported exactly if each reversed key below the Cursor was still imported, or is carried by a valid record from the Cursor on, when the job was resumed |
| ImportWitnesses.FailedRollbackLosesKey | packages/bulkimport/rollback.go:54-88 | such a run: stopped after one record, a rollback whose job update fails, resumed to completion, and the first record's key has no imported row |
| ImportRuns.ExactIffNothingLeft | packages/bulkimport/engine.go:210-323 | until the job is rolled back, its rows are exactly those of one record-by-record pass over the first Cursor records if and only if no failed batch left a row behind and no failed rollback reversed one |
| ImportRuns.BatchingDoesNotMatter | packages/bulkimport/engine.go:210-323 | two runs over one source that left nothing behind, reversed nothing and stand at one cursor hold the same fields, validation, key and outcome per source index, whatever their batch sizes, pauses and resumptions |
| ImportRuns.LookupMeansEarlier | packages/bulkimport/inmemory_repository.go:136-149 | after a pass over n records the duplicate lookup succeeds exactly when an earlier valid record carries the key |
| ImportRuns.CountersExact | packages/bulkimport/engine.go:251-310 | until the job is rolled back, Cursor equals ProcessedRecords, and each counter falls short of the rows with its outcome, reversed rows counted as imported, by exactly the rows left behind |
| ImportRuns.BatchMakesProgress | packages/bulkimport/engine.go:210-323 | a batch that goes through completes the job or brings its cursor closer to the end of the source |
| ImportRuns.RollbackAfterRun | packages/bulkimport/rollback.go:54-88 | after a rollback that goes through no row counts as imported, all others are untouched, and ImportedRecords is the number of rows earlier failed rollbacks reversed less the imported rows failed batches left behind: zero exactly when these are equal |
| ImportWitnesses.FailedBatchTakesCounterBelowZero | packages/bulkimport/rollback.go:54-88 | a failed batch, then a rollback: ImportedRecords is -1 |
| ImportWitnesses.RetriedRollbackLeavesCounterAbove | packages/bulkimport/rollback.go:54-88 | a completed import, a rollback that fails after one row, then one that goes through: ImportedRecords is 1 with no imported row |
| ImportRuns.RolledBackForever | packages/bulkimport/types.go:77-95 | no run leaves RolledBack or changes a rolled-back job's rows |
| RetrievalCache.Cache.New | packages/adaptiveretrieval/cache.go:71-85 | a negative capacity is refused, zero means 256 |
| RetrievalCache.Cache.Get | packages/adaptiveretrieval/cache.go:123-140 | a found key moves to the front even if stale, a miss changes nothing; stale exactly below the case's revision |
| RetrievalCache.Cache.Put | packages/adaptiveretrieval/cache.go:144-166 | the entry goes to the front, replacing one under its key, and the list is cut to capacity; map and list agree key for key |
| RetrievalCache.CacheIsRecency | packages/adaptiveretrieval/cache.go:123-166 | after any run the list holds exactly the capacity many, or fewer, most recently touched distinct keys in recency order |
| RetrievalCache.RecencyOrders | packages/adaptiveretrieval/cache.go:123-166 | the recency order used above lists each touched key once, by last touch |
| RetrievalCache.CacheHoldsLastPut | packages/adaptiveretrieval/cache.go:123-166 | what a key finds is what was last put under it |
| RetrievalBuilder.DepthBands | packages/adaptiveretrieval/depth.go:59-88 | between one hop and the budget's limit, and more vector hits never deepen the walk, by at most two hops |
| RetrievalOnFields.DepthInNumbers | packages/adaptiveretrieval/depth.go:59-88 | all n hops up to one vector hit, n-1 for two to four, n-2 from five on, at least one and at most the budget's limit, four if none is set |
| RetrievalOnFields.WalkAsksFor | packages/adaptiveretrieval/translate.go:20-36 | the traversal starts at the anchor with the depth as its limit, and its specs are the known ones among the first Depth hops, each as what it means, in order |
| RetrievalOnFields.KnownHopsAllAsked | packages/adaptiveretrieval/translate.go:20-36 | over known hops the traversal has exactly Depth specs, the i-th for the i-th hop |
| RetrievalBuilder.EqualShapesEqualWalks | packages/adaptiveretrieval/query.go:127-141 | queries of one case that share a shape key ask for the same traversal, whatever the anchors hold, if edge type and hops hold no vertical bar and no hop is a numeral |
| RetrievalBuilder.VocabularyReadable | packages/adaptiveretrieval/translate.go:9-36 | hops of the walker's vocabulary and an edge type without a vertical bar meet that condition |
| RetrievalBuilder.NumeralHopSharesShape | packages/adaptiveretrieval/query.go:127-141 | a hop that is the depth of the query it leaves behind makes the two share an entry, though they walk from different anchors |
| RetrievalBuilder.SameKeyIff | packages/adaptiveretrieval/query.go:127-141 | whatever the fields hold, keys of one case are equal exactly when anchor, depth, hops and edge type agree token by token |
| RetrievalBuilder.SharesIffReading | packages/adaptiveretrieval/query.go:127-141 | any query shares its entry with a readable query of its case exactly when that one is what its key reads as, the last numeral before the final token being the depth, and walks to that depth |
| RetrievalBuilder.SharedWithAnotherWalkIff | packages/adaptiveretrieval/query.go:127-141 | some readable query shares the entry and asks for another walk exactly if the reading of the key does so for 0, 2 or 5 vector hits |
| RetrievalBuilder.ReadableNotMisread | packages/adaptiveretrieval/query.go:127-141 | no readable query is misread in this way |
| RetrievalBuilder.EdgeBarSharesShape | packages/adaptiveretrieval/query.go:127-141 | a pair with known hops only, whose edge type holds a bar: one entry, two walks |
| RetrievalBuilder.SharedShapeDifferentWalk | packages/adaptiveretrieval/query.go:127-141 | the smallest such pair; its hop is outside the vocabulary |
| RetrievalBuilder.Builder.Build | packages/adaptiveretrieval/builder.go:120-153 | the answer, the cache and the counters after a call: cached, built, fallback or error; what the walk is asked for is RetrievalOnFields.WalkAsksFor |
| RetrievalBuilder.Builder.BuildFresh | packages/adaptiveretrieval/builder.go:162-205 | a walk within the node budget and the deadline, or nothing; its counters either way |
| RetrievalOnFields.FreshBuildOnFields | packages/adaptiveretrieval/builder.go:162-205 | a walk that came back counts if it visited at most the node budget, 200 if none is set, and every field of the subgraph made of it |
| RetrievalOnFields.LookupOnFields | packages/adaptiveretrieval/cache.go:86-140 | nothing stored under the key is a miss; an entry is stale exactly if its revision is below the one set for its case, 0 if none is |
| RetrievalOnFields.EditIsSeen | packages/adaptiveretrieval/builder.go:120-251 | once a changed tree has come with a raised revision, the next build of the case answers with the walk of that tree |
| RetrievalOnFields.KeyText | packages/adaptiveretrieval/query.go:127-141 | case, anchor, depth, hops and edge type in this order with bars between them |
| RetrievalOnFields.BuildAnswers | packages/adaptiveretrieval/builder.go:120-230 | which of error, cached, built and fallback a call answers with, and on what |
| RetrievalOnFields.CountersCount | packages/adaptiveretrieval/builder.go:120-205 | over every run hits and misses add up to the valid calls, hits and fallbacks are the answers given as such, stale refreshes the stale entries met, builds and nodes those of the walks that came back |
| RetrievalBuilder.RunSound | packages/adaptiveretrieval/builder.go:120-205 | over every run of readable queries with rising revisions each cached entry is a walk of its case's tree, of the current one while the case's revision is 0 |
| RetrievalBuilder.CacheTransparent | packages/adaptiveretrieval/builder.go:120-205 | after every run of readable queries a subgraph returned as built or cached for a query that is not misread is, up to Source, a fresh walk of the current tree for that query, and visits at most MaxNodes |
| RetrievalBuilder.MisreadIsServedWrong | packages/adaptiveretrieval/builder.go:120-205 | every valid query that is misread is served another query's walk, after one build of that other query and for some walker |
| RetrievalBuilder.HitsOnlyAtRevisionZero | packages/adaptiveretrieval/builder.go:162-205 | since a build never stamps Revision, on every run whatsoever a cached entry is served exactly while its case's revision is not above 0 |
| RetrievalBuilder.RaisedCaseMissesAgain | packages/adaptiveretrieval/builder.go:120-205 | after one raise, a build puts its result into the cache and the next build of the query finds it stale |
| AccountingBudget.RefusedIffLimitReached | packages/accounting/budget.go:182-249 | a call is refused exactly under a hard stop with a positive limit reached, and then alerts |
| AccountingOnFields.VerdictOnFields | packages/accounting/budget.go:182-249 | refused exactly under a hard stop with one of the four limits positive and reached; an alert exactly if one of them is reached to the threshold percentage, 100 where that is out of range |
| AccountingBudget.InMemoryBudgetChecker.RecordUsage | packages/accounting/budget.go:109-135 | adds to the tenant's day and month, and to nothing else; what they then hold is AccountingOnFields.UsageIsSum |
| AccountingBudget.InMemoryBudgetChecker.CurrentUsage | packages/accounting/budget.go:138-162 | the day's and the month's totals, zero where nothing was recorded |
| AccountingBudget.AccountingService.RecordUsage | packages/accounting/service.go:43-81 | a missing ID and creation time are filled in; an invalid record changes nothing; a valid one is stored and counted even when the verdict, judged on the new totals, is a refusal |
| AccountingBudget.ReconcileJob.Run | packages/accounting/reconcile.go:40-105 | installs for every tenant with a record the state recomputed from all records, through the two aggregate maps |
| AccountingBudget.IncrementalEqualsRecomputed | packages/accounting/reconcile.go:40-105 | after any run of recordings and reconciliations every tenant's usage at every time is what recomputing gives, whatever way costs are added, and another reconciliation changes nothing |
| AccountingOnFields.RecordsAreStored | packages/accounting/service.go:43-53 | the stored records are the valid ones of the calls, in order, with ID and time filled in |
| AccountingOnFields.UsageIsSum | packages/accounting/budget.go:109-162 | after every run of recordings and reconciliations a tenant's usage is the sum of tokens over its stored records of that day and of that month, and the costs are added in stored order |
| AccountingOnFields.ExactSums | packages/accounting/budget.go:109-136 | with exact addition these costs are the sum of the costs there are |
| AccountingOnFields.DayInNanoseconds | packages/accounting/budget.go:109-111 | a day is the 86,400,000,000,000 nanoseconds from its midnight |
| AccountingBudget.ReconcileRepairs | packages/accounting/reconcile.go:40-105 | from any state: idempotent, leaves tenants without records alone, and repairs a tenant exactly if it has a record or nothing to repair |
| AccountingReports.SeenFacts | packages/accounting/aggregation.go:44-124 | the groups listed are exactly those with a record, each once |
| AccountingReports.GroupingConserves | packages/accounting/aggregation.go:44-124 | over any list of distinct groups that misses none, group totals add up to the total over the grouped records |
| AccountingReports.TenantPeriodsConserve | packages/accounting/aggregation.go:87-124 | tenant-period summaries add up to all records |
| AccountingReports.OwnerIsFirst | packages/accounting/aggregation.go:44-124 | a summary's tenant is that of the first record of its group |
| AccountingReports.AggregateByTenantPeriod | packages/accounting/aggregation.go:87-124 | one summary per group in order of first appearance, with its tenant, and which granularities are refused |
| AccountingReports.AggregateByCasePeriod | packages/accounting/aggregation.go:44-82 | one summary per case and day in order of first appearance, with the tenant of its first record, records without a case left out |
| AccountingOnFields.TenantSummaries | packages/accounting/aggregation.go:87-124 | one line per tenant and day or month with a record, with the sums over exactly those records |
| AccountingOnFields.CaseSummaries | packages/accounting/aggregation.go:44-82 | one line per case and day with a record, with the sums over exactly those records, and the tenant of one of them |
| AccountingReports.DashboardAPI.GetTenantDashboard | packages/accounting/dashboard.go:72-170 | both breakdowns list each group once by name with its totals, the totals are the tenant's, and the trend has the seven days up to today |
| AccountingOnFields.DashboardOnFields | packages/accounting/dashboard.go:72-160 | one line per provider and per task type in alphabetical order, the totals, and each trend day, as sums over the tenant's records |
| AccountingReports.BreakdownAddsUp | packages/accounting/dashboard.go:72-170 | any breakdown adds up to the dashboard's totals |
| AccountingReports.ProviderAndTaskTotalsAgree | packages/accounting/dashboard.go:72-170 | the provider view and the task view have one total |
| AccountingReports.TrendAddsUp | packages/accounting/dashboard.go:72-170 | the seven entries add up to exactly the tenant's records of those UTC days; later-dated records are in no entry |
| AccountingReports.FutureRecordInNoEntry | packages/accounting/dashboard.go:72-170 | a record dated after today is bucketed and in no entry |
| AccountingReports.ExportService.ListRecords | packages/accounting/repository.go:120-144 | the page of the tenant's arranged records at limit and offset |
| AccountingReports.ExportService.ExportUsage | packages/accounting/service.go:109-130 | terminates with the window of the whole arrangement, for any number of records |
| AccountingReports.ExportIsExact | packages/accounting/service.go:109-130 | each of the tenant's records of the window as often as it is stored, nothing else, newest first |
| AgentRunner.Scratchpad.AppendStep | packages/agentframework/scratchpad.go:112-117 | the step is added and the tool log stays the flattened observations |
| AgentRunner.BudgetTracker.CheckExhausted | packages/agentframework/budget.go:103-114 | spent exactly at the step limit, past the deadline or at a positive token ceiling |
| AgentRunner.Runner.Run | packages/agentframework/runner.go:84-146 | the history, the ending, the tool log, the agent's name and every telemetry figure of a run; in terms of what was answered, AgentOnFields.RunOnFields and TelemetryOnFields |
| AgentRunner.Runner.RunStep | packages/agentframework/runner.go:153-205 | the step and what it adds to telemetry, for each way it can fail |
| AgentRunner.Runner.DispatchToolCalls | packages/agentframework/runner.go:211-222 | calls in order up to the first failure, which is still recorded |
| AgentRunner.RunShape | packages/agentframework/runner.go:84-146 | at most the effective MaxSteps steps, step i with Index i, only the last may fail or conclude, and tokens before the last stay below a positive ceiling |
| AgentRunner.ErrNilIffConcluded | packages/agentframework/runner.go:84-146 | Err is nil exactly when the run concluded, which is exactly when its last step did |
| AgentRunner.ExhaustedMeansSpent | packages/agentframework/runner.go:101-137 | a run is reported out of budget only when a limit was reached, at the top of a step or after a timed-out one |
| AgentRunner.AtMostOneFailure | packages/agentframework/runner.go:84-222 | tool errors and model errors together are one exactly if the last step had one, and zero otherwise |
| AgentOnFields.StepTells | packages/agentframework/runner.go:153-222 | every field of a step from what request, model, agent and tools answered: the response is the chat's, the tool calls run up to the first failure |
| AgentOnFields.RunOnFields | packages/agentframework/runner.go:84-146 | at most MaxSteps steps, twelve if none is set, each as answered; before each there was time, and the tokens of the answers so far were below a positive MaxTokens; after the last the run was over or the budget spent |
| AgentOnFields.EndingOnFields | packages/agentframework/runner.go:101-146 | termination, final text and error from the last step and what was left of the budget |
| AgentOnFields.TelemetryOnFields | packages/agentframework/telemetry.go:62-98 | telemetry counts the steps, their tool calls and failures, the requests, those without an answer, and the tokens of the answers |
| Annotations.InMemoryRepository.Create | packages/annotations/inmemory_repository.go:52-91 | what is stored, or which error, in the order of the checks; nothing else changes |
| Annotations.InMemoryRepository.ListByCase | packages/annotations/inmemory_repository.go:123-146 | exactly the case's matching annotations, each once, by creation time |
| Annotations.InMemoryRepository.Thread | packages/annotations/inmemory_repository.go:149-172 | the annotation first, then exactly its replies, each once, by creation time |
| Annotations.InMemoryRepository.UpdateBody | packages/annotations/inmemory_repository.go:175-192 | the new body and timestamp, if the result is still valid |
| Annotations.InMemoryRepository.Delete | packages/annotations/inmemory_repository.go:196-211 | the annotation and everything that replies to it go, the rest stays |
| Annotations.InMemoryRepository.Resolve | packages/annotations/inmemory_repository.go:214-233 | resolved once, by whom and when; a second time is refused |
| Annotations.InMemoryRepository.Reopen | packages/annotations/inmemory_repository.go:236-254 | reopened only if resolved |
| Annotations.Service.Create | packages/annotations/service.go:63-83 | case access first, the caller as author, then storage and audit; a refusal changes nothing |
| Annotations.Service.UpdateBody | packages/annotations/service.go:152-176 | visible, accessible, own annotations only, then storage and audit |
| Annotations.Service.Delete | packages/annotations/service.go:181-200 | visible, accessible, own annotations only, then the cascade and one audit record |
| Annotations.Service.Resolve | packages/annotations/service.go:206-226 | any caller with access, with one audit record |
| Annotations.Service.Reopen | packages/annotations/service.go:230-250 | any caller with access, with one audit record |
| AnnotationsOnFields.ValidOnFields | packages/annotations/types.go:117-148 | which annotations are valid, and which error the others get first |
| AnnotationsOnFields.CreateOnFields | packages/annotations/service.go:63-83 | when Create is accepted, and every field of what it stores and logs |
| AnnotationsOnFields.UpdateBodyOnFields | packages/annotations/service.go:152-176 | who may, and that the body is stored, with the time of the change and nothing else |
| AnnotationsOnFields.ResolveOnFields | packages/annotations/service.go:206-226 | when it is accepted, and by whom and when it is then resolved, nothing else changed |
| AnnotationsOnFields.ReopenOnFields | packages/annotations/service.go:230-250 | when it is accepted, and that nothing of the resolution is left, nothing else changed |
| AnnotationsOnFields.DeleteOnFields | packages/annotations/service.go:181-200 | who may, and exactly which annotations are left, as they were |
| AnnotationsOnFields.RefusalsOnFields | packages/annotations/service.go:152-250 | which error a refused call gives |
| AnnotationsOnFields.ListingOnFields | packages/annotations/inmemory_repository.go:123-146 | a listing holds exactly the tenant's annotations of the case under the anchor type and ID asked for, once each, older ones first |
| AnnotationsOnFields.RepliesOnFields | packages/annotations/inmemory_repository.go:149-172 | a thread holds exactly the tenant's replies to its root, once each, older ones first |
| Annotations.CreateKeepsThreadsIff | packages/annotations/inmemory_repository.go:52-91 | Create keeps every reply under a present root of its tenant and case exactly when the ID it takes has no replies that the new annotation orphans or that it would reply to itself |
| Annotations.CreateCanOrphanReply | packages/annotations/inmemory_repository.go:52-91 | such a run: a root, its reply, and an accepted Create under the root's ID in another case |
| Annotations.RunKeepsThreads | packages/annotations/service.go:63-250 | with unused IDs every run of service calls keeps each reply's parent present, a root, of its tenant and case, and every stored annotation valid |
| Annotations.DeleteRemovesThread | packages/annotations/inmemory_repository.go:196-211 | deleting a root removes exactly its thread, deleting a reply only itself |
| Annotations.ThreadsPartitionCase | packages/annotations/inmemory_repository.go:123-172 | the threads of a case's roots share nothing and together are the unfiltered listing |
| Annotations.OnlyAuthorsChange | packages/annotations/service.go:63-200 | unless a Create takes its ID over, a body changes only by its author; an annotation goes only by its author or its root's; another tenant's changes exactly when its ID is taken over or it hangs under the root that goes, the latter not while threads are whole |
| Annotations.CreateReplacesForeign | packages/annotations/inmemory_repository.go:52-91 | such a run: a Create of one tenant replaces an annotation of another |
| Annotations.OneRecordPerCall | packages/annotations/service.go:63-250 | every successful call appends exactly one record, of its verb, caller and time, to the trail of the annotation it acted on |
| Annotations.TogglesAlternate | packages/annotations/inmemory_repository.go:214-254 | in a possible trail resolved and reopened alternate, starting with resolved |
| Annotations.CallTracks | packages/annotations/service.go:63-250 | a call keeps the trail telling the stored Resolved flag exactly unless it creates the annotation already resolved |
| Annotations.AuditReplays | packages/annotations/service.go:63-250 | after any run with unused IDs, for an annotation created unresolved: its toggles alternate, and their parity is the stored Resolved flag |
| Annotations.RemovalLoggedIff | packages/annotations/service.go:181-200 | of the annotations a Delete removes only the named one gets a deleted record |
| Annotations.CascadeLeavesNoTrace | packages/annotations/service.go:181-200 | such a run: the reply is gone with its root, and its trail still says it is there |
| AccessDecision.FirstMatchSpeaks | packages/accessgovernance/types.go:278-288 | the effect of the first matching rule, none exactly if no rule matches |
| AccessOnFields.PolicyOnFields | packages/accessgovernance/types.go:126-288 | an active policy speaks by the first rule whose actions, roles, jurisdictions, case scope and hours fit the request, and not at all without one |
| AccessDecision.Evaluate | packages/accessgovernance/types.go:278-288 | a policy's verdict by the loop over its rules, none when inactive |
| AccessDecision.DocumentedOrderIff | packages/accessgovernance/engine.go:55-73 | the code comes to the decisions its doc comment promises exactly unless a permitting case grant and an elevation both match and nothing restricts |
| AccessDecision.EffectAsDocumented | packages/accessgovernance/engine.go:55-199 | the Effect is the documented one in every case |
| AccessDecision.EffectDeterminedIff | packages/accessgovernance/engine.go:105-199 | the order the stores list in decides the Effect exactly when only policies speak and two of them disagree |
| AccessDecision.AllowNeeds | packages/accessgovernance/engine.go:105-199 | an allow means no live restriction matches, and a live grant, elevation or allowing policy does |
| AccessOnFields.DecisionOnFields | packages/accessgovernance/engine.go:105-199 | a restriction in force decides first, then a permission, then an elevation, then a policy that speaks, each told by its fields, and deny without any |
| AccessOnFields.RequestsOnFields | packages/accessgovernance/types.go:93-106 | which requests are judged at all, and which error the others get |
| AccessEngine.GrantShadowsElevation | packages/accessgovernance/engine.go:55-199 | such a run: a permitting case grant and an elevation, and the code reaches a decision the comment does not promise |
| AccessEngine.PolicyOrderDecides | packages/accessgovernance/engine.go:105-199 | a run after which both an allow and a deny can be reached, by the order of two policies |
| AccessEngine.CheckConflict | packages/accessgovernance/review_types.go:174-195 | the first rule that the same non-nil user on both sides violates, by name, none otherwise; under the default rules that is requester_cannot_approve |
| AccessEngine.Engine.Evaluate | packages/accessgovernance/engine.go:74-103 | validation errors, or a decision the stores admit at the request's time or now |
| AccessEngine.Engine.EvaluateLocked | packages/accessgovernance/engine.go:105-199 | a decision the stores' contents admit, found by the four loops in any listing order |
| AccessEngine.Engine.Elevate | packages/accessgovernance/engine.go:220-270 | the elevation stored and its end, or which error |
| AccessEngine.Engine.GrantCaseAccess | packages/accessgovernance/engine.go:332-358 | the grant stored with its defaults, or which error |
| AccessEngine.Engine.RevokeCaseAccess | packages/accessgovernance/engine.go:362-374 | the tenant's grant is marked revoked, or not found |
| AccessEngine.Engine.CreatePolicy | packages/accessgovernance/engine.go:277-305 | the policy stored with its defaults, or which error |
| AccessEngine.Engine.ActivatePolicy | packages/accessgovernance/engine.go:309-328 | the flag and timestamp of the tenant's policy, and nothing else |
| AccessEngine.Engine.ScheduleReview | packages/accessgovernance/review.go:16-44 | a pending review with the given requester, or which error |
| AccessEngine.Engine.Attest | packages/accessgovernance/review.go:81-155 | the checks in order, the review decided, then the revocation, whose failure leaves the decision standing |
| AccessEngine.Engine.RevokeSubject | packages/accessgovernance/review.go:157-166 | the store the review's kind names, an unknown kind refused |
| AccessOnFields.GrantOnFields | packages/accessgovernance/engine.go:332-358 | when a case grant is taken, which error else, and every field of what is stored |
| AccessOnFields.ElevateOnFields | packages/accessgovernance/engine.go:220-270 | when an elevation is taken, which error else, and every field of it: it ends after the span given, or after an hour |
| AccessOnFields.PolicyCallsOnFields | packages/accessgovernance/engine.go:277-328 | when a policy is taken or switched, and every field of what is stored |
| AccessOnFields.RevokeOnFields | packages/accessgovernance/engine.go:362-374 | when a revocation is taken, and that it marks the grant and nothing else |
| AccessOnFields.ScheduleOnFields | packages/accessgovernance/review.go:16-44 | when a review is scheduled, and every field of it |
| AccessOnFields.AttestOnFields | packages/accessgovernance/review.go:81-166 | who may attest what, which error else, every field written to the review, and what becomes of its subject |
| AccessOnFields.DecidedOnFields | packages/accessgovernance/review.go:81-155 | from an engine without reviews on, a decided review was decided by somebody it does not name as requester, and every later run leaves it as it is |
| AccessEngine.GrantStaysIff | packages/accessgovernance/engine.go:220-374 | a call leaves an unrevoked grant or elevation as it is exactly unless it revokes it or stores another record under its ID |
| AccessEngine.DenyGrantDenies | packages/accessgovernance/engine.go:105-199 | a restriction denies every matching request until it ends, whatever else is stored, through every run that neither revokes nor replaces it |
| AccessEngine.ElevationAllowsIff | packages/accessgovernance/engine.go:220-270 | through every run that neither revokes nor replaces it, an elevation allows its action until it ends exactly where no live restriction matches |
| AccessEngine.StaysRevokedIff | packages/accessgovernance/inmemory_repository.go:95-247 | a revoked grant stays revoked through a call exactly unless the call stores a live grant under the same ID |
| AccessEngine.RevokedNeverDecides | packages/accessgovernance/review.go:81-166 | after RevokeCaseAccess or a successful revoking Attest, in every later state and at every time, the grant decides nothing, its ID not being reused |
| AccessEngine.AttestRevokeFailsIff | packages/accessgovernance/review.go:81-166 | an admitted revoking Attest fails exactly if its subject is not the tenant's; the review is decided all the same and cannot be attested again |
| AccessEngine.FailedAttestDecides | packages/accessgovernance/review.go:81-166 | such a run: a review of a grant that is not there, attested as revoked |
| AccessEngine.DecidedForGood | packages/accessgovernance/review.go:81-155 | over every run with fresh review IDs a decided review never changes, and its attester is never the requester it names |
| AccessEngine.HolderRefusedIff | packages/accessgovernance/review.go:10-155 | in every run, while the review is open, the holder of a case grant or an elevation is refused as its attester exactly if ScheduleReview was told that holder as requester |
| AccessEngine.HolderCanApprove | packages/accessgovernance/review.go:10-155 | with a review that names nobody the holder approves the own grant |
| RuleMatching.TokenOverlapScore | packages/application/match.go:82-97 | shared words over the smaller set, by the loop over that set |
| RuleMatching.OverlapMeans | packages/application/match.go:75-97 | symmetric, within [0,1], 0 exactly without a shared word, and 1 on non-empty sets exactly where one contains the other |
| MatchingOnFields.TokensAreWords | packages/application/match.go:50-73 | the tokens of a text are exactly its unbroken stretches of letters and digits, in lower case |
| MatchingOnFields.ScoreOnWords | packages/application/match.go:34-97 | a rule scores the number of words the issue and the rule share over that of the one that has fewer, 0 where one has none |
| RuleMatching.SortMatchesDescending | packages/application/match.go:102-108 | in place, the stable sort by descending score |
| RuleMatching.SortedStably | packages/application/match.go:99-108 | a descending permutation in which matches of one score keep their order |
| RuleMatching.SortPlacesByRank | packages/application/match.go:99-108 | every match ends up at its rank: behind the higher ones and the equal ones before it |
| RuleMatching.RanksDiffer | packages/application/match.go:99-108 | no two matches share a rank |
| RuleMatching.MatchIssueToRules | packages/application/match.go:34-48 | all rules scored and sorted |
| RuleMatching.ValidateChain | packages/application/chain.go:20-32 | cyclic exactly if a rule ID appears twice |
| RuleMatching.SelectMatches | packages/application/service.go:114-148 | the three errors in their order, and the selection |
| RuleMatching.SelectionIsTopN | packages/application/service.go:134-148 | exactly the positive matches of rank below TopN are kept, each at its rank |
| RuleMatching.NoMatchIff | packages/application/service.go:134-145 | nothing is selected exactly if no rule shares a word with the issue |
| MatchingOnFields.NoMatchOnWords | packages/application/service.go:134-145 | nothing is selected exactly if no rule has a word of the issue, word meaning such a stretch |

## Left out

- RetrievalBuilder.EqualShapesEqualWalks: one direction, since different shapes may well ask for the same walk; `SharesIffReading` covers any hops and edge type on one of the two sides.
- RetrievalBuilder.CacheTransparent: the queries of the run before are readable ones, only the last may be any that is not misread; says nothing about fallback answers, which come from an index that is not part of this model and are given with the call; the contents of a tree are one abstract value.
- AuditChain.TailHashCommits: asks only the first of the two chains to be unambiguous, and freedom from collisions only among their own rows, since no function into 64 characters is collision-free everywhere.
- DedupKey.EqualKeysEqualForms: a condition on both records; `FalseDuplicateIff` gives the exact one for a record against all others.
- ImportRuns.CrashSafety: `FindByDedupKey` itself does not fail; the engine ignores its error and would import a duplicate then.
- ImportRuns.FailedRollbackBreaksIff: about the first rollback that reverses rows; from the second on, `CrashSafeAfterResumeIff` says what the completed job keeps.
- ImportRuns.CrashSafeAfterResumeIff: about the job once it completes again; on the way there the keys are those imported at the resumption and those of the rows written since.
- ImportEngine.Engine.RunBatch: each call suffers at most one storage failure, and identifiers from `uuid.New` are parameters that are in use nowhere.
- AccountingReports.ExportIsExact: `sort.Slice` is any function that returns a descending permutation, the same for the same records, which is what paging needs; records do not change during an export.
- AgentRunner.Runner.Run: per-step start and end times, request contents, seeds and notes; the deadline and the elapsed time are given. A chat that returns neither a response nor an error counts as a response of 0 tokens.
- Annotations.AuditReplays: over the order in which records were appended; `ListAudit` re-sorts by time with an unstable sort.
- AuditRuns.RunVerifiesIff: asks all rows ever stored for the tenant to have distinct IDs and not to collide under SHA-256.
- AccessEngine.HolderRefusedIff: about the holder at the time the review was scheduled, and `uuid.New` giving reviews unused IDs.
- AccessEngine.RevokedNeverDecides: for a grant whose ID no later call stores anew; `StaysRevokedIff` says which calls would.
- RetrievalCache.Cache.Put: evicted and replaced list elements stay in the element map, as memory the list no longer reaches.
- Characters are bytes, and trimming, lower-casing and case folding are those of ASCII; Unicode text is not modelled.
- Time layouts, months and UUID generation are functions or parameters; hours and days are computed from an integer clock.
- Scores and percentages are reals; rounding of floating-point numbers is not modelled, except that cost addition may be any function where that suffices.
- Authentication, permission checks, audit and alert sinks, mention delivery and mention records: the caller is one the identity layer let through.
- The PostgreSQL and tenant-scoped repositories, JSON and CSV export, certification reports and privileged-activity queries.
- Locks: every method is one step; goroutines and cancellation other than the modelled deadlines are left out.
- The part of `ApplyRulesDetailed` after the selection, which builds and stores graph nodes: the graph store is not part of this model.
- Case lookup (`packages/caselifecycle`), the graph walker and the tree index are oracles.
