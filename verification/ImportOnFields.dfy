// packages/bulkimport: what every call leaves in the fields of jobs and rows, and
// what the times of a job tell over whole runs.
module ImportOnFields {
  import opened Basics
  import opened Sorting
  import opened Text
  import opened ImportTypes
  import opened ImportEngine
  import ImportRuns
  import DedupKey
  import DedupOnFields

  // ---------- validation ----------

  // What the validator the engine ships with asks for.
  lemma DefaultValidationOnFields(requirePartyNames: bool, r: SourceRecord)
    ensures var errors := DefaultValidate(requirePartyNames, r);
      && (errors == [] <==>
            && NonBlank(r.caseNumber) && NonBlank(r.jurisdiction) && NonBlank(r.payloadRef)
            && (requirePartyNames ==> |r.parties| > 0)
            && (forall i :: 0 <= i < |r.parties| ==> NonBlank(r.parties[i])))
      && (Names("case_number", errors) <==> !NonBlank(r.caseNumber))
      && (Names("jurisdiction", errors) <==> !NonBlank(r.jurisdiction))
      && (Names("payload_ref", errors) <==> !NonBlank(r.payloadRef))
      && (Names("party_names", errors) <==>
            (requirePartyNames && |r.parties| == 0) || exists i :: 0 <= i < |r.parties| && !NonBlank(r.parties[i]))
  {
    hide TrimSpace, NonBlank, Names;
    NonBlankIff(r.caseNumber);
    NonBlankIff(r.jurisdiction);
    NonBlankIff(r.payloadRef);
    forall i | 0 <= i < |r.parties| ensures NonBlank(r.parties[i]) <==> TrimSpace(r.parties[i]) != "" {
      NonBlankIff(r.parties[i]);
    }
    FieldNames();
    var a := Required(r.caseNumber, "case_number", "case number is required");
    var b := Required(r.jurisdiction, "jurisdiction", "jurisdiction is required");
    var c := Required(r.payloadRef, "payload_ref", "payload reference is required");
    var d := if requirePartyNames && r.parties == []
      then [ValidationError("party_names", "at least one party name is required")] else [];
    var e := if exists i :: 0 <= i < |r.parties| && TrimSpace(r.parties[i]) == ""
      then [ValidationError("party_names", "party name entry is blank")] else [];
    FivePieces(a, b, c, d, e, "case_number");
    FivePieces(a, b, c, d, e, "jurisdiction");
    FivePieces(a, b, c, d, e, "payload_ref");
    FivePieces(a, b, c, d, e, "party_names");
  }

  lemma FieldNames()
    ensures "case_number" != "jurisdiction" && "case_number" != "payload_ref" && "case_number" != "party_names"
    ensures "jurisdiction" != "payload_ref" && "jurisdiction" != "party_names" && "payload_ref" != "party_names"
  {
    assert "case_number"[0] == 'c' && "jurisdiction"[0] == 'j' && "payload_ref"[2] == 'y' && "party_names"[2] == 'r';
    assert "payload_ref"[0] == 'p' && "party_names"[0] == 'p';
  }

  lemma FivePieces(a: seq<ValidationError>, b: seq<ValidationError>, c: seq<ValidationError>,
                   d: seq<ValidationError>, e: seq<ValidationError>, field: string)
    requires |a| <= 1 && |b| <= 1 && |c| <= 1 && |d| <= 1 && |e| <= 1
    ensures var all := a + b + c + d + e;
      && (all == [] <==> a == [] && b == [] && c == [] && d == [] && e == [])
      && (Names(field, all) <==>
            (|| (a != [] && a[0].field == field) || (b != [] && b[0].field == field)
             || (c != [] && c[0].field == field) || (d != [] && d[0].field == field)
             || (e != [] && e[0].field == field)))
  {
    hide Names;
    NamesEither(field, a + b + c + d, e);
    NamesEither(field, a + b + c, d);
    NamesEither(field, a + b, c);
    NamesEither(field, a, b);
    NamesOf(a); NamesOf(b); NamesOf(c); NamesOf(d); NamesOf(e);
    assert |a + b + c + d + e| == |a| + |b| + |c| + |d| + |e|;
  }

  predicate Names(field: string, errors: seq<ValidationError>) {
    exists i :: 0 <= i < |errors| && errors[i].field == field
  }

  lemma NamesEither(field: string, a: seq<ValidationError>, b: seq<ValidationError>)
    ensures Names(field, a + b) <==> Names(field, a) || Names(field, b)
  {
    if i :| 0 <= i < |a| && a[i].field == field { assert (a + b)[i] == a[i]; }
    if i :| 0 <= i < |b| && b[i].field == field { assert (a + b)[|a| + i] == b[i]; }
  }

  lemma NamesOf(a: seq<ValidationError>)
    requires |a| <= 1
    ensures forall field :: Names(field, a) <==> a != [] && a[0].field == field
  {
  }

  // The key of a source record is that of its case number, jurisdiction and names.
  lemma KeyOfRecord(rules: Rules, r: SourceRecord)
    ensures var nothing := !NonBlank(r.caseNumber) && !NonBlank(r.jurisdiction)
        && forall i :: 0 <= i < |r.parties| ==> !NonBlank(r.parties[i]);
      rules.Key(r) ==
        if nothing then ""
        else rules.hash(DedupKey.Normalize(r.caseNumber) + "|" +
                        (DedupKey.Normalize(r.jurisdiction) + "|" + DedupKey.PartyText(r.parties)))
  {
    hide NonBlank, DedupKey.PartyText, DedupKey.Normalize;
    DedupOnFields.KeyOnFields(rules.hash, r.caseNumber, r.jurisdiction, r.parties);
  }

  // ---------- the status machine ----------

  lemma TransitionsOnFields(s: Status, next: Status)
    ensures CanTransitionTo(s, next) <==>
      match next
      case Pending => false
      case Running => s != Completed && s != RolledBack
      case Paused => s == Running
      case Completed => s == Running
      case Failed => s == Pending || s == Running || s == Paused
      case RolledBack => s == Completed || s == Failed
  {
  }

  lemma RegisteredOnFields(id: Uuid, tenant: Uuid, description: string, user: Uuid, total: int, now: Time)
    ensures var job := NewImportJob(id, tenant, description, user, total, now);
      && (job.id, job.tenant, job.sourceDescription, job.createdBy) == (id, tenant, description, user)
      && job.status == Pending && job.total == total && job.createdAt == now == job.updatedAt
      && (job.processed, job.failed, job.skipped, job.imported, job.cursor) == (0, 0, 0, 0, 0)
      && job.startedAt == None && job.finishedAt == None && job.failureReason == ""
  {
  }

  // A transition changes the status and the times, with a failure its reason,
  // and nothing else; a start is noted once, an end every time.
  lemma TransitionOnFields(w: World, t: Uuid, j: Uuid, next: Status, reason: string, now: Time)
    ensures var after := AfterTransition(w, t, j, next, reason, now);
      if j in w.jobs && w.jobs[j].tenant == t && CanTransitionTo(w.jobs[j].status, next) then
        && j in after.jobs && after == w.(jobs := w.jobs[j := after.jobs[j]])
        && var a, b := w.jobs[j], after.jobs[j];
           && b.status == next && b.updatedAt == now
           && b.startedAt == (if next == Running && a.startedAt == None then Some(now) else a.startedAt)
           && b.finishedAt == (if next == Completed || next == Failed then Some(now) else a.finishedAt)
           && b.failureReason == (if next == Failed then reason else a.failureReason)
           && b.(status := a.status, updatedAt := a.updatedAt, startedAt := a.startedAt, finishedAt := a.finishedAt,
                 failureReason := a.failureReason) == a
      else after == w
  {
    hide CanTransitionTo;
  }

  // ---------- batches ----------

  function Outcomes(rows: seq<ImportRecord>, o: Outcome): int {
    if |rows| == 0 then 0 else Outcomes(rows[..|rows| - 1], o) + if rows[|rows| - 1].outcome == o then 1 else 0
  }

  lemma {:induction false} CountsOutcomes(rows: seq<ImportRecord>, o: Outcome)
    ensures Count(rows, o) == Outcomes(rows, o)
  {
    if rows != [] { CountsOutcomes(rows[..|rows| - 1], o); }
  }

  // A call that is let through reads on from the cursor, as many records as it
  // was told or as there are, and moves the job by them if no store call fails;
  // the job is completed with the last record.
  lemma BatchOnFields(w: World, c: BatchCall, rows: seq<ImportRecord>, rules: Rules)
    requires BatchWrites(rules, w, c, rows)
    ensures BatchRefusal(w, c) == None <==>
      && c.source.Some? && c.size > 0 && c.job in w.jobs && w.jobs[c.job].tenant == c.tenant
      && (w.jobs[c.job].status == Pending || w.jobs[c.job].status == Running) && c.fault != ReadFails
    ensures BatchRefusal(w, c) == None && 0 <= w.jobs[c.job].cursor <= |c.source.value| ==>
      var left := |c.source.value| - w.jobs[c.job].cursor;
      var n := if c.size <= left then c.size else left;
      && |rows| == (if c.fault.RowWriteFails? && c.fault.at < n then c.fault.at else n)
      && (BatchCommits(w, c) <==> |rows| == n && c.fault != JobUpdateFails)
    ensures BatchCommits(w, c) ==>
      var after := AfterBatch(w, c, rows);
      && c.job in after.jobs && after.jobs == w.jobs[c.job := after.jobs[c.job]]
      && var a, b := w.jobs[c.job], after.jobs[c.job];
         && b.processed == a.processed + |rows| && b.cursor == a.cursor + |rows|
         && b.imported == a.imported + Outcomes(rows, Imported)
         && b.skipped == a.skipped + Outcomes(rows, SkippedDuplicate)
         && b.failed == a.failed + Outcomes(rows, Rejected)
         && b.updatedAt == c.later
         && b.startedAt == (if a.status == Pending && a.startedAt == None then Some(c.now) else a.startedAt)
         && (a.cursor >= 0 ==> (b.status == Completed <==> b.cursor >= |c.source.value|))
         && (b.status == Running || b.status == Completed)
         && b.finishedAt == (if b.status == Completed then Some(c.later) else a.finishedAt)
         && b.(processed := a.processed, cursor := a.cursor, imported := a.imported, skipped := a.skipped,
               failed := a.failed, updatedAt := a.updatedAt, startedAt := a.startedAt, status := a.status,
               finishedAt := a.finishedAt) == a
    ensures !BatchCommits(w, c) ==> AfterBatch(w, c, rows).jobs == w.jobs
  {
    hide RowsFor, AddRows, Count, Outcomes;
    CountsOutcomes(rows, Imported);
    CountsOutcomes(rows, SkippedDuplicate);
    CountsOutcomes(rows, Rejected);
  }

  // ---------- the rows of a batch ----------

  // What imports key k for the job, among the stored rows and those written so
  // far.
  ghost predicate Holds(records: Records, rows: seq<ImportRecord>, t: Uuid, j: Uuid, key: string, id: Uuid) {
    || (id in records && Carries(records[id], t, j, key))
    || (exists i :: 0 <= i < |rows| && rows[i].id == id && Carries(rows[i], t, j, key))
  }

  predicate Carries(r: ImportRecord, t: Uuid, j: Uuid, key: string) {
    r.tenant == t && r.job == j && r.dedupKey == key && r.outcome == Imported
  }

  // Rejected with what the validator says; else a duplicate if it has a key and
  // the job holds a row imported with it; else imported.
  ghost predicate RowTold(rules: Rules, records: Records, earlier: seq<ImportRecord>, c: BatchCall, at: int,
                          sr: SourceRecord, row: ImportRecord) {
    var errors, key := rules.validate(sr), rules.Key(sr);
    && (row.tenant, row.job, row.sourceIndex, row.fields) == (c.tenant, c.job, at, sr)
    && row.createdAt == c.now == row.updatedAt && row.createdCase == NIL_UUID && row.errors == errors
    && row.id !in records && (forall i :: 0 <= i < |earlier| ==> earlier[i].id != row.id)
    && if errors != [] then
         (row.validation, row.dedupKey, row.outcome, row.reason) ==
         (ValidationFailed, "", Rejected, "failed validation")
       else
         && row.validation == ValidationPassed && row.dedupKey == key
         && (row.outcome == Imported || row.outcome == SkippedDuplicate)
         && (row.outcome == SkippedDuplicate <==>
               key != "" && exists id :: Holds(records, earlier, c.tenant, c.job, key, id))
         && (row.outcome == Imported ==> row.reason == "")
         && (row.outcome == SkippedDuplicate ==>
               exists id :: Holds(records, earlier, c.tenant, c.job, key, id)
                            && row.reason == "duplicate of record " + id)
  }

  // The rows a batch writes are told one by one, each with those before it
  // already stored; what was stored stays as it was.
  lemma RowsOnFields(rules: Rules, w: World, c: BatchCall, rows: seq<ImportRecord>)
    requires BatchWrites(rules, w, c, rows)
    ensures rows != [] ==> c.source.Some? && c.job in w.jobs && 0 <= w.jobs[c.job].cursor
                           && w.jobs[c.job].cursor + |rows| <= |c.source.value|
    ensures forall k :: 0 <= k < |rows| ==>
      var at := w.jobs[c.job].cursor + k;
      RowTold(rules, w.records, rows[..k], c, at, c.source.value[at], rows[k])
    ensures var after := AfterBatch(w, c, rows).records;
      && (forall id :: id in after <==> id in w.records || exists k :: 0 <= k < |rows| && rows[k].id == id)
      && (forall id :: id in w.records ==> after[id] == w.records[id])
      && (forall k :: 0 <= k < |rows| ==> after[rows[k].id] == rows[k])
  {
    hide RowFor, AddRows, RowTold;
    if BatchRefusal(w, c) != None {
      NoRows(w.records);
    } else {
      forall k | 0 <= k < |rows|
        ensures rows[k].id !in AddRows(w.records, rows[..k])
      {
        FreshRow(rules, w, c, rows, k);
      }
      RowsAdded(w.records, rows);
      var start := w.jobs[c.job].cursor;
      forall k | 0 <= k < |rows|
        ensures RowTold(rules, w.records, rows[..k], c, start + k, c.source.value[start + k], rows[k])
      {
        RowTells(rules, w, c, rows, k);
      }
    }
  }

  lemma RowTells(rules: Rules, w: World, c: BatchCall, rows: seq<ImportRecord>, k: nat)
    requires BatchWrites(rules, w, c, rows) && BatchRefusal(w, c) == None && k < |rows|
    requires forall m :: 0 <= m < |rows| ==> rows[m].id !in AddRows(w.records, rows[..m])
    requires c.source.Some? && c.job in w.jobs && 0 <= w.jobs[c.job].cursor + k < |c.source.value|
    ensures var at := w.jobs[c.job].cursor + k;
      RowTold(rules, w.records, rows[..k], c, at, c.source.value[at], rows[k])
  {
    hide RowFor, AddRows, RowTold;
    var at := w.jobs[c.job].cursor + k;
    forall i | 0 <= i < k ensures rows[..k][i].id !in AddRows(w.records, rows[..k][..i]) {
      assert rows[..k][..i] == rows[..i];
    }
    RowsAdded(w.records, rows[..k]);
    RowIsTold(rules, w.records, rows[..k], c, at, c.source.value[at], rows[k]);
  }

  lemma NoRows(records: Records)
    ensures AddRows(records, []) == records
  {
  }

  lemma FreshRow(rules: Rules, w: World, c: BatchCall, rows: seq<ImportRecord>, k: nat)
    requires BatchWrites(rules, w, c, rows) && BatchRefusal(w, c) == None && k < |rows|
    ensures rows[k].id !in AddRows(w.records, rows[..k])
  {
    hide AddRows, HasImported;
  }

  lemma {:induction false} RowsAdded(records: Records, rows: seq<ImportRecord>)
    requires forall k :: 0 <= k < |rows| ==> rows[k].id !in AddRows(records, rows[..k])
    ensures var after := AddRows(records, rows);
      && (forall id :: id in after <==> id in records || exists k :: 0 <= k < |rows| && rows[k].id == id)
      && (forall id :: id in records ==> after[id] == records[id])
      && (forall k :: 0 <= k < |rows| ==> after[rows[k].id] == rows[k])
  {
    hide AddRows;
    if rows == [] {
      NoRows(records);
    } else {
      var n := |rows| - 1;
      var init, row := rows[..n], rows[n];
      forall k | 0 <= k < n ensures init[k].id !in AddRows(records, init[..k]) { assert init[..k] == rows[..k]; }
      RowsAdded(records, init);
      AddRowsStep(records, init, row);
      assert rows == init + [row];
      forall k | 0 <= k < n ensures rows[k].id in AddRows(records, init) && rows[k].id != row.id {
        assert init[k].id == rows[k].id;
      }
      forall id
        ensures id in AddRows(records, rows) <==> id in records || exists k :: 0 <= k < |rows| && rows[k].id == id
      {
        if id == row.id {
          assert rows[n].id == id;
        } else if k :| 0 <= k < |rows| && rows[k].id == id {
          assert init[k].id == id;
        }
      }
    }
  }

  lemma RowIsTold(rules: Rules, records: Records, earlier: seq<ImportRecord>, c: BatchCall, at: int,
                  sr: SourceRecord, row: ImportRecord)
    requires var so := AddRows(records, earlier);
      && RowFor(rules, so, c.tenant, c.job, sr, at, c.now, row)
      && (forall id :: id in so <==> id in records || exists k :: 0 <= k < |earlier| && earlier[k].id == id)
      && (forall id :: id in records ==> so[id] == records[id])
      && (forall k :: 0 <= k < |earlier| ==> so[earlier[k].id] == earlier[k])
    ensures RowTold(rules, records, earlier, c, at, sr, row)
  {
    hide AddRows;
    var so := AddRows(records, earlier);
    forall id
      ensures id in so && IsImportedWithKey(so[id], c.tenant, c.job, rules.Key(sr)) <==>
              Holds(records, earlier, c.tenant, c.job, rules.Key(sr), id)
    {
    }
  }

  // ---------- rollbacks ----------

  // A rollback turns rows into rolled-back ones, and the job with them when all
  // of them are; no other row and no other job changes.
  lemma RollbackOnFields(w: World, c: RollbackCall, ids: set<Uuid>)
    requires RollbackReverses(w, c, ids)
    ensures var after := AfterRollback(w, c, ids);
      && after.records.Keys == w.records.Keys
      && (forall id :: id in w.records && id !in ids ==> after.records[id] == w.records[id])
      && (forall id :: id in ids ==>
            && id in w.records && w.records[id].tenant == c.tenant && w.records[id].job == c.job
            && w.records[id].outcome == Imported
            && var a, b := w.records[id], after.records[id];
               && b.outcome == OutcomeRolledBack && b.reason == c.note && b.createdCase == NIL_UUID
               && b.updatedAt == c.now
               && b.(outcome := a.outcome, reason := a.reason, createdCase := a.createdCase,
                     updatedAt := a.updatedAt) == a)
    ensures RollbackCommits(w, c) ==>
      var after := AfterRollback(w, c, ids);
      && (forall id :: (id in w.records && w.records[id].tenant == c.tenant && w.records[id].job == c.job
                        && w.records[id].outcome == Imported) ==> id in ids)
      && c.job in w.jobs && (w.jobs[c.job].status == Completed || w.jobs[c.job].status == Failed)
      && c.job in after.jobs && after.jobs == w.jobs[c.job := after.jobs[c.job]]
      && var a, b := w.jobs[c.job], after.jobs[c.job];
         && b.status == RolledBack && b.updatedAt == c.now && b.imported == a.imported - |ids|
         && b.(status := a.status, updatedAt := a.updatedAt, imported := a.imported) == a
    ensures !RollbackCommits(w, c) ==> AfterRollback(w, c, ids).jobs == w.jobs
  {
  }

  function ImportedRows(w: World, t: Uuid, j: Uuid): set<Uuid> {
    set id | id in w.records && w.records[id].tenant == t && w.records[id].job == j && w.records[id].outcome == Imported
  }

  // It is let through for a job that has ended; it reverses every imported row of
  // the job, or as many as it wrote before a write failed; and it goes through
  // when no store call fails.
  lemma RollbackReaches(w: World, c: RollbackCall, ids: set<Uuid>)
    requires RollbackReverses(w, c, ids)
    ensures var mine := ImportedRows(w, c.tenant, c.job);
      var admitted := c.job in w.jobs && w.jobs[c.job].tenant == c.tenant
                      && (w.jobs[c.job].status == Completed || w.jobs[c.job].status == Failed) && c.fault != ReadFails;
      var reached := if c.fault.RowWriteFails? && c.fault.at < |mine| then c.fault.at else |mine|;
      && ids <= mine && |ids| == (if admitted then reached else 0)
      && (RollbackCommits(w, c) <==> admitted && reached == |mine| && c.fault != JobUpdateFails)
  {
    assert IdsWith(w.records, c.tenant, c.job, Imported) == ImportedRows(w, c.tenant, c.job);
  }

  // ---------- refusals and listings ----------

  // Which error a refused call gives, in the order of the checks.
  lemma RefusalsOnFields(w: World, c: BatchCall, next: Status)
    ensures var batch, visible := BatchRefusal(w, c), c.job in w.jobs && w.jobs[c.job].tenant == c.tenant;
      && (batch == Some(NilSource) <==> c.source.None?)
      && (batch == Some(InvalidBatchSize) <==> c.source.Some? && c.size <= 0)
      && (batch == Some(JobNotFound) <==> c.source.Some? && c.size > 0 && !visible)
      && (batch == Some(JobNotRunnable) <==>
            c.source.Some? && c.size > 0 && visible && w.jobs[c.job].status !in {Pending, Running})
      && (batch == Some(StorageFailure) <==>
            && c.source.Some? && c.size > 0 && visible && w.jobs[c.job].status in {Pending, Running}
            && c.fault == ReadFails)
    ensures var visible := c.job in w.jobs && w.jobs[c.job].tenant == c.tenant;
      && (TransitionRefusal(w, c.tenant, c.job, next) == None <==>
            visible && CanTransitionTo(w.jobs[c.job].status, next))
      && (TransitionRefusal(w, c.tenant, c.job, next) == Some(JobNotFound) <==> !visible)
      && (TransitionRefusal(w, c.tenant, c.job, next) == Some(InvalidTransition) <==>
            visible && !CanTransitionTo(w.jobs[c.job].status, next))
      && (RollbackRefusal(w, c.tenant, c.job) == Some(JobNotFound) <==> !visible)
      && (RollbackRefusal(w, c.tenant, c.job) == Some(JobNotRollbackable) <==>
            visible && w.jobs[c.job].status !in {Completed, Failed})
  {
    hide CanTransitionTo;
  }

  // A list as ListForJob gives it holds the job's rows, each once, those from
  // earlier source indices first.
  lemma ListingOnFields(list: seq<ImportRecord>, records: Records, t: Uuid, j: Uuid)
    requires KeyedById(records) && Lists(list, records, t, j) && DistinctRows(list) && Sorted(list, BySourceIndex)
    ensures forall r :: r in list <==> r.id in records && records[r.id] == r && r.tenant == t && r.job == j
    ensures forall i, k :: 0 <= i < k < |list| ==>
      list[i].id != list[k].id && list[i].sourceIndex <= list[k].sourceIndex
  {
  }

  // ---------- a job's times over whole runs ----------

  predicate TimesFit(job: ImportJob) {
    && (job.status == Pending ==> job.startedAt == None && job.finishedAt == None)
    && (job.status == Running || job.status == Paused || job.status == Completed ==> job.startedAt != None)
    && (job.status == Completed || job.status == Failed || job.status == RolledBack ==> job.finishedAt != None)
  }

  // From registration on: a job that has not begun has no times, one that runs
  // has begun, one that ended has an end; and the first start stays.
  lemma {:induction false} RunTimes(rules: Rules, w: World, ops: seq<ImportRuns.Op>, j: Uuid)
    requires ImportRuns.ValidRun(rules, w, ops) && j in w.jobs && TimesFit(w.jobs[j])
    ensures var after := ImportRuns.AfterAll(w, ops);
      j in after.jobs && TimesFit(after.jobs[j])
      && (w.jobs[j].startedAt != None ==> after.jobs[j].startedAt == w.jobs[j].startedAt)
      && (w.jobs[j].status != Pending ==> after.jobs[j].status != Pending)
  {
    if ops != [] {
      hide ImportRuns.After, ImportRuns.Enabled, TimesFit;
      var n := |ops| - 1;
      var init := ops[..n];
      forall i | 0 <= i < n ensures ImportRuns.Enabled(rules, ImportRuns.AfterAll(w, init[..i]), init[i]) {
        assert init[..i] == ops[..i];
        assert ImportRuns.Enabled(rules, ImportRuns.AfterAll(w, ops[..i]), ops[i]);
      }
      RunTimes(rules, w, init, j);
      assert ImportRuns.Enabled(rules, ImportRuns.AfterAll(w, ops[..n]), ops[n]);
      StepTimes(rules, ImportRuns.AfterAll(w, init), ops[n], j);
    }
  }

  lemma StepTimes(rules: Rules, w: World, op: ImportRuns.Op, j: Uuid)
    requires ImportRuns.Enabled(rules, w, op) && j in w.jobs && TimesFit(w.jobs[j])
    ensures var after := ImportRuns.After(w, op);
      j in after.jobs && TimesFit(after.jobs[j])
      && (w.jobs[j].startedAt != None ==> after.jobs[j].startedAt == w.jobs[j].startedAt)
      && (w.jobs[j].status != Pending ==> after.jobs[j].status != Pending)
  {
    hide BatchWrites, RollbackReverses, AddRows, Count, Reversed, RowsToWrite, BatchRead;
  }
}
