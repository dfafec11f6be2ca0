// packages/bulkimport: engine.go, resume.go, rollback.go, inmemory_repository.go.
// Storage failures are inputs (Fault): every store call RunBatch and Rollback
// make may be the one that fails.
module ImportEngine {
  import opened Basics
  import opened Text
  import opened ImportTypes
  import opened Sorting

  type Jobs = map<Uuid, ImportJob>
  type Records = map<Uuid, ImportRecord>
  datatype World = World(jobs: Jobs, records: Records)

  datatype Error = NilSource | InvalidBatchSize | JobNotFound | JobNotRunnable | JobNotRollbackable
                 | InvalidTransition | InvalidJob | EmptyTenantId | StorageFailure

  // The store call that fails during one engine call. CreateFails(k): the k-th
  // row write; a k the call never reaches is no fault.
  datatype Fault = NoFault | ReadFails | RowWriteFails(at: nat) | JobUpdateFails

  predicate Mine(r: ImportRecord, tenant: Uuid, job: Uuid) {
    r.tenant == tenant && r.job == job
  }

  predicate KeyedById(records: Records) {
    forall id :: id in records ==> records[id].id == id
  }

  predicate IsImportedWithKey(r: ImportRecord, tenant: Uuid, job: Uuid, key: string) {
    Mine(r, tenant, job) && r.dedupKey == key && r.outcome == Imported
  }

  predicate HasImported(records: Records, tenant: Uuid, job: Uuid, key: string) {
    exists id :: id in records && IsImportedWithKey(records[id], tenant, job, key)
  }

  // ---------- what one record becomes ----------

  // The row RunBatch writes for source record sr at source index i, given the
  // rows stored so far.
  predicate RowFor(rules: Rules, records: Records, tenant: Uuid, job: Uuid, sr: SourceRecord, i: int, now: Time,
                   row: ImportRecord) {
    && Mine(row, tenant, job) && row.sourceIndex == i && row.fields == sr
    && row.createdAt == now && row.updatedAt == now && row.createdCase == NIL_UUID
    && row.id !in records
    && if !rules.Valid(sr) then
         && row.validation == ValidationFailed && row.errors == rules.validate(sr)
         && row.dedupKey == "" && row.outcome == Rejected && row.reason == "failed validation"
       else
         && row.validation == ValidationPassed && row.errors == [] && row.dedupKey == rules.Key(sr)
         && if row.dedupKey != "" && HasImported(records, tenant, job, row.dedupKey) then
              && row.outcome == SkippedDuplicate
              && exists id :: id in records && IsImportedWithKey(records[id], tenant, job, row.dedupKey)
                              && row.reason == "duplicate of record " + id
            else row.outcome == Imported && row.reason == ""
  }

  function AddRows(records: Records, rows: seq<ImportRecord>): Records {
    if rows == [] then records
    else var n := |rows| - 1; AddRows(records, rows[..n])[rows[n].id := rows[n]]
  }

  predicate RowsFor(rules: Rules, records: Records, tenant: Uuid, job: Uuid, source: seq<SourceRecord>, start: int,
                    now: Time, rows: seq<ImportRecord>) {
    && (rows != [] ==> 0 <= start && start + |rows| <= |source|)
    && forall k :: 0 <= k < |rows| ==>
      RowFor(rules, AddRows(records, rows[..k]), tenant, job, source[start + k], start + k, now, rows[k])
  }

  function Count(rows: seq<ImportRecord>, o: Outcome): nat {
    if rows == [] then 0 else Count(rows[..|rows| - 1], o) + if rows[|rows| - 1].outcome == o then 1 else 0
  }

  // ---------- one RunBatch call ----------

  datatype BatchCall = BatchCall(tenant: Uuid, job: Uuid, source: Option<seq<SourceRecord>>, size: int, now: Time,
                                 later: Time, fault: Fault)

  predicate JobVisible(w: World, tenant: Uuid, job: Uuid) {
    job in w.jobs && w.jobs[job].tenant == tenant
  }

  function BatchRefusal(w: World, c: BatchCall): Option<Error> {
    if c.source.None? then Some(NilSource)
    else if c.size <= 0 then Some(InvalidBatchSize)
    else if !JobVisible(w, c.tenant, c.job) then Some(JobNotFound)
    else if w.jobs[c.job].status != Pending && w.jobs[c.job].status != Running then Some(JobNotRunnable)
    else if c.fault == ReadFails then Some(StorageFailure)
    else None
  }

  function BatchRead(w: World, c: BatchCall): (seq<SourceRecord>, bool)
    requires BatchRefusal(w, c) == None
  {
    ReadAt(c.source.value, w.jobs[c.job].cursor, c.size)
  }

  // How many rows the call writes before it ends.
  function RowsToWrite(w: World, c: BatchCall): nat
    requires BatchRefusal(w, c) == None
  {
    var n := |BatchRead(w, c).0|;
    if c.fault.RowWriteFails? && c.fault.at < n then c.fault.at else n
  }

  predicate BatchWrites(rules: Rules, w: World, c: BatchCall, rows: seq<ImportRecord>) {
    if BatchRefusal(w, c) != None then rows == []
    else
      && |rows| == RowsToWrite(w, c)
      && RowsFor(rules, w.records, c.tenant, c.job, c.source.value, w.jobs[c.job].cursor, c.now, rows)
  }

  predicate BatchCommits(w: World, c: BatchCall)
  {
    BatchRefusal(w, c) == None && RowsToWrite(w, c) == |BatchRead(w, c).0| && c.fault != JobUpdateFails
  }

  function JobAfterBatch(job: ImportJob, rows: seq<ImportRecord>, done: bool, now: Time, later: Time): ImportJob {
    var begun := if job.status == Pending then Moved(job, Running, now) else job;
    var counted := begun.(
      processed := begun.processed + |rows|, failed := begun.failed + Count(rows, Rejected),
      skipped := begun.skipped + Count(rows, SkippedDuplicate), imported := begun.imported + Count(rows, Imported),
      cursor := begun.cursor + |rows|);
    if done then Moved(counted, Completed, later) else counted.(updatedAt := later)
  }

  // Rows written by a call that fails later on stay behind; the job moves only
  // when the whole batch went through.
  function AfterBatch(w: World, c: BatchCall, rows: seq<ImportRecord>): World {
    if BatchRefusal(w, c) != None then w
    else
      var records := AddRows(w.records, rows);
      if BatchCommits(w, c)
      then World(w.jobs[c.job := JobAfterBatch(w.jobs[c.job], rows, BatchRead(w, c).1, c.now, c.later)], records)
      else World(w.jobs, records)
  }

  // ---------- transitions and rollback ----------

  function AfterTransition(w: World, tenant: Uuid, job: Uuid, next: Status, reason: string, now: Time): World {
    if !JobVisible(w, tenant, job) || !CanTransitionTo(w.jobs[job].status, next) then w
    else
      var moved := Moved(w.jobs[job], next, now);
      w.(jobs := w.jobs[job := if next == Failed then moved.(failureReason := reason) else moved])
  }

  function TransitionRefusal(w: World, tenant: Uuid, job: Uuid, next: Status): Option<Error> {
    if !JobVisible(w, tenant, job) then Some(JobNotFound)
    else if !CanTransitionTo(w.jobs[job].status, next) then Some(InvalidTransition)
    else None
  }

  function ReversedRow(r: ImportRecord, note: string, now: Time): ImportRecord {
    r.(outcome := OutcomeRolledBack, reason := note, createdCase := NIL_UUID, updatedAt := now)
  }

  function Reversed(records: Records, ids: set<Uuid>, note: string, now: Time): Records {
    map id | id in records :: if id in ids then ReversedRow(records[id], note, now) else records[id]
  }

  function IdsWith(records: Records, tenant: Uuid, job: Uuid, o: Outcome): set<Uuid> {
    set id | id in records && Mine(records[id], tenant, job) && records[id].outcome == o
  }

  function RollbackRefusal(w: World, tenant: Uuid, job: Uuid): Option<Error> {
    if !JobVisible(w, tenant, job) then Some(JobNotFound)
    else if w.jobs[job].status != Completed && w.jobs[job].status != Failed then Some(JobNotRollbackable)
    else None
  }

  datatype RollbackCall = RollbackCall(tenant: Uuid, job: Uuid, now: Time, note: string, fault: Fault)

  predicate RollbackCommits(w: World, c: RollbackCall) {
    && RollbackRefusal(w, c.tenant, c.job) == None && c.fault != ReadFails && c.fault != JobUpdateFails
    && (c.fault.RowWriteFails? ==> c.fault.at >= |IdsWith(w.records, c.tenant, c.job, Imported)|)
  }

  // The rows a rollback reversed: all imported rows of the job, or those it
  // reached before the write that failed.
  predicate RollbackReverses(w: World, c: RollbackCall, ids: set<Uuid>) {
    var all := IdsWith(w.records, c.tenant, c.job, Imported);
    if RollbackRefusal(w, c.tenant, c.job) != None || c.fault == ReadFails then ids == {}
    else if c.fault.RowWriteFails? && c.fault.at < |all| then ids <= all && |ids| == c.fault.at
    else ids == all
  }

  function AfterRollback(w: World, c: RollbackCall, ids: set<Uuid>): World {
    var records := Reversed(w.records, ids, c.note, c.now);
    if RollbackCommits(w, c) then
      var job := Moved(w.jobs[c.job], RolledBack, c.now);
      World(w.jobs[c.job := job.(imported := job.imported - |ids|)], records)
    else World(w.jobs, records)
  }

  predicate BySourceIndex(r: ImportRecord, s: ImportRecord) {
    r.sourceIndex < s.sourceIndex
  }

  // The list holds exactly the job's stored rows.
  predicate Lists(list: seq<ImportRecord>, records: Records, tenant: Uuid, job: Uuid) {
    && (forall k :: 0 <= k < |list| ==> AreStored(list[k], records, tenant, job))
    && (forall id :: id in records && Mine(records[id], tenant, job) ==> records[id] in list)
  }

  predicate AreStored(r: ImportRecord, records: Records, tenant: Uuid, job: Uuid) {
    r.id in records && records[r.id] == r && Mine(r, tenant, job)
  }

  predicate DistinctRows(list: seq<ImportRecord>) {
    forall i, k :: 0 <= i < k < |list| ==> list[i].id != list[k].id
  }

  lemma Spliced(list: seq<ImportRecord>, rec: ImportRecord, p: nat)
    requires p <= |list|
    ensures var out := list[..p] + [rec] + list[p..];
      && rec in out && (forall r :: r in list ==> r in out)
      && (forall k :: 0 <= k < |out| ==> out[k] == rec || out[k] in list)
      && (DistinctRows(list) && (forall k :: 0 <= k < |list| ==> list[k].id != rec.id) ==> DistinctRows(out))
  {
    var out := list[..p] + [rec] + list[p..];
    assert out[p] == rec;
    forall r | r in list ensures r in out {
      var k :| 0 <= k < |list| && list[k] == r;
      assert out[if k < p then k else k + 1] == r;
    }
  }

  lemma AddRowsStep(records: Records, rows: seq<ImportRecord>, row: ImportRecord)
    ensures AddRows(records, rows + [row]) == AddRows(records, rows)[row.id := row]
    ensures forall o :: Count(rows + [row], o) == Count(rows, o) + if row.outcome == o then 1 else 0
  {
    assert (rows + [row])[..|rows|] == rows;
  }

  lemma NoRowsYet(rules: Rules, records: Records, c: BatchCall, source: seq<SourceRecord>, start: int)
    ensures AddRows(records, []) == records && forall o :: Count([], o) == 0
    ensures RowsFor(rules, records, c.tenant, c.job, source, start, c.now, [])
  {
  }

  lemma SamePrefix(rows: seq<ImportRecord>, row: ImportRecord, k: nat)
    requires k <= |rows|
    ensures (rows + [row])[..k] == rows[..k] && (rows + [row])[k] == if k < |rows| then rows[k] else row
    ensures rows[..|rows|] == rows
  {
  }

  lemma EarlierRowFor(rules: Rules, records: Records, tenant: Uuid, job: Uuid, source: seq<SourceRecord>, start: int,
                      now: Time, rows: seq<ImportRecord>, row: ImportRecord, k: nat)
    requires RowsFor(rules, records, tenant, job, source, start, now, rows) && k < |rows| && start + k < |source|
    ensures var out := rows + [row];
      RowFor(rules, AddRows(records, out[..k]), tenant, job, source[start + k], start + k, now, out[k])
  {
    hide RowFor, AddRows;
    SamePrefix(rows, row, k);
  }

  lemma RowsForStep(rules: Rules, records: Records, tenant: Uuid, job: Uuid, source: seq<SourceRecord>, start: int,
                    now: Time, rows: seq<ImportRecord>, row: ImportRecord)
    requires RowsFor(rules, records, tenant, job, source, start, now, rows)
    requires 0 <= start && start + |rows| < |source|
    requires RowFor(rules, AddRows(records, rows), tenant, job, source[start + |rows|], start + |rows|, now, row)
    ensures RowsFor(rules, records, tenant, job, source, start, now, rows + [row])
  {
    hide RowFor, AddRows;
    var out := rows + [row];
    SamePrefix(rows, row, |rows|);
    forall k | 0 <= k < |out|
      ensures RowFor(rules, AddRows(records, out[..k]), tenant, job, source[start + k], start + k, now, out[k])
    {
      if k < |rows| { EarlierRowFor(rules, records, tenant, job, source, start, now, rows, row, k); }
    }
  }

  // ---------- the in-memory repositories ----------

  class InMemoryJobRepository {
    var jobs: Jobs

    constructor ()
      ensures jobs == map[]
    {
      jobs := map[];
    }

    method Get(tenant: Uuid, id: Uuid) returns (j: Option<ImportJob>)
      ensures j == if id in jobs && jobs[id].tenant == tenant then Some(jobs[id]) else None
    {
      j := if id in jobs && jobs[id].tenant == tenant then Some(jobs[id]) else None;
    }

    method Update(tenant: Uuid, j: ImportJob) returns (ok: bool)
      modifies this
      ensures ok <==> j.id in old(jobs) && old(jobs)[j.id].tenant == tenant
      ensures jobs == if ok then old(jobs)[j.id := j.(tenant := tenant)] else old(jobs)
    {
      ok := j.id in jobs && jobs[j.id].tenant == tenant;
      if ok { jobs := jobs[j.id := j.(tenant := tenant)]; }
    }
  }

  class InMemoryRecordRepository {
    var records: Records

    constructor ()
      ensures records == map[]
    {
      records := map[];
    }

    // The map is searched in no particular order: any match may be the answer.
    method FindByDedupKey(tenant: Uuid, job: Uuid, key: string) returns (r: Option<ImportRecord>)
      requires KeyedById(records)
      ensures r.Some? <==> key != "" && HasImported(records, tenant, job, key)
      ensures r.Some? ==> r.value.id in records && records[r.value.id] == r.value
                          && IsImportedWithKey(r.value, tenant, job, key)
    {
      r := None;
      if key == "" { return; }
      var todo := records.Keys;
      while todo != {}
        invariant todo <= records.Keys
        invariant forall id :: id in records && id !in todo ==> !IsImportedWithKey(records[id], tenant, job, key)
        decreases todo
      {
        var id :| id in todo;
        if IsImportedWithKey(records[id], tenant, job, key) { return Some(records[id]); }
        todo := todo - {id};
      }
    }

    method Create(rec: ImportRecord)
      modifies this
      ensures records == old(records)[rec.id := rec]
    {
      records := records[rec.id := rec];
    }

    // The job's rows by SourceIndex.
    method ListForJob(tenant: Uuid, job: Uuid) returns (list: seq<ImportRecord>)
      requires KeyedById(records)
      ensures Lists(list, records, tenant, job)
      ensures DistinctRows(list) && Sorted(list, BySourceIndex)
    {
      list := [];
      var todo := records.Keys;
      while todo != {}
        invariant todo <= records.Keys
        invariant forall k :: 0 <= k < |list| ==>
          list[k].id in records && list[k].id !in todo && records[list[k].id] == list[k] && Mine(list[k], tenant, job)
        invariant forall id :: id in records && id !in todo && Mine(records[id], tenant, job) ==> records[id] in list
        invariant DistinctRows(list) && Sorted(list, BySourceIndex)
        decreases todo
      {
        var id :| id in todo;
        var rec := records[id];
        if Mine(rec, tenant, job) {
          ghost var p := InsertSplits(list, rec, BySourceIndex);
          InsertSorted(list, rec, BySourceIndex);
          ghost var was := list;
          list := Insert(list, rec, BySourceIndex);
          Spliced(was, rec, p);
        }
        todo := todo - {id};
      }
    }

    method Update(rec: ImportRecord) returns (ok: bool)
      modifies this
      ensures ok <==> rec.id in old(records) && old(records)[rec.id].tenant == rec.tenant
      ensures records == if ok then old(records)[rec.id := rec] else old(records)
    {
      ok := rec.id in records && records[rec.id].tenant == rec.tenant;
      if ok { records := records[rec.id := rec]; }
    }
  }

  // ---------- the engine ----------

  datatype BatchResult = BatchResult(read: nat, imported: nat, skipped: nat, rejected: nat, done: bool, job: ImportJob)

  datatype Tally = Tally(written: nat, imported: nat, skipped: nat, rejected: nat)

  class Engine {
    const rules: Rules
    const jobs: InMemoryJobRepository
    const records: InMemoryRecordRepository

    constructor (rules: Rules, jobs: InMemoryJobRepository, records: InMemoryRecordRepository)
      ensures this.rules == rules && this.jobs == jobs && this.records == records
    {
      this.rules, this.jobs, this.records := rules, jobs, records;
    }

    ghost function Stored(): World
      reads jobs, records
    {
      World(jobs.jobs, records.records)
    }

    ghost predicate Consistent()
      reads jobs, records
    {
      && KeyedById(records.records)
      && (forall id :: id in jobs.jobs ==> jobs.jobs[id].id == id)
    }

    method RegisterJob(tenant: Uuid, description: string, total: int, user: Uuid, freshId: Uuid, now: Time)
      returns (r: Result<ImportJob, Error>)
      requires Consistent()
      modifies jobs
      ensures Consistent()
      ensures r.Ok? <==> tenant != NIL_UUID && TrimSpace(description) != "" && total >= 0
      ensures r.Ok? ==> r.value == NewImportJob(freshId, tenant, description, user, total, now)
      ensures jobs.jobs == if r.Ok? then old(jobs.jobs)[freshId := r.value] else old(jobs.jobs)
    {
      var job := NewImportJob(freshId, tenant, description, user, total, now);
      if tenant == NIL_UUID { return Err(EmptyTenantId); }
      if TrimSpace(description) == "" || total < 0 { return Err(InvalidJob); }
      jobs.jobs := jobs.jobs[freshId := job];
      r := Ok(job);
    }

    method ApplyTransition(tenant: Uuid, jobId: Uuid, next: Status, reason: string, now: Time)
      returns (r: Result<ImportJob, Error>)
      requires Consistent()
      modifies jobs
      ensures Consistent()
      ensures Stored() == AfterTransition(old(Stored()), tenant, jobId, next, reason, now)
      ensures match TransitionRefusal(old(Stored()), tenant, jobId, next)
        case Some(e) => r == Err(e)
        case None => r == Ok(jobs.jobs[jobId])
    {
      var found := jobs.Get(tenant, jobId);
      if found.None? { return Err(JobNotFound); }
      var job := found.value;
      if !CanTransitionTo(job.status, next) { return Err(InvalidTransition); }
      job := Moved(job, next, now);
      if next == Failed { job := job.(failureReason := reason); }
      var ok := jobs.Update(tenant, job);
      r := Ok(job);
    }

    // One record: validate, look for a duplicate, decide.
    method Decide(tenant: Uuid, jobId: Uuid, sr: SourceRecord, index: int, id: Uuid, now: Time)
      returns (row: ImportRecord)
      requires Consistent() && id !in records.records
      ensures RowFor(rules, records.records, tenant, jobId, sr, index, now, row) && row.id == id
      ensures row.outcome in {Imported, SkippedDuplicate, Rejected}
    {
      row := ImportRecord(id, tenant, jobId, index, sr, "", ValidationPending, [], OutcomePending, "", NIL_UUID, now,
                          now);
      var errors := rules.validate(sr);
      if |errors| > 0 {
        row := row.(validation := ValidationFailed, errors := errors, outcome := Rejected,
                    reason := "failed validation");
      } else {
        row := row.(validation := ValidationPassed, dedupKey := rules.Key(sr));
        var dup: Option<ImportRecord> := None;
        if row.dedupKey != "" { dup := records.FindByDedupKey(tenant, jobId, row.dedupKey); }
        if dup.Some? {
          row := row.(outcome := SkippedDuplicate, reason := "duplicate of record " + dup.value.id);
        } else {
          row := row.(outcome := Imported);
        }
      }
    }

    method RunBatch(c: BatchCall, ids: seq<Uuid>) returns (r: Result<BatchResult, Error>, ghost rows: seq<ImportRecord>)
      requires Consistent()
      // uuid.New: enough identifiers that are in use nowhere
      requires c.source.Some? ==> |ids| >= |c.source.value|
      requires forall i :: 0 <= i < |ids| ==> ids[i] !in records.records
      requires forall i, k :: 0 <= i < k < |ids| ==> ids[i] != ids[k]
      modifies jobs, records
      ensures Consistent()
      ensures BatchWrites(rules, old(Stored()), c, rows)
      ensures Stored() == AfterBatch(old(Stored()), c, rows)
      ensures match BatchRefusal(old(Stored()), c)
        case Some(e) => r == Err(e)
        case None =>
          if BatchCommits(old(Stored()), c)
          then r == Ok(BatchResult(|rows|, Count(rows, Imported), Count(rows, SkippedDuplicate), Count(rows, Rejected),
                                   BatchRead(old(Stored()), c).1, jobs.jobs[c.job]))
          else r == Err(StorageFailure)
    {
      hide RowFor, RowsFor, AddRows, Count, KeyedById, ReadAt, StatusTransitions;
      ghost var w := Stored();
      rows := [];
      if c.source.None? { r := Err(NilSource); return; }
      if c.size <= 0 { r := Err(InvalidBatchSize); return; }
      var found := jobs.Get(c.tenant, c.job);
      if found.None? { r := Err(JobNotFound); return; }
      var job := found.value;
      if job.status != Pending && job.status != Running { r := Err(JobNotRunnable); return; }
      if job.status == Pending { job := Moved(job, Running, c.now); }
      if c.fault == ReadFails { r := Err(StorageFailure); return; }
      var (batch, done) := ReadAt(c.source.value, job.cursor, c.size);
      var tally: Tally;
      tally, rows := WriteRows(c, c.source.value, job.cursor, batch, ids);
      if |batch| > tally.written { r := Err(StorageFailure); return; }
      job := job.(processed := job.processed + tally.written, failed := job.failed + tally.rejected,
                  skipped := job.skipped + tally.skipped, imported := job.imported + tally.imported,
                  cursor := job.cursor + |batch|);
      if done { job := Moved(job, Completed, c.later); } else { job := job.(updatedAt := c.later); }
      if c.fault == JobUpdateFails { r := Err(StorageFailure); return; }
      assert job == JobAfterBatch(w.jobs[c.job], rows, done, c.now, c.later);
      var ok := jobs.Update(c.tenant, job);
      r := Ok(BatchResult(|batch|, tally.imported, tally.skipped, tally.rejected, done, job));
    }

    // The loop of RunBatch: one row per record, up to the write that fails.
    method WriteRows(c: BatchCall, source: seq<SourceRecord>, start: int, batch: seq<SourceRecord>, ids: seq<Uuid>)
      returns (t: Tally, ghost rows: seq<ImportRecord>)
      requires Consistent() && |ids| >= |batch|
      requires |batch| > 0 ==> 0 <= start && start + |batch| <= |source| && batch == source[start..start + |batch|]
      requires forall i :: 0 <= i < |ids| ==> ids[i] !in records.records
      requires forall i, k :: 0 <= i < k < |ids| ==> ids[i] != ids[k]
      modifies records
      ensures Consistent() && records.records == AddRows(old(records.records), rows)
      ensures RowsFor(rules, old(records.records), c.tenant, c.job, source, start, c.now, rows)
      ensures |rows| == if c.fault.RowWriteFails? && c.fault.at < |batch| then c.fault.at else |batch|
      ensures t == Tally(|rows|, Count(rows, Imported), Count(rows, SkippedDuplicate), Count(rows, Rejected))
    {
      hide RowFor, RowsFor, AddRows, Count;
      rows := [];
      t := Tally(0, 0, 0, 0);
      ghost var was := records.records;
      NoRowsYet(rules, was, c, source, start);
      while t.written < |batch|
        invariant 0 <= t.written <= |batch| && |rows| == t.written
        invariant c.fault.RowWriteFails? ==> t.written <= c.fault.at
        invariant records.records == AddRows(was, rows) && Consistent()
        invariant RowsFor(rules, was, c.tenant, c.job, source, start, c.now, rows)
        invariant forall k :: t.written <= k < |ids| ==> ids[k] !in records.records
        invariant t == Tally(|rows|, Count(rows, Imported), Count(rows, SkippedDuplicate), Count(rows, Rejected))
      {
        var i := t.written;
        var row := Decide(c.tenant, c.job, batch[i], start + i, ids[i], c.now);
        if c.fault == RowWriteFails(i) { return; }
        records.Create(row);
        AddRowsStep(was, rows, row);
        RowsForStep(rules, was, c.tenant, c.job, source, start, c.now, rows, row);
        rows := rows + [row];
        match row.outcome {
          case Rejected => t := t.(rejected := t.rejected + 1);
          case SkippedDuplicate => t := t.(skipped := t.skipped + 1);
          case _ => t := t.(imported := t.imported + 1);
        }
        t := t.(written := i + 1);
      }
    }

    method Rollback(c: RollbackCall) returns (r: Result<ImportJob, Error>, ghost ids: set<Uuid>)
      requires Consistent()
      modifies jobs, records
      ensures Consistent()
      ensures RollbackReverses(old(Stored()), c, ids)
      ensures Stored() == AfterRollback(old(Stored()), c, ids)
      ensures r.Ok? <==> RollbackCommits(old(Stored()), c)
      ensures r.Ok? ==> r.value == jobs.jobs[c.job]
      ensures RollbackRefusal(old(Stored()), c.tenant, c.job).Some? ==>
        r == Err(RollbackRefusal(old(Stored()), c.tenant, c.job).value)
    {
      hide KeyedById, Reversed, IdsWith, Lists, DistinctRows;
      ids := {};
      ghost var w := Stored();
      ReverseNone(w.records, c.note, c.now);
      var found := jobs.Get(c.tenant, c.job);
      if found.None? { r := Err(JobNotFound); return; }
      var job := found.value;
      if job.status != Completed && job.status != Failed { r := Err(JobNotRollbackable); return; }
      if c.fault == ReadFails { r := Err(StorageFailure); return; }
      var list := records.ListForJob(c.tenant, c.job);
      var reversed, failed;
      reversed, failed, ids := ReverseRows(c, list);
      if failed { r := Err(StorageFailure); return; }
      job := Moved(job, RolledBack, c.now);
      job := job.(imported := job.imported - reversed);
      if c.fault == JobUpdateFails { r := Err(StorageFailure); return; }
      var ok := jobs.Update(c.tenant, job);
      r := Ok(job);
    }

    // The loop of Rollback over the job's rows, up to the write that fails.
    method ReverseRows(c: RollbackCall, list: seq<ImportRecord>)
      returns (reversed: nat, failed: bool, ghost ids: set<Uuid>)
      requires KeyedById(records.records) && DistinctRows(list) && Lists(list, records.records, c.tenant, c.job)
      modifies records
      ensures KeyedById(records.records)
      ensures records.records == Reversed(old(records.records), ids, c.note, c.now) && reversed == |ids|
      ensures var all := IdsWith(old(records.records), c.tenant, c.job, Imported);
        && ids <= all
        && (failed <==> c.fault.RowWriteFails? && c.fault.at < |all|)
        && (if failed then |ids| == c.fault.at else ids == all)
    {
      hide Reversed, IdsWith, Lists, KeyedById;
      ids := {};
      reversed, failed := 0, false;
      ghost var was := records.records;
      ghost var all := IdsWith(was, c.tenant, c.job, Imported);
      ReverseNone(was, c.note, c.now);
      var i := 0;
      while i < |list|
        invariant 0 <= i <= |list| && reversed == |ids| && ids <= all
        invariant c.fault.RowWriteFails? ==> reversed <= c.fault.at
        invariant records.records == Reversed(was, ids, c.note, c.now)
        invariant forall k :: 0 <= k < i && list[k].outcome == Imported ==> list[k].id in ids
        invariant forall k :: i <= k < |list| ==> list[k].id !in ids
      {
        var rec := list[i];
        ListedRow(list, was, c, i);
        if rec.outcome == Imported {
          if c.fault == RowWriteFails(reversed) {
            ProperSubsetSmaller(ids, all, rec.id);
            failed := true;
            ReversedKeys(was, ids, c.note, c.now);
            return;
          }
          ReversedKeys(was, ids, c.note, c.now);
          var ok := records.Update(ReversedRow(rec, c.note, c.now));
          ReverseOneMore(was, ids, rec.id, c.note, c.now);
          ids := ids + {rec.id};
          reversed := reversed + 1;
        }
        i := i + 1;
      }
      AllListed(list, was, c, ids);
      ReversedKeys(was, ids, c.note, c.now);
    }
  }

  lemma ListedRow(list: seq<ImportRecord>, records: Records, c: RollbackCall, i: nat)
    requires Lists(list, records, c.tenant, c.job) && i < |list|
    ensures AreStored(list[i], records, c.tenant, c.job)
    ensures list[i].id in IdsWith(records, c.tenant, c.job, Imported) <==> list[i].outcome == Imported
  {
  }

  lemma AllListed(list: seq<ImportRecord>, records: Records, c: RollbackCall, ids: set<Uuid>)
    requires Lists(list, records, c.tenant, c.job) && KeyedById(records)
    requires forall k :: 0 <= k < |list| && list[k].outcome == Imported ==> list[k].id in ids
    requires ids <= IdsWith(records, c.tenant, c.job, Imported)
    ensures ids == IdsWith(records, c.tenant, c.job, Imported)
  {
    forall id | id in IdsWith(records, c.tenant, c.job, Imported) ensures id in ids {
      var k :| 0 <= k < |list| && list[k] == records[id];
    }
  }

  lemma ReversedKeys(records: Records, ids: set<Uuid>, note: string, now: Time)
    requires KeyedById(records)
    ensures var out := Reversed(records, ids, note, now);
      && KeyedById(out) && out.Keys == records.Keys
      && forall id :: id in records ==> out[id].tenant == records[id].tenant
  {
  }

  lemma ReverseNone(records: Records, note: string, now: Time)
    ensures Reversed(records, {}, note, now) == records
  {
  }

  lemma ReverseOneMore(records: Records, ids: set<Uuid>, id: Uuid, note: string, now: Time)
    requires id in records && id !in ids
    ensures Reversed(records, ids, note, now)[id := ReversedRow(records[id], note, now)]
      == Reversed(records, ids + {id}, note, now)
  {
  }

  lemma ProperSubsetSmaller(a: set<Uuid>, b: set<Uuid>, x: Uuid)
    requires a <= b && x in b && x !in a
    ensures |a| < |b|
  {
    SubsetSize(a + {x}, b);
  }

  lemma SubsetSize(a: set<Uuid>, b: set<Uuid>)
    requires a <= b
    ensures |a| <= |b|
  {
    assert b == a + (b - a);
  }
}
