// What every run of the bulk-import engine keeps, for one job fed from one
// source while other jobs run beside it, with storage failing at any call.
module ImportRuns {
  import opened Basics
  import opened Text
  import opened ImportTypes
  import opened ImportEngine

  // ---------- reference: what one pass over the source should produce ----------

  // No earlier valid record carries the key of record i.
  predicate FirstWithKey(rules: Rules, src: seq<SourceRecord>, i: nat)
    requires i < |src|
  {
    rules.Key(src[i]) == "" ||
    forall k :: 0 <= k < i && rules.Valid(src[k]) ==> rules.Key(src[k]) != rules.Key(src[i])
  }

  function ExpectedOutcome(rules: Rules, src: seq<SourceRecord>, i: nat): Outcome
    requires i < |src|
  {
    if !rules.Valid(src[i]) then Rejected
    else if FirstWithKey(rules, src, i) then Imported else SkippedDuplicate
  }

  // The row carries source record i: its fields, its validation and its key.
  predicate Carries(rules: Rules, src: seq<SourceRecord>, r: ImportRecord) {
    && 0 <= r.sourceIndex < |src| && r.fields == src[r.sourceIndex]
    && r.errors == rules.validate(r.fields)
    && r.validation == (if rules.Valid(r.fields) then ValidationPassed else ValidationFailed)
    && r.dedupKey == (if rules.Valid(r.fields) then rules.Key(r.fields) else "")
    && (r.outcome == Rejected <==> !rules.Valid(r.fields))
    && r.outcome in {Imported, SkippedDuplicate, Rejected, OutcomeRolledBack}
  }

  // ---------- the job's rows ----------

  function View(records: Records, t: Uuid, j: Uuid): Records {
    map id | id in records && Mine(records[id], t, j) :: records[id]
  }

  predicate HasRow(v: Records, i: int) {
    exists id :: id in v && v[id].sourceIndex == i
  }

  predicate IsImported(r: ImportRecord, key: string) {
    r.outcome == Imported && r.dedupKey == key
  }

  predicate HasKey(v: Records, key: string) {
    exists id :: id in v && IsImported(v[id], key)
  }

  predicate OneRowPerIndex(v: Records) {
    forall a, b :: a in v && b in v && v[a].sourceIndex == v[b].sourceIndex ==> a == b
  }

  // The rows are those of one record-by-record pass over the first n records.
  ghost predicate ExactPass(rules: Rules, src: seq<SourceRecord>, v: Records, n: int) {
    && 0 <= n <= |src|
    && (forall id :: id in v ==> Carries(rules, src, v[id]) && v[id].sourceIndex < n
                                 && v[id].outcome == ExpectedOutcome(rules, src, v[id].sourceIndex))
    && (forall i :: 0 <= i < n ==> HasRow(v, i))
    && OneRowPerIndex(v)
  }

  predicate IsReversed(r: ImportRecord, key: string) {
    r.outcome == OutcomeRolledBack && r.dedupKey == key
  }

  predicate WasReversed(v: Records, key: string) {
    exists id :: id in v && IsReversed(v[id], key)
  }

  // A valid record from lo on, and below hi, carries the key.
  predicate KeyFrom(rules: Rules, src: seq<SourceRecord>, lo: int, hi: int, key: string) {
    key != "" && exists i :: 0 <= lo <= i < hi <= |src| && KeyAt(rules, src[i], key)
  }

  predicate KeyAt(rules: Rules, r: SourceRecord, key: string) {
    rules.Valid(r) && rules.Key(r) == key
  }

  // What no failure can break: every record below n has a row, every valid key
  // below n was imported, and no key is imported twice.
  ghost predicate RowsSafe(rules: Rules, src: seq<SourceRecord>, v: Records, n: int) {
    && 0 <= n <= |src|
    && (forall id :: id in v ==> Carries(rules, src, v[id]))
    && (forall i :: 0 <= i < n ==> HasRow(v, i))
    && (forall key :: KeyFrom(rules, src, 0, n, key) ==> HasKey(v, key) || WasReversed(v, key))
    && ImportedOnce(v)
  }

  // Moreover, every valid key below n is still imported.
  ghost predicate CrashSafe(rules: Rules, src: seq<SourceRecord>, v: Records, n: int) {
    RowsSafe(rules, src, v, n) && forall key :: KeyFrom(rules, src, 0, n, key) ==> HasKey(v, key)
  }

  predicate ImportedOnce(v: Records) {
    forall a, b :: a in v && b in v && v[a].dedupKey != "" && v[a].outcome == Imported ==>
      !IsImported(v[b], v[a].dedupKey) || a == b
  }

  lemma LookupSeesView(records: Records, t: Uuid, j: Uuid, key: string)
    ensures HasImported(records, t, j, key) <==> HasKey(View(records, t, j), key)
  {
    var v := View(records, t, j);
    if HasImported(records, t, j, key) {
      var id :| id in records && IsImportedWithKey(records[id], t, j, key);
      assert id in v && IsImported(v[id], key);
    }
    if HasKey(v, key) {
      var id :| id in v && IsImported(v[id], key);
      assert IsImportedWithKey(records[id], t, j, key);
    }
  }

  // ---------- one row ----------

  lemma {:induction false} FirstOccurrence(rules: Rules, src: seq<SourceRecord>, i: nat) returns (k: nat)
    requires i < |src| && rules.Valid(src[i])
    ensures k <= i && rules.Valid(src[k]) && rules.Key(src[k]) == rules.Key(src[i]) && FirstWithKey(rules, src, k)
  {
    if FirstWithKey(rules, src, i) {
      k := i;
    } else {
      var m :| 0 <= m < i && rules.Valid(src[m]) && rules.Key(src[m]) == rules.Key(src[i]);
      k := FirstOccurrence(rules, src, m);
    }
  }

  // After a pass over n records the lookup for a key finds a row exactly when an
  // earlier valid record carries the key.
  lemma LookupMeansEarlier(rules: Rules, src: seq<SourceRecord>, v: Records, n: nat)
    requires n < |src| && rules.Valid(src[n]) && rules.Key(src[n]) != "" && ExactPass(rules, src, v, n)
    ensures FirstWithKey(rules, src, n) <==> !HasKey(v, rules.Key(src[n]))
  {
    hide Rules.Key;
    var key := rules.Key(src[n]);
    if HasKey(v, key) {
      var id :| id in v && IsImported(v[id], key);
      assert rules.Valid(src[v[id].sourceIndex]) && rules.Key(src[v[id].sourceIndex]) == key;
    }
    if !FirstWithKey(rules, src, n) {
      var m :| 0 <= m < n && rules.Valid(src[m]) && rules.Key(src[m]) == key;
      var k := FirstOccurrence(rules, src, m);
      assert HasRow(v, k);
      var id :| id in v && v[id].sourceIndex == k;
      assert IsImported(v[id], key);
    }
  }

  lemma RowCarries(rules: Rules, records: Records, t: Uuid, j: Uuid, src: seq<SourceRecord>, i: nat, now: Time,
                   row: ImportRecord)
    requires i < |src| && RowFor(rules, records, t, j, src[i], i, now, row)
    ensures Carries(rules, src, row) && row.sourceIndex == i
    ensures row.outcome == Imported <==>
      rules.Valid(src[i]) && (row.dedupKey == "" || !HasKey(View(records, t, j), row.dedupKey))
    ensures row.outcome != OutcomeRolledBack
  {
    hide Rules.Key;
    if rules.Valid(src[i]) { LookupSeesView(records, t, j, row.dedupKey); }
  }

  lemma ViewAdd(records: Records, t: Uuid, j: Uuid, row: ImportRecord)
    requires row.id !in records
    ensures row.id !in View(records, t, j)
    ensures View(records[row.id := row], t, j) ==
      if Mine(row, t, j) then View(records, t, j)[row.id := row] else View(records, t, j)
  {
  }

  lemma AddExact(rules: Rules, src: seq<SourceRecord>, v: Records, n: nat, row: ImportRecord)
    requires ExactPass(rules, src, v, n) && n < |src| && row.id !in v
    requires Carries(rules, src, row) && row.sourceIndex == n && row.outcome != OutcomeRolledBack
    requires row.outcome == Imported <==> rules.Valid(src[n]) && (row.dedupKey == "" || !HasKey(v, row.dedupKey))
    ensures ExactPass(rules, src, v[row.id := row], n + 1)
  {
    hide Rules.Key;
    var w := v[row.id := row];
    if rules.Valid(src[n]) && rules.Key(src[n]) != "" { LookupMeansEarlier(rules, src, v, n); }
    assert row.outcome == ExpectedOutcome(rules, src, n);
    KeepsRows(v, row, n);
    assert forall id :: id in w && id != row.id ==> v[id].sourceIndex < n;
  }

  lemma KeepsRows(v: Records, row: ImportRecord, n: nat)
    requires row.id !in v && forall i :: 0 <= i < n ==> HasRow(v, i)
    ensures var w := v[row.id := row];
      && (forall i :: 0 <= i < n ==> HasRow(w, i))
      && HasRow(w, row.sourceIndex)
  {
    var w := v[row.id := row];
    forall i | 0 <= i < n ensures HasRow(w, i) {
      assert HasRow(v, i);
      var id :| id in v && v[id].sourceIndex == i;
      assert id in w && w[id].sourceIndex == i;
    }
    assert row.id in w && w[row.id].sourceIndex == row.sourceIndex;
  }

  lemma KeepsKeys(v: Records, row: ImportRecord, key: string)
    requires row.id !in v
    ensures var w := v[row.id := row]; HasKey(w, key) <==> HasKey(v, key) || IsImported(row, key)
  {
    var w := v[row.id := row];
    if HasKey(v, key) {
      var id :| id in v && IsImported(v[id], key);
      assert id in w && IsImported(w[id], key);
    }
    if IsImported(row, key) { assert row.id in w && IsImported(w[row.id], key); }
  }

  lemma KeepsReversed(v: Records, row: ImportRecord, key: string)
    requires row.id !in v && WasReversed(v, key)
    ensures WasReversed(v[row.id := row], key)
  {
    var id :| id in v && IsReversed(v[id], key);
    assert id in v[row.id := row] && IsReversed(v[row.id := row][id], key);
  }

  // A row for any source index keeps the rows safe; a row for index n extends that.
  lemma AddRowsSafe(rules: Rules, src: seq<SourceRecord>, v: Records, n: nat, row: ImportRecord)
    requires RowsSafe(rules, src, v, n) && row.id !in v && Carries(rules, src, row)
    requires row.outcome == Imported <==> rules.Valid(row.fields) && (row.dedupKey == "" || !HasKey(v, row.dedupKey))
    ensures RowsSafe(rules, src, v[row.id := row], n)
    ensures row.sourceIndex == n ==> RowsSafe(rules, src, v[row.id := row], n + 1)
  {
    hide Rules.Key, HasRow, HasKey, WasReversed;
    var w := v[row.id := row];
    KeepsRows(v, row, n);
    forall key | KeyFrom(rules, src, 0, n, key) ensures HasKey(w, key) || WasReversed(w, key) {
      KeepsKeys(v, row, key);
      if WasReversed(v, key) { KeepsReversed(v, row, key); }
    }
    if row.sourceIndex == n {
      forall key | KeyFrom(rules, src, 0, n + 1, key) ensures HasKey(w, key) || WasReversed(w, key) {
        KeepsKeys(v, row, key);
        var i :| 0 <= i < n + 1 && KeyAt(rules, src[i], key);
        if i < n { assert KeyFrom(rules, src, 0, n, key); }
      }
    }
    assert forall id :: id in w ==> Carries(rules, src, w[id]);
    ImportedOnceKept(v, row);
  }

  lemma ImportedOnceKept(v: Records, row: ImportRecord)
    requires ImportedOnce(v) && row.id !in v
    requires row.outcome == Imported ==> row.dedupKey == "" || !HasKey(v, row.dedupKey)
    ensures ImportedOnce(v[row.id := row])
  {
    var w := v[row.id := row];
    forall a, b | a in w && b in w && w[a].dedupKey != "" && w[a].outcome == Imported && IsImported(w[b], w[a].dedupKey)
      ensures a == b
    {
      assert a != row.id ==> w[a] == v[a];
      assert b != row.id ==> w[b] == v[b];
    }
  }

  // ---------- the rows one batch writes ----------

  function RowsOf(v: Records, o: Outcome): set<Uuid> {
    set id | id in v && v[id].outcome == o
  }

  lemma AddedCounts(v: Records, row: ImportRecord)
    requires row.id !in v
    ensures |v[row.id := row]| == |v| + 1
    ensures forall o :: |RowsOf(v[row.id := row], o)| == |RowsOf(v, o)| + if row.outcome == o then 1 else 0
  {
    assert v[row.id := row].Keys == v.Keys + {row.id};
    forall o ensures |RowsOf(v[row.id := row], o)| == |RowsOf(v, o)| + if row.outcome == o then 1 else 0 {
      AddedCount(v, row, o);
    }
  }

  lemma AddedCount(v: Records, row: ImportRecord, o: Outcome)
    requires row.id !in v
    ensures |RowsOf(v[row.id := row], o)| == |RowsOf(v, o)| + if row.outcome == o then 1 else 0
  {
    assert RowsOf(v[row.id := row], o) == if row.outcome == o then RowsOf(v, o) + {row.id} else RowsOf(v, o);
  }

  lemma {:induction false} LastRow(rules: Rules, src: seq<SourceRecord>, records: Records, t: Uuid, j: Uuid, n: int,
                                   now: Time, rows: seq<ImportRecord>)
    requires RowsFor(rules, records, t, j, src, n, now, rows) && rows != []
    ensures var k := |rows| - 1; var before := AddRows(records, rows[..k]);
      && RowsFor(rules, records, t, j, src, n, now, rows[..k])
      && 0 <= n && n + k < |src| && RowFor(rules, before, t, j, src[n + k], n + k, now, rows[k])
      && AddRows(records, rows) == before[rows[k].id := rows[k]]
      && forall o :: Count(rows, o) == Count(rows[..k], o) + if rows[k].outcome == o then 1 else 0
  {
    hide RowFor;
    var k := |rows| - 1;
    assert forall i :: 0 <= i < k ==> rows[..k][..i] == rows[..i];
    assert RowFor(rules, AddRows(records, rows[..k]), t, j, src[n + k], n + k, now, rows[k]);
  }

  // The batch's rows, one by one: the rows stay safe and are so further up, an
  // exact pass stays exact, and every count grows by what was written.
  lemma {:induction false} BatchRows(rules: Rules, src: seq<SourceRecord>, records: Records, t: Uuid, j: Uuid, n: nat,
                                     now: Time, rows: seq<ImportRecord>)
    requires RowsFor(rules, records, t, j, src, n, now, rows) && n + |rows| <= |src|
    requires RowsSafe(rules, src, View(records, t, j), n)
    ensures var v, w := View(records, t, j), View(AddRows(records, rows), t, j);
      && RowsSafe(rules, src, w, n) && RowsSafe(rules, src, w, n + |rows|)
      && (ExactPass(rules, src, v, n) ==> ExactPass(rules, src, w, n + |rows|))
      && |w| == |v| + |rows| && forall o :: |RowsOf(w, o)| == |RowsOf(v, o)| + Count(rows, o)
    ensures Count(rows, OutcomeRolledBack) == 0
  {
    hide RowFor, RowsSafe, ExactPass, View, RowsFor, RowsOf;
    if rows != [] {
      hide AddRows, Count;
      var k := |rows| - 1;
      var init, row := rows[..k], rows[k];
      LastRow(rules, src, records, t, j, n, now, rows);
      BatchRows(rules, src, records, t, j, n, now, init);
      BatchRow(rules, src, AddRows(records, init), t, j, n, n + k, now, row);
    }
  }

  lemma BatchRow(rules: Rules, src: seq<SourceRecord>, records: Records, t: Uuid, j: Uuid, n: nat, i: nat, now: Time,
                 row: ImportRecord)
    requires i < |src| && RowFor(rules, records, t, j, src[i], i, now, row)
    requires RowsSafe(rules, src, View(records, t, j), n) && RowsSafe(rules, src, View(records, t, j), i)
    ensures var v, w := View(records, t, j), View(records[row.id := row], t, j);
      && RowsSafe(rules, src, w, n) && RowsSafe(rules, src, w, i + 1)
      && (ExactPass(rules, src, v, i) ==> ExactPass(rules, src, w, i + 1))
      && |w| == |v| + 1 && forall o :: |RowsOf(w, o)| == |RowsOf(v, o)| + if row.outcome == o then 1 else 0
    ensures row.outcome != OutcomeRolledBack
  {
    hide Rules.Key, RowsSafe, ExactPass, View, Carries;
    var v := View(records, t, j);
    RowIsMine(rules, records, t, j, src, i, now, row);
    ViewAdd(records, t, j, row);
    RowCarries(rules, records, t, j, src, i, now, row);
    AddRowsSafe(rules, src, v, n, row);
    AddRowsSafe(rules, src, v, i, row);
    AddedCounts(v, row);
    if ExactPass(rules, src, v, i) { AddExact(rules, src, v, i, row); }
  }

  // A key is imported after the batch exactly if it was before, or one of the
  // records the batch wrote rows for carries it.
  lemma {:induction false} BatchKeys(rules: Rules, src: seq<SourceRecord>, records: Records, t: Uuid, j: Uuid, n: nat,
                                     now: Time, rows: seq<ImportRecord>, key: string)
    requires RowsFor(rules, records, t, j, src, n, now, rows) && n + |rows| <= |src| && key != ""
    ensures HasKey(View(AddRows(records, rows), t, j), key) <==>
            HasKey(View(records, t, j), key) || KeyFrom(rules, src, n, n + |rows|, key)
  {
    hide RowFor, View, RowsFor, HasKey;
    if rows != [] {
      hide AddRows, Count;
      var k := |rows| - 1;
      var init, row := rows[..k], rows[k];
      LastRow(rules, src, records, t, j, n, now, rows);
      BatchKeys(rules, src, records, t, j, n, now, init, key);
      OneKey(rules, src, AddRows(records, init), t, j, n + k, now, row, key);
      KeyFromStep(rules, src, n, n + k, key);
    }
  }

  lemma KeyFromStep(rules: Rules, src: seq<SourceRecord>, lo: nat, hi: nat, key: string)
    requires lo <= hi < |src| && key != ""
    ensures KeyFrom(rules, src, lo, hi + 1, key) <==> KeyFrom(rules, src, lo, hi, key) || KeyAt(rules, src[hi], key)
  {
    hide KeyAt;
    if KeyAt(rules, src[hi], key) { assert 0 <= lo <= hi < hi + 1; }
  }

  lemma OneKey(rules: Rules, src: seq<SourceRecord>, records: Records, t: Uuid, j: Uuid, i: nat, now: Time,
               row: ImportRecord, key: string)
    requires i < |src| && RowFor(rules, records, t, j, src[i], i, now, row) && key != ""
    ensures HasKey(View(records[row.id := row], t, j), key) <==>
            HasKey(View(records, t, j), key) || KeyAt(rules, src[i], key)
  {
    hide Rules.Key, View, HasKey;
    RowIsMine(rules, records, t, j, src, i, now, row);
    ViewAdd(records, t, j, row);
    RowCarries(rules, records, t, j, src, i, now, row);
    KeepsKeys(View(records, t, j), row, key);
  }

  lemma RowIsMine(rules: Rules, records: Records, t: Uuid, j: Uuid, src: seq<SourceRecord>, i: nat, now: Time,
                  row: ImportRecord)
    requires i < |src| && RowFor(rules, records, t, j, src[i], i, now, row)
    ensures Mine(row, t, j) && row.id !in records && row.fields == src[i]
  {
  }

  // ---------- runs ----------

  datatype Op =
    | Register(job: ImportJob)
    | Batch(c: BatchCall, rows: seq<ImportRecord>)
    | Move(tenant: Uuid, target: Uuid, next: Status, reason: string, now: Time)   // Pause, ResumeJob, FailJob
    | Reverse(r: RollbackCall, ids: set<Uuid>)

  ghost predicate Enabled(rules: Rules, w: World, op: Op) {
    match op
    case Register(job) => job.id !in w.jobs && (forall id :: id in w.records ==> w.records[id].job != job.id)
    case Batch(c, rows) => BatchWrites(rules, w, c, rows)
    case Move(_, _, next, _, _) => next in {Paused, Running, Failed}
    case Reverse(r, ids) => RollbackReverses(w, r, ids)
  }

  function After(w: World, op: Op): World {
    match op
    case Register(job) => w.(jobs := w.jobs[job.id := job])
    case Batch(c, rows) => AfterBatch(w, c, rows)
    case Move(t, target, next, reason, now) => AfterTransition(w, t, target, next, reason, now)
    case Reverse(r, ids) => AfterRollback(w, r, ids)
  }

  function AfterAll(w: World, ops: seq<Op>): World {
    if ops == [] then w else After(AfterAll(w, ops[..|ops| - 1]), ops[|ops| - 1])
  }

  ghost predicate ValidRun(rules: Rules, w: World, ops: seq<Op>) {
    forall i :: 0 <= i < |ops| ==> Enabled(rules, AfterAll(w, ops[..i]), ops[i])
  }

  // Every batch of job j reads the one source.
  predicate Feeds(ops: seq<Op>, t: Uuid, j: Uuid, src: seq<SourceRecord>) {
    forall i :: 0 <= i < |ops| ==> OpFeeds(ops[i], t, j, src)
  }

  predicate OpFeeds(op: Op, t: Uuid, j: Uuid, src: seq<SourceRecord>) {
    op.Batch? && op.c.tenant == t && op.c.job == j && op.c.source.Some? ==> op.c.source.value == src
  }

  predicate OpIsReverseOf(op: Op, t: Uuid, j: Uuid) {
    op.Reverse? && op.r.tenant == t && op.r.job == j
  }

  predicate OpIsBatchOf(op: Op, t: Uuid, j: Uuid) {
    op.Batch? && op.c.tenant == t && op.c.job == j
  }

  // Rows of job j that failed calls left behind.
  function OpLeft(w: World, op: Op, t: Uuid, j: Uuid): seq<ImportRecord> {
    if OpIsBatchOf(op, t, j) && !BatchCommits(w, op.c) then op.rows else []
  }

  function LeftBehind(w: World, ops: seq<Op>, t: Uuid, j: Uuid): seq<ImportRecord> {
    if ops == [] then []
    else
      var n := |ops| - 1;
      LeftBehind(w, ops[..n], t, j) + OpLeft(AfterAll(w, ops[..n]), ops[n], t, j)
  }

  // How many rows of job j rollbacks have reversed; all but the last of them failed.
  function OpReversed(op: Op, t: Uuid, j: Uuid): nat {
    if OpIsReverseOf(op, t, j) then |op.ids| else 0
  }

  function ReversedBy(ops: seq<Op>, t: Uuid, j: Uuid): nat {
    if ops == [] then 0 else ReversedBy(ops[..|ops| - 1], t, j) + OpReversed(ops[|ops| - 1], t, j)
  }

  predicate JustRegistered(w: World, t: Uuid, j: Uuid) {
    && JobVisible(w, t, j) && View(w.records, t, j) == map[]
    && var job := w.jobs[j];
       job.id == j && job.status == Pending && job.cursor == 0 && job.processed == 0
       && job.failed == 0 && job.skipped == 0 && job.imported == 0
  }

  predicate Counts(job: ImportJob, v: Records, left: seq<ImportRecord>, reversed: nat) {
    && |v| == job.processed + |left|
    && |RowsOf(v, OutcomeRolledBack)| == reversed
    && |RowsOf(v, Imported)| + reversed == job.imported + Count(left, Imported)
    && |RowsOf(v, SkippedDuplicate)| == job.skipped + Count(left, SkippedDuplicate)
    && |RowsOf(v, Rejected)| == job.failed + Count(left, Rejected)
  }

  ghost predicate LiveInv(rules: Rules, src: seq<SourceRecord>, job: ImportJob, v: Records, left: seq<ImportRecord>,
                          reversed: nat)
  {
    && (job.status == Completed ==> job.cursor == |src|)
    && Counts(job, v, left, reversed)
    && (left == [] && reversed == 0 ==> ExactPass(rules, src, v, job.cursor))
  }

  ghost predicate RunInv(rules: Rules, src: seq<SourceRecord>, w: World, t: Uuid, j: Uuid, left: seq<ImportRecord>,
                         reversed: nat)
  {
    && JobVisible(w, t, j) && w.jobs[j].id == j && w.jobs[j].cursor == w.jobs[j].processed
    && RowsSafe(rules, src, View(w.records, t, j), w.jobs[j].cursor)
    && (w.jobs[j].status != RolledBack ==> LiveInv(rules, src, w.jobs[j], View(w.records, t, j), left, reversed))
  }

  lemma {:induction false} CountConcat(a: seq<ImportRecord>, b: seq<ImportRecord>, o: Outcome)
    ensures Count(a + b, o) == Count(a, o) + Count(b, o)
  {
    if b == [] { assert a + b == a; }
    else {
      var n := |b| - 1;
      assert (a + b)[..|a| + n] == a + b[..n];
      CountConcat(a, b[..n], o);
    }
  }

  lemma BatchMineKeeps(rules: Rules, src: seq<SourceRecord>, w: World, t: Uuid, j: Uuid, left: seq<ImportRecord>,
                       reversed: nat, op: Op)
    requires RunInv(rules, src, w, t, j, left, reversed) && Enabled(rules, w, op)
    requires OpIsBatchOf(op, t, j) && OpFeeds(op, t, j, src)
    ensures RunInv(rules, src, After(w, op), t, j, left + OpLeft(w, op, t, j), reversed)
  {
    hide RowsFor, RowsSafe, ExactPass, View, RowsOf, Count, ReadAt, AddRows;
    var c, rows := op.c, op.rows;
    if BatchRefusal(w, c) != None {
      assert left + [] == left;
    } else {
      var n := w.jobs[j].cursor;
      CursorInRange(rules, src, w, t, j);
      BatchRows(rules, src, w.records, t, j, n, c.now, rows);
      forall o ensures Count(left + rows, o) == Count(left, o) + Count(rows, o) { CountConcat(left, rows, o); }
      var (batch, done) := BatchRead(w, c);
      if BatchCommits(w, c) {
        assert left + [] == left;
        assert |rows| == |batch|;
      } else {
        FailedBatchLeaves(left, rows);
      }
    }
  }

  lemma CursorInRange(rules: Rules, src: seq<SourceRecord>, w: World, t: Uuid, j: Uuid)
    requires JobVisible(w, t, j) && RowsSafe(rules, src, View(w.records, t, j), w.jobs[j].cursor)
    ensures 0 <= w.jobs[j].cursor <= |src|
  {
  }

  lemma FailedBatchLeaves(left: seq<ImportRecord>, rows: seq<ImportRecord>)
    ensures left + rows == [] ==> left == [] && rows == []
  {
    if left + rows == [] { assert |left + rows| == |left| + |rows|; }
  }

  // A job's own rows and state are out of reach of calls for other jobs.
  lemma OthersKeep(rules: Rules, w: World, t: Uuid, j: Uuid, op: Op)
    requires Enabled(rules, w, op) && JobVisible(w, t, j)
    requires !OpIsBatchOf(op, t, j) && !(op.Move? && op.tenant == t && op.target == j)
    requires !OpIsReverseOf(op, t, j)
    ensures View(After(w, op).records, t, j) == View(w.records, t, j)
    ensures j in After(w, op).jobs && After(w, op).jobs[j] == w.jobs[j]
  {
    hide ReadAt;
    match op {
      case Register(job) =>
      case Batch(c, rows) =>
        if BatchRefusal(w, c) == None {
          OtherRowsKeepView(rules, c.source.value, w.records, c.tenant, c.job, w.jobs[c.job].cursor, c.now, rows, t, j);
        }
      case Move(tenant, target, next, reason, now) =>
      case Reverse(r, ids) =>
        ReversedOthersKeepView(w, r, ids, t, j);
    }
  }

  lemma {:induction false} OtherRowsKeepView(rules: Rules, src: seq<SourceRecord>, records: Records, t': Uuid,
                                             j': Uuid, n: int, now: Time, rows: seq<ImportRecord>, t: Uuid, j: Uuid)
    requires RowsFor(rules, records, t', j', src, n, now, rows) && !(t' == t && j' == j)
    ensures View(AddRows(records, rows), t, j) == View(records, t, j)
  {
    hide View, RowFor, RowsFor;
    if rows != [] {
      hide AddRows, Count;
      var k := |rows| - 1;
      var init, row := rows[..k], rows[k];
      LastRow(rules, src, records, t', j', n, now, rows);
      OtherRowsKeepView(rules, src, records, t', j', n, now, init, t, j);
      RowIsMine(rules, AddRows(records, init), t', j', src, n + k, now, row);
      ViewAdd(AddRows(records, init), t, j, row);
    }
  }

  lemma ReversedOthersKeepView(w: World, r: RollbackCall, ids: set<Uuid>, t: Uuid, j: Uuid)
    requires RollbackReverses(w, r, ids) && !(r.tenant == t && r.job == j)
    ensures View(Reversed(w.records, ids, r.note, r.now), t, j) == View(w.records, t, j)
  {
    assert forall id :: id in ids ==> id in w.records && Mine(w.records[id], r.tenant, r.job);
  }

  // ---------- a rollback of the job, failed or not ----------

  lemma ReversedKeeps(rules: Rules, src: seq<SourceRecord>, records: Records, t: Uuid, j: Uuid, n: int, ids: set<Uuid>,
                      note: string, now: Time)
    requires RowsSafe(rules, src, View(records, t, j), n) && ids <= RowsOf(View(records, t, j), Imported)
    ensures RowsSafe(rules, src, View(Reversed(records, ids, note, now), t, j), n)
  {
    hide View, Reversed, ReversedRow, HasRow, ImportedOnce, HasKey, WasReversed, KeyFrom, Carries;
    var v, x := View(records, t, j), View(Reversed(records, ids, note, now), t, j);
    ReversedRows(records, t, j, ids, note, now);
    ReversedCarries(rules, src, v, x, ids, note, now);
    ReversedHasRow(v, x);
    forall key | KeyFrom(rules, src, 0, n, key) ensures HasKey(x, key) || WasReversed(x, key) {
      ReversedHasKey(v, x, ids, key);
    }
    ReversedOnce(v, x);
  }

  lemma ReversedCarries(rules: Rules, src: seq<SourceRecord>, v: Records, x: Records, ids: set<Uuid>, note: string,
                        now: Time)
    requires v.Keys == x.Keys && ids <= RowsOf(v, Imported)
    requires forall id :: id in v ==> x[id] == if id in ids then ReversedRow(v[id], note, now) else v[id]
    requires forall id :: id in v ==> Carries(rules, src, v[id])
    ensures forall id :: id in x ==> Carries(rules, src, x[id]) && x[id].sourceIndex == v[id].sourceIndex
    ensures forall id :: id in x ==> x[id].dedupKey == v[id].dedupKey && (x[id].outcome == Imported ==> x[id] == v[id])
    ensures forall id :: id in ids ==> x[id].outcome == OutcomeRolledBack
  {
    hide Rules.Key, Rules.Valid;
    forall id | id in x ensures Carries(rules, src, x[id]) {
      assert Carries(rules, src, v[id]);
    }
  }

  lemma ReversedHasRow(v: Records, x: Records)
    requires v.Keys == x.Keys && forall id :: id in v ==> x[id].sourceIndex == v[id].sourceIndex
    ensures forall i :: HasRow(v, i) ==> HasRow(x, i)
  {
    forall i | HasRow(v, i) ensures HasRow(x, i) {
      var id :| id in v && v[id].sourceIndex == i;
      assert id in x && x[id].sourceIndex == i;
    }
  }

  lemma ReversedOnce(v: Records, x: Records)
    requires v.Keys == x.Keys && ImportedOnce(v)
    requires forall id :: id in x ==> x[id].outcome == Imported ==> x[id] == v[id]
    ensures ImportedOnce(x)
  {
  }

  // Imported keys stay imported, except those of the reversed rows.
  lemma ReversedHasKey(v: Records, x: Records, ids: set<Uuid>, key: string)
    requires v.Keys == x.Keys && ids <= v.Keys
    requires forall id :: id in v ==> x[id].dedupKey == v[id].dedupKey
    requires forall id :: id in v && id !in ids ==> x[id] == v[id]
    requires forall id :: id in ids ==> x[id].outcome == OutcomeRolledBack
    ensures HasKey(v, key) ==> HasKey(x, key) || WasReversed(x, key)
    ensures WasReversed(v, key) ==> WasReversed(x, key)
    ensures HasKey(x, key) <==> exists id :: id in v && id !in ids && IsImported(v[id], key)
  {
    if HasKey(v, key) {
      var id :| id in v && IsImported(v[id], key);
      assert if id in ids then IsReversed(x[id], key) else IsImported(x[id], key);
    }
    if WasReversed(v, key) {
      var id :| id in v && IsReversed(v[id], key);
      assert IsReversed(x[id], key);
    }
    if id :| id in v && id !in ids && IsImported(v[id], key) { assert IsImported(x[id], key); }
  }

  lemma ReversesOwn(w: World, c: RollbackCall, ids: set<Uuid>)
    requires RollbackReverses(w, c, ids)
    ensures ids <= RowsOf(View(w.records, c.tenant, c.job), Imported)
    ensures RollbackCommits(w, c) ==> ids == RowsOf(View(w.records, c.tenant, c.job), Imported)
    ensures !RollbackCommits(w, c) ==> AfterRollback(w, c, ids).jobs == w.jobs
    ensures AfterRollback(w, c, ids).records == Reversed(w.records, ids, c.note, c.now)
  {
    ImportedIds(w.records, c.tenant, c.job);
  }

  lemma ReversedLive(rules: Rules, src: seq<SourceRecord>, job: ImportJob, records: Records, t: Uuid, j: Uuid,
                     left: seq<ImportRecord>, reversed: nat, ids: set<Uuid>, note: string, now: Time)
    requires LiveInv(rules, src, job, View(records, t, j), left, reversed)
    requires ids <= RowsOf(View(records, t, j), Imported)
    ensures LiveInv(rules, src, job, View(Reversed(records, ids, note, now), t, j), left, reversed + |ids|)
  {
    hide ExactPass, View, Count, Reversed;
    ReversedView(records, t, j, ids, note, now);
    var v := View(records, t, j);
    SplitCards(RowsOf(v, Imported), RowsOf(v, OutcomeRolledBack), ids);
    if ids == {} { ReverseNone(records, note, now); }
  }

  lemma ReverseMineKeeps(rules: Rules, src: seq<SourceRecord>, w: World, t: Uuid, j: Uuid, left: seq<ImportRecord>,
                         reversed: nat, c: RollbackCall, ids: set<Uuid>)
    requires RunInv(rules, src, w, t, j, left, reversed) && RollbackReverses(w, c, ids)
    requires c.tenant == t && c.job == j
    ensures RunInv(rules, src, AfterRollback(w, c, ids), t, j, left, reversed + |ids|)
  {
    hide RowsSafe, LiveInv, View, RowsOf, Reversed, RollbackReverses;
    ReversesOwn(w, c, ids);
    ReversedKeeps(rules, src, w.records, t, j, w.jobs[j].cursor, ids, c.note, c.now);
    if w.jobs[j].status != RolledBack {
      ReversedLive(rules, src, w.jobs[j], w.records, t, j, left, reversed, ids, c.note, c.now);
    }
  }

  lemma SplitCards(a: set<Uuid>, b: set<Uuid>, ids: set<Uuid>)
    requires ids <= a && a !! b
    ensures |a - ids| == |a| - |ids| && |ids + b| == |ids| + |b|
    ensures |ids| == 0 ==> ids == {}
  {
    assert a == (a - ids) + ids;
  }

  lemma {:induction false} StepKeeps(rules: Rules, src: seq<SourceRecord>, w: World, t: Uuid, j: Uuid,
                                     left: seq<ImportRecord>, reversed: nat, op: Op)
    requires RunInv(rules, src, w, t, j, left, reversed) && Enabled(rules, w, op) && OpFeeds(op, t, j, src)
    ensures RunInv(rules, src, After(w, op), t, j, left + OpLeft(w, op, t, j), reversed + OpReversed(op, t, j))
  {
    hide BatchWrites, RollbackReverses, RowsSafe, ExactPass, View, Count, RowsOf;
    if OpIsBatchOf(op, t, j) {
      BatchMineKeeps(rules, src, w, t, j, left, reversed, op);
    } else {
      assert left + OpLeft(w, op, t, j) == left;
      if op.Move? && op.tenant == t && op.target == j {
      } else if OpIsReverseOf(op, t, j) {
        ReverseMineKeeps(rules, src, w, t, j, left, reversed, op.r, op.ids);
      } else {
        OthersKeep(rules, w, t, j, op);
      }
    }
  }

  lemma ShorterRun(rules: Rules, w: World, ops: seq<Op>)
    requires ValidRun(rules, w, ops) && ops != []
    ensures var n := |ops| - 1;
      ValidRun(rules, w, ops[..n]) && Enabled(rules, AfterAll(w, ops[..n]), ops[n])
  {
    hide Enabled, AfterAll;
    var n := |ops| - 1;
    var init := ops[..n];
    forall i | 0 <= i < n ensures Enabled(rules, AfterAll(w, init[..i]), init[i]) {
      assert init[..i] == ops[..i];
      assert Enabled(rules, AfterAll(w, ops[..i]), ops[i]);
    }
  }

  lemma {:induction false} RunKeeps(rules: Rules, src: seq<SourceRecord>, w: World, t: Uuid, j: Uuid, ops: seq<Op>)
    requires JustRegistered(w, t, j) && ValidRun(rules, w, ops) && Feeds(ops, t, j, src)
    ensures RunInv(rules, src, AfterAll(w, ops), t, j, LeftBehind(w, ops, t, j), ReversedBy(ops, t, j))
  {
    hide Enabled, After, OpLeft, OpReversed, OpFeeds, View, RunInv, ValidRun;
    if ops == [] {
      NothingYet(rules, src, w, t, j);
    } else {
      var n := |ops| - 1;
      var init := ops[..n];
      ShorterRun(rules, w, ops);
      RunKeeps(rules, src, w, t, j, init);
      StepKeeps(rules, src, AfterAll(w, init), t, j, LeftBehind(w, init, t, j), ReversedBy(init, t, j), ops[n]);
    }
  }

  lemma NothingYet(rules: Rules, src: seq<SourceRecord>, w: World, t: Uuid, j: Uuid)
    requires JustRegistered(w, t, j)
    ensures RunInv(rules, src, w, t, j, [], 0)
  {
  }

  // ---------- main results ----------

  lemma NothingReversed(rules: Rules, src: seq<SourceRecord>, v: Records, n: int)
    requires RowsSafe(rules, src, v, n) && RowsOf(v, OutcomeRolledBack) == {}
    ensures CrashSafe(rules, src, v, n)
  {
    hide KeyFrom;
    assert forall id :: id in v ==> id !in RowsOf(v, OutcomeRolledBack);
    assert forall key :: !WasReversed(v, key);
  }

  // Crash safety: whatever failed and was retried, rollbacks included, no record
  // below Cursor is without a row and no key is imported twice; while no row has
  // been reversed, no valid key below Cursor is missing either.
  lemma {:induction false} CrashSafety(rules: Rules, src: seq<SourceRecord>, w: World, t: Uuid, j: Uuid, ops: seq<Op>)
    requires JustRegistered(w, t, j) && ValidRun(rules, w, ops) && Feeds(ops, t, j, src)
    ensures var w' := AfterAll(w, ops);
      && JobVisible(w', t, j)
      && RowsSafe(rules, src, View(w'.records, t, j), w'.jobs[j].cursor)
      && (w'.jobs[j].status == Completed ==> w'.jobs[j].cursor == |src|)
      && (w'.jobs[j].status != RolledBack && ReversedBy(ops, t, j) == 0 ==>
            CrashSafe(rules, src, View(w'.records, t, j), w'.jobs[j].cursor))
  {
    hide RowsSafe, CrashSafe, View, ReversedBy, ExactPass;
    RunKeeps(rules, src, w, t, j, ops);
    var w' := AfterAll(w, ops);
    if w'.jobs[j].status != RolledBack && ReversedBy(ops, t, j) == 0 {
      NothingReversed(rules, src, View(w'.records, t, j), w'.jobs[j].cursor);
    }
  }

  // A rollback that reverses some rows and then fails breaks crash safety there
  // and then, exactly if one of those rows has the key of a valid record below
  // Cursor.
  lemma {:induction false} FailedRollbackBreaksIff(rules: Rules, src: seq<SourceRecord>, w: World, t: Uuid, j: Uuid,
                                                   ops: seq<Op>, c: RollbackCall, ids: set<Uuid>)
    requires JustRegistered(w, t, j) && ValidRun(rules, w, ops) && Feeds(ops, t, j, src)
    requires ReversedBy(ops, t, j) == 0 && c.tenant == t && c.job == j
    requires RollbackReverses(AfterAll(w, ops), c, ids) && !RollbackCommits(AfterAll(w, ops), c)
    requires j in AfterAll(w, ops).jobs && AfterAll(w, ops).jobs[j].status != RolledBack
    ensures var w' := AfterAll(w, ops); var n := w'.jobs[j].cursor;
      CrashSafe(rules, src, View(AfterRollback(w', c, ids).records, t, j), n) <==>
      forall id :: id in ids && id in w'.records ==> !KeyFrom(rules, src, 0, n, w'.records[id].dedupKey)
  {
    hide RowsSafe, RollbackReverses, KeyFrom, ValidRun, Feeds, ExactPass, HasKey, ReversedBy, AfterAll;
    CrashSafety(rules, src, w, t, j, ops);
    var w' := AfterAll(w, ops);
    var n, v := w'.jobs[j].cursor, View(w'.records, t, j);
    var x := View(AfterRollback(w', c, ids).records, t, j);
    ReversesOwn(w', c, ids);
    ReversedKeeps(rules, src, w'.records, t, j, n, ids, c.note, c.now);
    ReversedRows(w'.records, t, j, ids, c.note, c.now);
    RowsSafeOnce(rules, src, v, n);
    forall id | id in ids ensures !HasKey(x, v[id].dedupKey) || v[id].dedupKey == "" {
      ReversedHasKey(v, x, ids, v[id].dedupKey);
    }
    forall key | KeyFrom(rules, src, 0, n, key) && !HasKey(x, key)
      ensures exists id :: id in ids && id in w'.records && v[id].dedupKey == key
    {
      ReversedHasKey(v, x, ids, key);
      KeyOfSome(v, key);
    }
    KeyFromNonEmpty(rules, src, n);
  }

  lemma KeyFromNonEmpty(rules: Rules, src: seq<SourceRecord>, n: int)
    ensures forall key :: KeyFrom(rules, src, 0, n, key) ==> key != ""
  {
  }

  lemma KeyOfSome(v: Records, key: string)
    requires HasKey(v, key)
    ensures exists id :: id in v && IsImported(v[id], key)
  {
  }

  lemma RowsSafeOnce(rules: Rules, src: seq<SourceRecord>, v: Records, n: int)
    requires RowsSafe(rules, src, v, n)
    ensures ImportedOnce(v)
  {
  }

  // ---------- going on after a failed rollback ----------

  ghost predicate KeysSince(rules: Rules, src: seq<SourceRecord>, w: World, x: World, t: Uuid, j: Uuid, key: string) {
    && JobVisible(w, t, j) && JobVisible(x, t, j)
    && 0 <= w.jobs[j].cursor <= x.jobs[j].cursor <= |src|
    && var v, u := View(w.records, t, j), View(x.records, t, j); var n, m := w.jobs[j].cursor, x.jobs[j].cursor;
       && (HasKey(v, key) || KeyFrom(rules, src, n, m, key) ==> HasKey(u, key))
       && (HasKey(u, key) ==> HasKey(v, key) || KeyFrom(rules, src, n, |src|, key))
  }

  lemma {:induction false} KeysSinceStep(rules: Rules, src: seq<SourceRecord>, w: World, x: World, t: Uuid, j: Uuid,
                                         key: string, op: Op)
    requires key != "" && KeysSince(rules, src, w, x, t, j, key) && Enabled(rules, x, op) && OpFeeds(op, t, j, src)
    requires OpReversed(op, t, j) == 0 && x.jobs[j].id == j
    ensures KeysSince(rules, src, w, After(x, op), t, j, key)
  {
    hide View, HasKey, RowsFor, ReadAt, AddRows, Count, Reversed;
    if OpIsBatchOf(op, t, j) {
      if BatchRefusal(x, op.c) == None {
        var n := x.jobs[j].cursor;
        assert |op.rows| <= |BatchRead(x, op.c).0|;
        ReadStays(src, n, op.c.size);
        BatchKeys(rules, src, x.records, t, j, n, op.c.now, op.rows, key);
        KeyFromParts(rules, src, w.jobs[j].cursor, n, n + |op.rows|, key);
      }
    } else if OpIsReverseOf(op, t, j) {
      ReversesOwn(x, op.r, op.ids);
      assert op.ids == {};
      ReverseNone(x.records, op.r.note, op.r.now);
    } else if op.Move? && op.tenant == t && op.target == j {
    } else {
      OthersKeep(rules, x, t, j, op);
    }
  }

  lemma ReadStays(src: seq<SourceRecord>, n: int, size: int)
    requires 0 <= n <= |src|
    ensures n + |ReadAt(src, n, size).0| <= |src|
  {
  }

  lemma KeyFromParts(rules: Rules, src: seq<SourceRecord>, lo: int, mid: int, hi: int, key: string)
    requires 0 <= lo <= mid <= hi <= |src|
    ensures KeyFrom(rules, src, lo, hi, key) <==> KeyFrom(rules, src, lo, mid, key) || KeyFrom(rules, src, mid, hi, key)
    ensures KeyFrom(rules, src, mid, hi, key) ==> KeyFrom(rules, src, lo, |src|, key)
  {
    hide KeyAt;
    if KeyFrom(rules, src, mid, hi, key) {
      var i :| 0 <= mid <= i < hi && KeyAt(rules, src[i], key);
      assert lo <= i < |src|;
    }
    if KeyFrom(rules, src, lo, mid, key) {
      var i :| 0 <= lo <= i < mid && KeyAt(rules, src[i], key);
      assert i < hi;
    }
    if KeyFrom(rules, src, lo, hi, key) {
      var i :| 0 <= lo <= i < hi && KeyAt(rules, src[i], key);
      assert i < mid || mid <= i;
    }
  }

  lemma {:induction false} KeysSinceRun(rules: Rules, src: seq<SourceRecord>, w: World, t: Uuid, j: Uuid, key: string,
                                        ops: seq<Op>)
    requires key != "" && JobVisible(w, t, j) && w.jobs[j].id == j && 0 <= w.jobs[j].cursor <= |src|
    requires ValidRun(rules, w, ops) && Feeds(ops, t, j, src) && ReversedBy(ops, t, j) == 0
    ensures KeysSince(rules, src, w, AfterAll(w, ops), t, j, key)
    ensures JobVisible(AfterAll(w, ops), t, j) && AfterAll(w, ops).jobs[j].id == j
  {
    hide Enabled, After, OpReversed, OpFeeds, View, KeysSince, ValidRun;
    if ops == [] {
      KeysSinceStart(rules, src, w, t, j, key);
    } else {
      var n := |ops| - 1;
      ShorterRun(rules, w, ops);
      KeysSinceRun(rules, src, w, t, j, key, ops[..n]);
      KeysSinceStep(rules, src, w, AfterAll(w, ops[..n]), t, j, key, ops[n]);
      StepKeepsId(rules, AfterAll(w, ops[..n]), t, j, ops[n]);
    }
  }

  lemma KeysSinceStart(rules: Rules, src: seq<SourceRecord>, w: World, t: Uuid, j: Uuid, key: string)
    requires JobVisible(w, t, j) && 0 <= w.jobs[j].cursor <= |src|
    ensures KeysSince(rules, src, w, w, t, j, key)
  {
  }

  lemma StepKeepsId(rules: Rules, x: World, t: Uuid, j: Uuid, op: Op)
    requires JobVisible(x, t, j) && x.jobs[j].id == j && Enabled(rules, x, op)
    ensures JobVisible(After(x, op), t, j) && After(x, op).jobs[j].id == j
  {
    hide ReadAt, RowsFor, AddRows, Reversed, View, Count;
    if !OpIsBatchOf(op, t, j) && !OpIsReverseOf(op, t, j) && !(op.Move? && op.tenant == t && op.target == j) {
      OthersKeep(rules, x, t, j, op);
    }
  }

  // Resuming after failed rollbacks: the completed job is crash safe exactly if
  // every key that a rollback reversed, and that a valid record below the Cursor
  // carries, was still imported when the job went on, or is carried again by a
  // valid record from the Cursor on. Both can be looked up before ResumeJob.
  lemma {:induction false} CrashSafeAfterResumeIff(rules: Rules, src: seq<SourceRecord>, w: World, t: Uuid, j: Uuid,
                                                   ops: seq<Op>, more: seq<Op>)
    requires JustRegistered(w, t, j) && ValidRun(rules, w, ops) && Feeds(ops, t, j, src)
    requires ValidRun(rules, AfterAll(w, ops), more) && Feeds(more, t, j, src) && ReversedBy(more, t, j) == 0
    requires j in AfterAll(AfterAll(w, ops), more).jobs && AfterAll(AfterAll(w, ops), more).jobs[j].status == Completed
    ensures var x := AfterAll(w, ops); var y := AfterAll(x, more);
      && j in x.jobs
      && var v, n := View(x.records, t, j), x.jobs[j].cursor;
         CrashSafe(rules, src, View(y.records, t, j), |src|) <==>
         forall key :: KeyFrom(rules, src, 0, n, key) && WasReversed(v, key) ==>
           HasKey(v, key) || KeyFrom(rules, src, n, |src|, key)
  {
    hide RowsSafe, ValidRun, Feeds, View, HasKey, WasReversed, KeyFrom, KeysSince, AfterAll, ReversedBy;
    hide CrashSafe;
    RunKeeps(rules, src, w, t, j, ops);
    var x := AfterAll(w, ops);
    var y := AfterAll(x, more);
    var v, u, n := View(x.records, t, j), View(y.records, t, j), x.jobs[j].cursor;
    CursorInRange(rules, src, x, t, j);
    RunOn(rules, src, x, t, j, LeftBehind(w, ops, t, j), ReversedBy(ops, t, j), more);
    forall key | key != "" ensures KeyFacts(rules, src, v, u, n, key) {
      KeysSinceRun(rules, src, x, t, j, key, more);
      KeysSinceEnd(rules, src, x, y, t, j, key);
      KeyFromParts(rules, src, 0, n, |src|, key);
      SafeKey(rules, src, v, n, key);
    }
    CrashSafeByKeys(rules, src, v, u, n);
  }

  predicate KeyFacts(rules: Rules, src: seq<SourceRecord>, v: Records, u: Records, n: int, key: string) {
    && (HasKey(u, key) <==> HasKey(v, key) || KeyFrom(rules, src, n, |src|, key))
    && (KeyFrom(rules, src, 0, |src|, key) <==> KeyFrom(rules, src, 0, n, key) || KeyFrom(rules, src, n, |src|, key))
    && (KeyFrom(rules, src, 0, n, key) ==> HasKey(v, key) || WasReversed(v, key))
  }

  lemma CrashSafeByKeys(rules: Rules, src: seq<SourceRecord>, v: Records, u: Records, n: int)
    requires RowsSafe(rules, src, u, |src|) && forall key :: key != "" ==> KeyFacts(rules, src, v, u, n, key)
    ensures CrashSafe(rules, src, u, |src|) <==>
            forall key :: KeyFrom(rules, src, 0, n, key) && WasReversed(v, key) ==>
              HasKey(v, key) || KeyFrom(rules, src, n, |src|, key)
  {
    hide RowsSafe, HasKey, WasReversed, KeyFrom;
    KeyFromNonEmpty(rules, src, |src|);
    KeyFromNonEmpty(rules, src, n);
    if CrashSafe(rules, src, u, |src|) {
      forall key | KeyFrom(rules, src, 0, n, key) && WasReversed(v, key)
        ensures HasKey(v, key) || KeyFrom(rules, src, n, |src|, key)
      {
        assert KeyFacts(rules, src, v, u, n, key);
        assert KeyFrom(rules, src, 0, |src|, key);
      }
    } else {
      var key :| KeyFrom(rules, src, 0, |src|, key) && !HasKey(u, key);
      assert KeyFacts(rules, src, v, u, n, key);
      assert KeyFrom(rules, src, 0, n, key) && WasReversed(v, key);
    }
  }

  lemma SafeKey(rules: Rules, src: seq<SourceRecord>, v: Records, n: int, key: string)
    requires RowsSafe(rules, src, v, n)
    ensures KeyFrom(rules, src, 0, n, key) ==> HasKey(v, key) || WasReversed(v, key)
  {
  }

  lemma KeysSinceEnd(rules: Rules, src: seq<SourceRecord>, x: World, y: World, t: Uuid, j: Uuid, key: string)
    requires KeysSince(rules, src, x, y, t, j, key) && y.jobs[j].cursor == |src|
    ensures HasKey(View(y.records, t, j), key) <==>
            HasKey(View(x.records, t, j), key) || KeyFrom(rules, src, x.jobs[j].cursor, |src|, key)
  {
  }

  // The invariant carried on from any state of a run.
  lemma {:induction false} RunOn(rules: Rules, src: seq<SourceRecord>, x: World, t: Uuid, j: Uuid,
                                 left: seq<ImportRecord>, reversed: nat, more: seq<Op>)
    requires RunInv(rules, src, x, t, j, left, reversed) && ValidRun(rules, x, more) && Feeds(more, t, j, src)
    ensures RunInv(rules, src, AfterAll(x, more), t, j, left + LeftBehind(x, more, t, j),
                   reversed + ReversedBy(more, t, j))
  {
    hide Enabled, After, OpLeft, OpReversed, OpFeeds, View, RunInv, ValidRun;
    if more == [] {
      assert left + [] == left;
    } else {
      var n := |more| - 1;
      var init := more[..n];
      ShorterRun(rules, x, more);
      RunOn(rules, src, x, t, j, left, reversed, init);
      var before, l := AfterAll(x, init), LeftBehind(x, init, t, j);
      StepKeeps(rules, src, before, t, j, left + l, reversed + ReversedBy(init, t, j), more[n]);
      assert left + l + OpLeft(before, more[n], t, j) == left + (l + OpLeft(before, more[n], t, j));
    }
  }

  // The rows are exactly those of one record-by-record pass if and only if no
  // failed batch of the job left rows behind and no rollback reversed any: batch
  // sizes, pauses, failures that wrote nothing and resumptions do not matter.
  lemma {:induction false} ExactIffNothingLeft(rules: Rules, src: seq<SourceRecord>, w: World, t: Uuid, j: Uuid,
                                               ops: seq<Op>)
    requires JustRegistered(w, t, j) && ValidRun(rules, w, ops) && Feeds(ops, t, j, src)
    requires j in AfterAll(w, ops).jobs && AfterAll(w, ops).jobs[j].status != RolledBack
    ensures var w' := AfterAll(w, ops);
      && JobVisible(w', t, j)
      && (ExactPass(rules, src, View(w'.records, t, j), w'.jobs[j].cursor) <==>
          LeftBehind(w, ops, t, j) == [] && ReversedBy(ops, t, j) == 0)
  {
    hide View, RowsSafe, ExactPass, ValidRun, Feeds, ReversedBy;
    RunKeeps(rules, src, w, t, j, ops);
    var w' := AfterAll(w, ops);
    var v, n := View(w'.records, t, j), w'.jobs[j].cursor;
    if ExactPass(rules, src, v, n) { ExactSize(rules, src, v, n); ExactNotReversed(rules, src, v, n); }
  }

  lemma ExactNotReversed(rules: Rules, src: seq<SourceRecord>, v: Records, n: int)
    requires ExactPass(rules, src, v, n)
    ensures RowsOf(v, OutcomeRolledBack) == {}
  {
  }

  lemma ExactIndices(rules: Rules, src: seq<SourceRecord>, v: Records, n: int)
    requires ExactPass(rules, src, v, n)
    ensures n >= 0 && OneRowPerIndex(v)
    ensures forall id :: id in v ==> 0 <= v[id].sourceIndex < n
    ensures forall i :: 0 <= i < n ==> HasRow(v, i)
  {
  }

  lemma ExactSize(rules: Rules, src: seq<SourceRecord>, v: Records, n: int)
    requires ExactPass(rules, src, v, n)
    ensures |v| == n
  {
    hide ExactPass, OneRowPerIndex;
    ExactIndices(rules, src, v, n);
    forall i | i in Below(n) ensures i in Indices(v) {
      assert HasRow(v, i);
      var id :| id in v && v[id].sourceIndex == i;
    }
    forall i | i in Indices(v) ensures i in Below(n) {
      var id :| id in v && v[id].sourceIndex == i;
    }
    assert Below(n) == Indices(v);
    IndexCount(v);
  }

  function Below(n: nat): (s: set<int>)
    ensures |s| == n
    ensures forall i :: i in s <==> 0 <= i < n
  {
    if n == 0 then {} else Below(n - 1) + {n - 1}
  }

  function Indices(v: Records): set<int> {
    set id | id in v :: v[id].sourceIndex
  }

  lemma {:induction false} IndexCount(v: Records)
    requires OneRowPerIndex(v)
    ensures |Indices(v)| == |v|
    decreases |v|
  {
    if v.Keys != {} {
      var x :| x in v;
      var rest := v - {x};
      assert v.Keys == rest.Keys + {x};
      IndexCount(rest);
      assert Indices(v) == Indices(rest) + {v[x].sourceIndex} by {
        forall i | i in Indices(v) ensures i in Indices(rest) + {v[x].sourceIndex} {
          var id :| id in v && v[id].sourceIndex == i;
          assert id == x || id in rest;
        }
      }
      assert v[x].sourceIndex !in Indices(rest);
    }
  }

  // Each counter falls short of the rows with its outcome, reversed rows counted
  // as imported, by exactly the rows left behind.
  lemma {:induction false} CountersExact(rules: Rules, src: seq<SourceRecord>, w: World, t: Uuid, j: Uuid, ops: seq<Op>)
    requires JustRegistered(w, t, j) && ValidRun(rules, w, ops) && Feeds(ops, t, j, src)
    requires j in AfterAll(w, ops).jobs && AfterAll(w, ops).jobs[j].status != RolledBack
    ensures var w' := AfterAll(w, ops);
      && JobVisible(w', t, j) && w'.jobs[j].cursor == w'.jobs[j].processed
      && Counts(w'.jobs[j], View(w'.records, t, j), LeftBehind(w, ops, t, j), ReversedBy(ops, t, j))
      && (w'.jobs[j].processed == |View(w'.records, t, j)| <==> LeftBehind(w, ops, t, j) == [])
  {
    hide RowsSafe, ExactPass, ValidRun, Feeds, ReversedBy;
    RunKeeps(rules, src, w, t, j, ops);
  }

  // Two runs over one source that left nothing behind and stand at the same
  // cursor hold the same rows, up to row identity, reason text and timestamps.
  predicate SameRow(a: ImportRecord, b: ImportRecord) {
    a.fields == b.fields && a.validation == b.validation && a.errors == b.errors
    && a.dedupKey == b.dedupKey && a.outcome == b.outcome
  }

  lemma {:induction false} BatchingDoesNotMatter(rules: Rules, src: seq<SourceRecord>, w: World, u: World, t: Uuid,
                                                 j: Uuid, ops: seq<Op>, others: seq<Op>)
    requires JustRegistered(w, t, j) && ValidRun(rules, w, ops) && Feeds(ops, t, j, src)
    requires JustRegistered(u, t, j) && ValidRun(rules, u, others) && Feeds(others, t, j, src)
    requires LeftBehind(w, ops, t, j) == [] && LeftBehind(u, others, t, j) == []
    requires ReversedBy(ops, t, j) == 0 && ReversedBy(others, t, j) == 0
    requires j in AfterAll(w, ops).jobs && AfterAll(w, ops).jobs[j].status != RolledBack
    requires j in AfterAll(u, others).jobs && AfterAll(u, others).jobs[j].status != RolledBack
    requires AfterAll(w, ops).jobs[j].cursor == AfterAll(u, others).jobs[j].cursor
    ensures var v, x := View(AfterAll(w, ops).records, t, j), View(AfterAll(u, others).records, t, j);
      && |v| == |x|
      && (forall a :: a in v ==> HasRow(x, v[a].sourceIndex))
      && (forall a, b :: a in v && b in x && v[a].sourceIndex == x[b].sourceIndex ==> SameRow(v[a], x[b]))
  {
    hide View, ValidRun, Feeds, Rules.Key, ReversedBy;
    ExactIffNothingLeft(rules, src, w, t, j, ops);
    ExactIffNothingLeft(rules, src, u, t, j, others);
    var n := AfterAll(w, ops).jobs[j].cursor;
    var v, x := View(AfterAll(w, ops).records, t, j), View(AfterAll(u, others).records, t, j);
    ExactSize(rules, src, v, n);
    ExactSize(rules, src, x, n);
  }

  // A batch that goes through completes the job or moves its cursor closer to
  // the end of the source.
  lemma BatchMakesProgress(w: World, c: BatchCall, rows: seq<ImportRecord>)
    requires BatchCommits(w, c) && |rows| == RowsToWrite(w, c) && w.jobs[c.job].cursor >= 0
    ensures var job, job' := w.jobs[c.job], AfterBatch(w, c, rows).jobs[c.job];
      job'.status == Completed ||
      (job'.status == Running && job.cursor < job'.cursor < |c.source.value|)
  {
  }

  // ---------- rollback ----------

  // After a rollback that goes through, no row of the job counts as imported,
  // every row that was not is as before, and ImportedRecords is what failed
  // rollbacks had reversed before, less the imported rows that failed batches
  // left behind: zero exactly when these are equally many.
  lemma {:induction false} RollbackAfterRun(rules: Rules, src: seq<SourceRecord>, w: World, t: Uuid, j: Uuid,
                                            ops: seq<Op>, c: RollbackCall, ids: set<Uuid>)
    requires JustRegistered(w, t, j) && ValidRun(rules, w, ops) && Feeds(ops, t, j, src)
    requires c.tenant == t && c.job == j
    requires RollbackReverses(AfterAll(w, ops), c, ids) && RollbackCommits(AfterAll(w, ops), c)
    ensures var before := AfterAll(w, ops); var after := AfterRollback(before, c, ids);
      var v, x := View(before.records, t, j), View(after.records, t, j);
      && after.jobs[j].status == RolledBack
      && after.jobs[j].imported == ReversedBy(ops, t, j) - Count(LeftBehind(w, ops, t, j), Imported)
      && RowsOf(x, Imported) == {}
      && RowsOf(x, OutcomeRolledBack) == RowsOf(v, Imported) + RowsOf(v, OutcomeRolledBack)
      && (forall id :: id in before.records && before.records[id].outcome != Imported ==>
            id in after.records && after.records[id] == before.records[id])
  {
    hide ValidRun, Feeds, View, Reversed, RowsOf, Mine, ReversedBy, RollbackReverses, RowsSafe, ExactPass;
    RunKeeps(rules, src, w, t, j, ops);
    var before := AfterAll(w, ops);
    ReversesOwn(before, c, ids);
    ReversedView(before.records, t, j, ids, c.note, c.now);
    OthersNotReversed(before.records, t, j, ids, c.note, c.now);
    EmptyLessItself(RowsOf(View(before.records, t, j), Imported));
  }

  lemma EmptyLessItself(a: set<Uuid>)
    ensures a - a == {}
  {
  }

  lemma ImportedIds(records: Records, t: Uuid, j: Uuid)
    ensures IdsWith(records, t, j, Imported) == RowsOf(View(records, t, j), Imported)
  {
  }

  lemma ReversedRows(records: Records, t: Uuid, j: Uuid, ids: set<Uuid>, note: string, now: Time)
    requires ids <= RowsOf(View(records, t, j), Imported)
    ensures var v, x := View(records, t, j), View(Reversed(records, ids, note, now), t, j);
      && x.Keys == v.Keys && ids <= v.Keys
      && (forall id :: id in v ==> x[id] == if id in ids then ReversedRow(v[id], note, now) else v[id])
  {
  }

  lemma ReversedView(records: Records, t: Uuid, j: Uuid, ids: set<Uuid>, note: string, now: Time)
    requires ids <= RowsOf(View(records, t, j), Imported)
    ensures var v, x := View(records, t, j), View(Reversed(records, ids, note, now), t, j);
      && |x| == |v|
      && RowsOf(x, Imported) == RowsOf(v, Imported) - ids
      && RowsOf(x, OutcomeRolledBack) == ids + RowsOf(v, OutcomeRolledBack)
      && RowsOf(x, SkippedDuplicate) == RowsOf(v, SkippedDuplicate) && RowsOf(x, Rejected) == RowsOf(v, Rejected)
  {
    hide View, Reversed;
    var v, x := View(records, t, j), View(Reversed(records, ids, note, now), t, j);
    ReversedRows(records, t, j, ids, note, now);
    assert |x| == |x.Keys| && |v| == |v.Keys|;
    assert forall id :: id in v ==> x[id].outcome == if id in ids then OutcomeRolledBack else v[id].outcome;
    assert forall id :: id in ids ==> v[id].outcome == Imported;
  }

  lemma OthersNotReversed(records: Records, t: Uuid, j: Uuid, ids: set<Uuid>, note: string, now: Time)
    requires ids <= RowsOf(View(records, t, j), Imported)
    ensures forall id :: id in records && records[id].outcome != Imported ==>
      id in Reversed(records, ids, note, now) && Reversed(records, ids, note, now)[id] == records[id]
  {
  }

  // RolledBack is never left, and a rolled-back job's rows never change again.
  lemma {:induction false} RolledBackForever(rules: Rules, w: World, t: Uuid, j: Uuid, ops: seq<Op>)
    requires JobVisible(w, t, j) && w.jobs[j].status == RolledBack && ValidRun(rules, w, ops)
    ensures var w' := AfterAll(w, ops);
      j in w'.jobs && w'.jobs[j] == w.jobs[j] && View(w'.records, t, j) == View(w.records, t, j)
  {
    hide View, AddRows, RowsFor, ReadAt, Reversed;
    if ops != [] {
      var n := |ops| - 1;
      var init := ops[..n];
      forall i | 0 <= i < n ensures Enabled(rules, AfterAll(w, init[..i]), init[i]) {
        assert init[..i] == ops[..i];
        assert Enabled(rules, AfterAll(w, ops[..i]), ops[i]);
      }
      RolledBackForever(rules, w, t, j, init);
      var w', op := AfterAll(w, init), ops[n];
      assert ops[..n] == init && Enabled(rules, w', op);
      RolledBackStep(rules, w', t, j, op);
    }
  }

  lemma RolledBackStep(rules: Rules, w: World, t: Uuid, j: Uuid, op: Op)
    requires JobVisible(w, t, j) && w.jobs[j].status == RolledBack && Enabled(rules, w, op)
    ensures var w' := After(w, op);
      j in w'.jobs && w'.jobs[j] == w.jobs[j] && View(w'.records, t, j) == View(w.records, t, j)
  {
    if op.Reverse? && op.r.tenant == t && op.r.job == j {
      ReverseNone(w.records, op.r.note, op.r.now);
    } else if OpIsBatchOf(op, t, j) || (op.Move? && op.tenant == t && op.target == j) {
    } else {
      OthersKeep(rules, w, t, j, op);
    }
  }
}
