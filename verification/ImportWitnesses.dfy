// Runs of the bulk-import engine on the failing side of the exact conditions in
// ImportRuns: each starts from a job just registered and can happen as it stands.
module ImportWitnesses {
  import opened Basics
  import opened Text
  import opened ImportTypes
  import opened ImportEngine
  import opened ImportRuns

  // Everything is valid; records with a case number share one key, others have none.
  function AnyRules(): Rules {
    Rules((s: string) => "k", (r: SourceRecord) => [])
  }

  const BLANK: SourceRecord := SourceRecord("", "", "", [])
  const NUMBERED: SourceRecord := SourceRecord("", "a", "", [])

  lemma KeysOfSamples()
    ensures AnyRules().Key(BLANK) == "" && AnyRules().Key(NUMBERED) == "k"
    ensures AnyRules().Valid(BLANK) && AnyRules().Valid(NUMBERED)
  {
  }

  function Registered(t: Uuid, j: Uuid, total: int): World {
    World(map[j := NewImportJob(j, t, "corpus", t, total, 0)], map[])
  }

  function RowOf(t: Uuid, j: Uuid, id: Uuid, i: int, r: SourceRecord): ImportRecord {
    ImportRecord(id, t, j, i, r, AnyRules().Key(r), ValidationPassed, [], Imported, "", NIL_UUID, 0, 0)
  }

  function BatchOf(t: Uuid, j: Uuid, src: seq<SourceRecord>, size: int, fault: Fault): BatchCall {
    BatchCall(t, j, Some(src), size, 0, 0, fault)
  }

  lemma ExtendRun(rules: Rules, src: seq<SourceRecord>, w: World, t: Uuid, j: Uuid, ops: seq<Op>, op: Op)
    requires ValidRun(rules, w, ops) && Feeds(ops, t, j, src)
    requires Enabled(rules, AfterAll(w, ops), op) && OpFeeds(op, t, j, src)
    ensures ValidRun(rules, w, ops + [op]) && Feeds(ops + [op], t, j, src)
    ensures AfterAll(w, ops + [op]) == After(AfterAll(w, ops), op)
    ensures LeftBehind(w, ops + [op], t, j) == LeftBehind(w, ops, t, j) + OpLeft(AfterAll(w, ops), op, t, j)
    ensures ReversedBy(ops + [op], t, j) == ReversedBy(ops, t, j) + OpReversed(op, t, j)
  {
    hide Enabled, After, OpLeft, OpFeeds, OpReversed;
    var more := ops + [op];
    assert more[..|ops|] == ops;
    forall i | 0 <= i < |more| ensures Enabled(rules, AfterAll(w, more[..i]), more[i]) {
      if i < |ops| { assert more[..i] == ops[..i]; }
    }
  }

  lemma EmptyRun(rules: Rules, src: seq<SourceRecord>, w: World, t: Uuid, j: Uuid)
    ensures ValidRun(rules, w, []) && Feeds([], t, j, src) && AfterAll(w, []) == w
    ensures LeftBehind(w, [], t, j) == [] && ReversedBy([], t, j) == 0
  {
  }

  lemma OneRow(w: World, t: Uuid, j: Uuid, id: Uuid, i: nat, src: seq<SourceRecord>)
    requires i < |src| && id !in w.records && AnyRules().Valid(src[i])
    requires AnyRules().Key(src[i]) == "" || !HasImported(w.records, t, j, AnyRules().Key(src[i]))
    ensures var row := RowOf(t, j, id, i, src[i]);
      && RowsFor(AnyRules(), w.records, t, j, src, i, 0, [row]) && AddRows(w.records, [row]) == w.records[id := row]
      && Count([row], Imported) == 1 && Count([row], SkippedDuplicate) == 0 && Count([row], Rejected) == 0
  {
    hide Rules.Key;
    var row := RowOf(t, j, id, i, src[i]);
    assert [row][..0] == [];
    assert AddRows(w.records, []) == w.records;
    assert RowFor(AnyRules(), w.records, t, j, src[i], i, 0, row);
  }

  // Where a run has got to: the job's status, Cursor and counter, and all rows.
  predicate At(x: World, t: Uuid, j: Uuid, status: Status, cursor: nat, imported: int, records: Records) {
    && JobVisible(x, t, j) && x.records == records
    && var job := x.jobs[j];
       job.id == j && job.status == status && job.cursor == job.processed == cursor && job.imported == imported
  }

  // A run under way: what its operations did to job j so far.
  ghost predicate Ran(w: World, t: Uuid, j: Uuid, src: seq<SourceRecord>, ops: seq<Op>, left: nat, reversed: nat) {
    && ValidRun(AnyRules(), w, ops) && Feeds(ops, t, j, src)
    && |LeftBehind(w, ops, t, j)| == left && ReversedBy(ops, t, j) == reversed
  }

  lemma Goes(w: World, t: Uuid, j: Uuid, src: seq<SourceRecord>, ops: seq<Op>, left: nat, reversed: nat, op: Op)
    requires Ran(w, t, j, src, ops, left, reversed)
    requires Enabled(AnyRules(), AfterAll(w, ops), op) && OpFeeds(op, t, j, src)
    ensures Ran(w, t, j, src, ops + [op], left + |OpLeft(AfterAll(w, ops), op, t, j)|, reversed + OpReversed(op, t, j))
    ensures AfterAll(w, ops + [op]) == After(AfterAll(w, ops), op)
  {
    hide Enabled, After, OpLeft, OpFeeds, OpReversed, AfterAll, ValidRun, Feeds, LeftBehind, ReversedBy;
    ExtendRun(AnyRules(), src, w, t, j, ops, op);
  }

  lemma Starts(t: Uuid, j: Uuid, src: seq<SourceRecord>, total: nat)
    ensures var w := Registered(t, j, total);
      && JustRegistered(w, t, j) && At(w, t, j, Pending, 0, 0, map[])
      && Ran(w, t, j, src, [], 0, 0) && AfterAll(w, []) == w
  {
    EmptyRun(AnyRules(), src, Registered(t, j, total), t, j);
  }

  // The next record, written as an imported row by a batch of one.
  lemma OneBatch(x: World, t: Uuid, j: Uuid, id: Uuid, i: nat, src: seq<SourceRecord>, imported: int, records: Records,
                 fault: Fault)
    requires i < |src| && (At(x, t, j, Pending, i, imported, records) || At(x, t, j, Running, i, imported, records))
    requires id !in records && AnyRules().Valid(src[i]) && fault in {NoFault, JobUpdateFails}
    requires AnyRules().Key(src[i]) == "" || !HasImported(records, t, j, AnyRules().Key(src[i]))
    ensures var op := Batch(BatchOf(t, j, src, 1, fault), [RowOf(t, j, id, i, src[i])]);
      var after := records[id := RowOf(t, j, id, i, src[i])];
      && Enabled(AnyRules(), x, op) && OpFeeds(op, t, j, src) && OpReversed(op, t, j) == 0
      && |OpLeft(x, op, t, j)| == (if fault == NoFault then 0 else 1)
      && (fault == NoFault ==>
            At(After(x, op), t, j, if i + 1 == |src| then Completed else Running, i + 1, imported + 1, after))
      && (fault != NoFault ==> At(After(x, op), t, j, x.jobs[j].status, i, imported, after))
  {
    hide RowsFor, AddRows, Count, HasImported, Rules.Key, Rules.Valid;
    OneRow(x, t, j, id, i, src);
  }

  lemma OneMove(x: World, t: Uuid, j: Uuid, src: seq<SourceRecord>, from: Status, next: Status, cursor: nat,
                imported: int, records: Records)
    requires At(x, t, j, from, cursor, imported, records) && CanTransitionTo(from, next)
    requires next in {Paused, Running, Failed}
    ensures var op := Move(t, j, next, "", 0);
      && Enabled(AnyRules(), x, op) && OpFeeds(op, t, j, src) && OpReversed(op, t, j) == 0
      && |OpLeft(x, op, t, j)| == 0 && At(After(x, op), t, j, next, cursor, imported, records)
  {
  }

  // A rollback that reverses ids and fails.
  lemma OneFailedReverse(x: World, t: Uuid, j: Uuid, src: seq<SourceRecord>, status: Status, cursor: nat, imported: int,
                         records: Records, fault: Fault, ids: set<Uuid>)
    requires At(x, t, j, status, cursor, imported, records) && status in {Completed, Failed}
    requires ids <= IdsWith(records, t, j, Imported)
    requires if fault.RowWriteFails? then fault.at == |ids| < |IdsWith(records, t, j, Imported)|
             else fault == JobUpdateFails && ids == IdsWith(records, t, j, Imported)
    ensures var op := Reverse(RollbackCall(t, j, 0, "", fault), ids);
      && Enabled(AnyRules(), x, op) && OpFeeds(op, t, j, src) && OpReversed(op, t, j) == |ids|
      && |OpLeft(x, op, t, j)| == 0 && At(After(x, op), t, j, status, cursor, imported, Reversed(records, ids, "", 0))
  {
    hide IdsWith, Reversed;
  }

  // The rollback that goes through.
  lemma LastReverse(x: World, t: Uuid, j: Uuid, status: Status, cursor: nat, imported: int, records: Records)
    requires At(x, t, j, status, cursor, imported, records) && status in {Completed, Failed}
    ensures var c := RollbackCall(t, j, 0, "", NoFault); var ids := IdsWith(records, t, j, Imported);
      && RollbackReverses(x, c, ids) && RollbackCommits(x, c)
      && j in AfterRollback(x, c, ids).jobs && AfterRollback(x, c, ids).jobs[j].imported == imported - |ids|
  {
    hide IdsWith, Reversed;
  }

  lemma OneRowRecords(t: Uuid, j: Uuid, id: Uuid, src: SourceRecord)
    ensures var row := RowOf(t, j, id, 0, src);
      && IdsWith(map[id := row], t, j, Imported) == {id} && |View(map[id := row], t, j)| == 1
      && Reversed(map[id := row], {id}, "", 0) == map[id := ReversedRow(row, "", 0)]
  {
    var row := RowOf(t, j, id, 0, src);
    assert View(map[id := row], t, j) == map[id := row];
  }

  // A batch that fails after its row, and a rollback: ImportedRecords is -1.
  lemma FailedBatchTakesCounterBelowZero(t: Uuid, j: Uuid, id: Uuid) returns (ops: seq<Op>, c: RollbackCall)
    ensures var w, src, ids := Registered(t, j, 1), [BLANK], {id};
      && JustRegistered(w, t, j) && Ran(w, t, j, src, ops, 1, 0) && c.tenant == t && c.job == j
      && RollbackReverses(AfterAll(w, ops), c, ids) && RollbackCommits(AfterAll(w, ops), c)
      && j in AfterAll(w, ops).jobs && AfterAll(w, ops).jobs[j].processed == 0
      && |View(AfterAll(w, ops).records, t, j)| == 1
      && j in AfterRollback(AfterAll(w, ops), c, ids).jobs
      && AfterRollback(AfterAll(w, ops), c, ids).jobs[j].imported == -1
  {
    hide AnyRules, Registered, Enabled, After, AfterAll, OpLeft, OpFeeds, Ran, RollbackReverses, RollbackCommits;
    hide AfterRollback, IdsWith, View, RowOf, JustRegistered;
    var w, src := Registered(t, j, 1), [BLANK];
    var rows := map[id := RowOf(t, j, id, 0, BLANK)];
    KeysOfSamples();
    Starts(t, j, src, 1);
    var batch := Batch(BatchOf(t, j, src, 1, JobUpdateFails), [RowOf(t, j, id, 0, BLANK)]);
    OneBatch(w, t, j, id, 0, src, 0, map[], JobUpdateFails);
    Goes(w, t, j, src, [], 0, 0, batch);
    var x := After(w, batch);
    var stop := Move(t, j, Failed, "", 0);
    OneMove(x, t, j, src, Pending, Failed, 0, 0, rows);
    Goes(w, t, j, src, [] + [batch], 1, 0, stop);
    ops, c := [] + [batch] + [stop], RollbackCall(t, j, 0, "", NoFault);
    OneRowRecords(t, j, id, BLANK);
    LastReverse(After(x, stop), t, j, Failed, 0, 0, rows);
  }

  // A completed import of two records, a rollback whose second write fails, and
  // one that goes through: ImportedRecords is 1 and no row is imported.
  lemma RetriedRollbackLeavesCounterAbove(t: Uuid, j: Uuid, id: Uuid, other: Uuid)
    returns (ops: seq<Op>, c: RollbackCall)
    requires id != other
    ensures var w, src, ids := Registered(t, j, 2), [BLANK, BLANK], {other};
      && JustRegistered(w, t, j) && Ran(w, t, j, src, ops, 0, 1) && c.tenant == t && c.job == j
      && RollbackReverses(AfterAll(w, ops), c, ids) && RollbackCommits(AfterAll(w, ops), c)
      && j in AfterRollback(AfterAll(w, ops), c, ids).jobs
      && AfterRollback(AfterAll(w, ops), c, ids).jobs[j].imported == 1
  {
    hide AnyRules, Registered, Enabled, After, AfterAll, OpLeft, OpFeeds, Ran, RollbackReverses, RollbackCommits;
    hide AfterRollback, IdsWith, View, RowOf, JustRegistered, Reversed, OpReversed;
    var w, src := Registered(t, j, 2), [BLANK, BLANK];
    var row, next := RowOf(t, j, id, 0, BLANK), RowOf(t, j, other, 1, BLANK);
    KeysOfSamples();
    Starts(t, j, src, 2);
    var first := Batch(BatchOf(t, j, src, 1, NoFault), [row]);
    OneBatch(w, t, j, id, 0, src, 0, map[], NoFault);
    Goes(w, t, j, src, [], 0, 0, first);
    var x := After(w, first);
    var second := Batch(BatchOf(t, j, src, 1, NoFault), [next]);
    OneBatch(x, t, j, other, 1, src, 1, map[id := row], NoFault);
    Goes(w, t, j, src, [] + [first], 0, 0, second);
    var y := After(x, second);
    TwoRowRecords(t, j, id, other);
    var half := Reverse(RollbackCall(t, j, 0, "", RowWriteFails(1)), {id});
    OneFailedReverse(y, t, j, src, Completed, 2, 2, map[id := row, other := next], RowWriteFails(1), {id});
    Goes(w, t, j, src, [] + [first] + [second], 0, 0, half);
    ops, c := [] + [first] + [second] + [half], RollbackCall(t, j, 0, "", NoFault);
    LastReverse(After(y, half), t, j, Completed, 2, 2, Reversed(map[id := row, other := next], {id}, "", 0));
  }

  lemma TwoRowRecords(t: Uuid, j: Uuid, id: Uuid, other: Uuid)
    requires id != other
    ensures var rows := map[id := RowOf(t, j, id, 0, BLANK), other := RowOf(t, j, other, 1, BLANK)];
      && IdsWith(rows, t, j, Imported) == {id, other}
      && IdsWith(Reversed(rows, {id}, "", 0), t, j, Imported) == {other}
      && map[id := RowOf(t, j, id, 0, BLANK)][other := RowOf(t, j, other, 1, BLANK)] == rows
  {
  }

  // A job stopped after its first record, a rollback whose job update fails, and
  // a resumption: the job completes with a valid key that no row has imported.
  lemma FailedRollbackLosesKey(t: Uuid, j: Uuid, id: Uuid, other: Uuid) returns (ops: seq<Op>)
    requires id != other
    ensures var w, src := Registered(t, j, 2), [NUMBERED, BLANK];
      && JustRegistered(w, t, j) && Ran(w, t, j, src, ops, 0, 1)
      && j in AfterAll(w, ops).jobs && AfterAll(w, ops).jobs[j].status == Completed
      && !CrashSafe(AnyRules(), src, View(AfterAll(w, ops).records, t, j), 2)
  {
    hide AnyRules, Registered, Enabled, After, AfterAll, OpLeft, OpFeeds, Ran;
    hide IdsWith, View, RowOf, JustRegistered, Reversed, OpReversed, ReversedRow, HasImported, CrashSafe;
    var w, src := Registered(t, j, 2), [NUMBERED, BLANK];
    var row, next := RowOf(t, j, id, 0, NUMBERED), RowOf(t, j, other, 1, BLANK);
    KeysOfSamples();
    Starts(t, j, src, 2);
    NothingImported(t, j);
    var first := Batch(BatchOf(t, j, src, 1, NoFault), [row]);
    OneBatch(w, t, j, id, 0, src, 0, map[], NoFault);
    Goes(w, t, j, src, [], 0, 0, first);
    var x := After(w, first);
    var stop := Move(t, j, Failed, "", 0);
    OneMove(x, t, j, src, Running, Failed, 1, 1, map[id := row]);
    Goes(w, t, j, src, [] + [first], 0, 0, stop);
    var y := After(x, stop);
    OneRowRecords(t, j, id, NUMBERED);
    var back := Reverse(RollbackCall(t, j, 0, "", JobUpdateFails), {id});
    OneFailedReverse(y, t, j, src, Failed, 1, 1, map[id := row], JobUpdateFails, {id});
    Goes(w, t, j, src, [] + [first] + [stop], 0, 0, back);
    var z := After(y, back);
    var rows := map[id := ReversedRow(row, "", 0)];
    var again := Move(t, j, Running, "", 0);
    OneMove(z, t, j, src, Failed, Running, 1, 1, rows);
    Goes(w, t, j, src, [] + [first] + [stop] + [back], 0, 1, again);
    var last := Batch(BatchOf(t, j, src, 1, NoFault), [next]);
    OneBatch(After(z, again), t, j, other, 1, src, 1, rows, NoFault);
    Goes(w, t, j, src, [] + [first] + [stop] + [back] + [again], 0, 1, last);
    ops := [] + [first] + [stop] + [back] + [again] + [last];
    LostKey(t, j, id, other);
  }

  lemma NothingImported(t: Uuid, j: Uuid)
    ensures !HasImported(map[], t, j, "k")
  {
  }

  lemma LostKey(t: Uuid, j: Uuid, id: Uuid, other: Uuid)
    requires id != other
    ensures var first := map[id := ReversedRow(RowOf(t, j, id, 0, NUMBERED), "", 0)];
      var rows := first[other := RowOf(t, j, other, 1, BLANK)];
      !CrashSafe(AnyRules(), [NUMBERED, BLANK], View(rows, t, j), 2)
  {
    hide Rules.Key, Rules.Valid, RowsSafe;
    KeysOfSamples();
    var src := [NUMBERED, BLANK];
    assert KeyAt(AnyRules(), src[0], "k");
    assert KeyFrom(AnyRules(), src, 0, 2, "k");
  }
}
