// packages/bulkimport/types.go, source.go, validator.go: jobs, rows, the status
// machine and the source corpus.
module ImportTypes {
  import opened Basics
  import opened Text
  import DedupKey

  type Time = int

  // ---------- status machine ----------

  datatype Status = Pending | Running | Paused | Completed | Failed | RolledBack

  function StatusTransitions(s: Status): set<Status> {
    match s
    case Pending => {Running, Failed}
    case Running => {Running, Paused, Completed, Failed}
    case Paused => {Running, Failed}
    case Completed => {RolledBack}
    case Failed => {RolledBack, Running}
    case RolledBack => {}
  }

  predicate CanTransitionTo(s: Status, next: Status) {
    next in StatusTransitions(s)
  }

  // ---------- jobs ----------

  datatype ImportJob = ImportJob(
    id: Uuid, tenant: Uuid, sourceDescription: string, status: Status, total: int,
    processed: int, failed: int, skipped: int, imported: int, cursor: int,
    createdBy: Uuid, createdAt: Time, updatedAt: Time,
    startedAt: Option<Time>, finishedAt: Option<Time>, failureReason: string)

  function NewImportJob(id: Uuid, tenant: Uuid, description: string, createdBy: Uuid, total: int,
                        now: Time): ImportJob {
    ImportJob(id, tenant, description, Pending, total, 0, 0, 0, 0, 0, createdBy, now, now, None, None, "")
  }

  // transitionJob once the transition table has allowed the move.
  function Moved(job: ImportJob, next: Status, now: Time): ImportJob {
    job.(status := next, updatedAt := now,
         startedAt := if next == Running && job.startedAt == None then Some(now) else job.startedAt,
         finishedAt := if next == Completed || next == Failed then Some(now) else job.finishedAt)
  }

  // ---------- rows ----------

  datatype ValidationStatus = ValidationPending | ValidationPassed | ValidationFailed
  datatype ValidationError = ValidationError(field: string, reason: string)
  datatype Outcome = OutcomePending | Imported | SkippedDuplicate | Rejected | OutcomeRolledBack

  datatype SourceRecord = SourceRecord(payloadRef: string, caseNumber: string, jurisdiction: string,
                                       parties: seq<string>)

  datatype ImportRecord = ImportRecord(
    id: Uuid, tenant: Uuid, job: Uuid, sourceIndex: int, fields: SourceRecord,
    dedupKey: string, validation: ValidationStatus, errors: seq<ValidationError>,
    outcome: Outcome, reason: string, createdCase: Uuid, createdAt: Time, updatedAt: Time)

  // ---------- InMemoryRecordSource.ReadAt ----------

  function ReadAt(source: seq<SourceRecord>, index: int, count: int): (r: (seq<SourceRecord>, bool))
    ensures |r.0| > 0 <==> 0 <= index < |source| && count > 0
    ensures |r.0| > 0 ==> index + |r.0| <= |source| && r.0 == source[index..index + |r.0|]
    ensures |r.0| > 0 ==> |r.0| == count || (|r.0| < count && index + |r.0| == |source|)
    ensures r.1 <==> index < 0 || count <= 0 || index + |r.0| >= |source|
  {
    if index < 0 || count <= 0 || index >= |source| then ([], true)
    else if index + count >= |source| then (source[index..], true)
    else (source[index..index + count], false)
  }

  // ---------- validation and keys ----------

  // What an engine is configured with: SHA-256 and the Validator, which sees the
  // copied source fields only.
  datatype Rules = Rules(hash: string -> string, validate: SourceRecord -> seq<ValidationError>) {
    predicate Valid(r: SourceRecord) {
      validate(r) == []
    }

    function Key(r: SourceRecord): string {
      DedupKey.ComputeDedupKey(hash, r.caseNumber, r.jurisdiction, r.parties)
    }
  }

  function Required(text: string, field: string, reason: string): seq<ValidationError> {
    if TrimSpace(text) == "" then [ValidationError(field, reason)] else []
  }

  function DefaultValidate(requirePartyNames: bool, r: SourceRecord): seq<ValidationError> {
    Required(r.caseNumber, "case_number", "case number is required")
    + Required(r.jurisdiction, "jurisdiction", "jurisdiction is required")
    + Required(r.payloadRef, "payload_ref", "payload reference is required")
    + (if requirePartyNames && r.parties == []
       then [ValidationError("party_names", "at least one party name is required")] else [])
    + (if exists i :: 0 <= i < |r.parties| && TrimSpace(r.parties[i]) == ""
       then [ValidationError("party_names", "party name entry is blank")] else [])
  }

  // Under the validator the engine ships with, every record that passes has a
  // key, so deduplication applies to every row that is imported.
  lemma DefaultRecordsHaveKeys(hash: string -> string, requirePartyNames: bool, r: SourceRecord)
    requires IsHexDigest(hash(DedupKey.Composite(r.caseNumber, r.jurisdiction, r.parties)))
    ensures var rules := Rules(hash, x => DefaultValidate(requirePartyNames, x));
      rules.Valid(r) ==> rules.Key(r) != ""
  {
    if TrimSpace(r.caseNumber) == "" {
      BlankCaseRejected(requirePartyNames, r);
    } else {
      assert |DedupKey.Normalize(r.caseNumber)| == |TrimSpace(r.caseNumber)|;
    }
  }

  lemma BlankCaseRejected(requirePartyNames: bool, r: SourceRecord)
    requires TrimSpace(r.caseNumber) == ""
    ensures DefaultValidate(requirePartyNames, r) != []
  {
    assert |Required(r.caseNumber, "case_number", "case number is required")| == 1;
    assert |DefaultValidate(requirePartyNames, r)| >= 1;
  }
}
