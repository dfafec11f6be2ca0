// packages/accounting: record.go, repository.go, budget.go, reconcile.go and the
// recording side of service.go. The budget state kept up to date call by call
// must be the state a full recomputation over the stored records installs.
//
// Costs are added by an arbitrary function: floating-point addition need be
// neither associative nor commutative for the two paths to agree, because they
// add in the same order.
module AccountingBudget {
  import opened Basics
  import opened Text

  // Nanoseconds since 0001-01-01T00:00:00Z.
  type Time = int
  const ZERO_TIME: Time := 0
  const NANOS_PER_DAY: int := 86_400_000_000_000

  function DayOf(t: Time): int {
    t / NANOS_PER_DAY
  }

  datatype UsageRecord = UsageRecord(
    id: Uuid, tenant: Uuid, caseId: Option<Uuid>, provider: string, taskType: string,
    input: int, output: int, total: int, cost: Option<real>, requestId: string, createdAt: Time)

  predicate ValidRecord(r: UsageRecord) {
    r.tenant != NIL_UUID && r.input >= 0 && r.output >= 0 && r.total >= 0
  }

  function CostOf(r: UsageRecord): real {
    if r.cost.None? then 0.0 else r.cost.value
  }

  // ---------- period aggregates ----------

  datatype PeriodUsage = PeriodUsage(tokens: int, cost: real)
  type Periods = map<int, PeriodUsage>
  datatype TenantState = TenantState(daily: Periods, monthly: Periods)
  type States = map<Uuid, TenantState>

  // How the arithmetic and the calendar are done: addition of costs, and the
  // month (numbered in any way) a day lies in.
  datatype Books = Books(add: (real, real) -> real, monthOf: int -> int)

  const NO_USAGE: PeriodUsage := PeriodUsage(0, 0.0)
  const NO_STATE: TenantState := TenantState(map[], map[])

  function Usage(m: Periods, k: int): PeriodUsage {
    if k in m then m[k] else NO_USAGE
  }

  function Bump(b: Books, u: PeriodUsage, tokens: int, cost: real): PeriodUsage {
    PeriodUsage(u.tokens + tokens, b.add(u.cost, cost))
  }

  function BumpState(b: Books, s: TenantState, tokens: int, cost: real, at: Time): TenantState {
    var d, m := DayOf(at), b.monthOf(DayOf(at));
    TenantState(s.daily[d := Bump(b, Usage(s.daily, d), tokens, cost)],
                s.monthly[m := Bump(b, Usage(s.monthly, m), tokens, cost)])
  }

  function StateFor(states: States, tenant: Uuid): TenantState {
    if tenant in states then states[tenant] else NO_STATE
  }

  datatype TokenUsage = TokenUsage(dailyTokens: int, monthlyTokens: int, dailyCost: real, monthlyCost: real)

  function UsageAt(b: Books, s: TenantState, at: Time): TokenUsage {
    var d, m := Usage(s.daily, DayOf(at)), Usage(s.monthly, b.monthOf(DayOf(at)));
    TokenUsage(d.tokens, m.tokens, d.cost, m.cost)
  }

  // ---------- recomputation ----------

  // A tenant's state, recomputed from the records in stored order.
  function Recomputed(b: Books, records: seq<UsageRecord>, tenant: Uuid): TenantState {
    if records == [] then NO_STATE
    else
      var n := |records| - 1;
      var s, r := Recomputed(b, records[..n], tenant), records[n];
      if r.tenant == tenant then BumpState(b, s, r.total, CostOf(r), r.createdAt) else s
  }

  function Tenants(records: seq<UsageRecord>): set<Uuid> {
    set r | r in records :: r.tenant
  }

  function Installed(b: Books, states: States, records: seq<UsageRecord>, tenants: set<Uuid>): States {
    states + map t | t in tenants :: Recomputed(b, records, t)
  }

  function Reconciled(b: Books, states: States, records: seq<UsageRecord>): States {
    Installed(b, states, records, Tenants(records))
  }

  // ---------- limits ----------

  datatype BudgetConfig = BudgetConfig(
    dailyTokenLimit: Option<int>, monthlyTokenLimit: Option<int>,
    dailyCostLimit: Option<real>, monthlyCostLimit: Option<real>, hardStop: bool, alertThresholdPct: real)

  datatype Level = Within | Alert | Exceeded

  function Threshold(c: BudgetConfig): real {
    if c.alertThresholdPct <= 0.0 || c.alertThresholdPct > 100.0 then 100.0 else c.alertThresholdPct
  }

  function LimitLevel(current: real, limit: Option<real>, threshold: real): Level {
    if limit.None? || limit.value <= 0.0 then Within
    else
      var pct := current / limit.value * 100.0;
      if pct >= 100.0 then Exceeded else if pct >= threshold then Alert else Within
  }

  function AsReal(limit: Option<int>): Option<real> {
    if limit.None? then None else Some(limit.value as real)
  }

  function Levels(c: BudgetConfig, u: TokenUsage): seq<Level> {
    var t := Threshold(c);
    [LimitLevel(u.dailyTokens as real, AsReal(c.dailyTokenLimit), t), LimitLevel(u.dailyCost, c.dailyCostLimit, t),
     LimitLevel(u.monthlyTokens as real, AsReal(c.monthlyTokenLimit), t),
     LimitLevel(u.monthlyCost, c.monthlyCostLimit, t)]
  }

  datatype Verdict = Verdict(allowed: bool, alert: bool)

  function Check(c: Option<BudgetConfig>, u: TokenUsage): Verdict {
    if c.None? then Verdict(true, false)
    else if Exceeded in Levels(c.value, u) then Verdict(!c.value.hardStop, true)
    else Verdict(true, Alert in Levels(c.value, u))
  }

  predicate Reaches(current: real, limit: Option<real>) {
    limit.Some? && limit.value > 0.0 && current >= limit.value
  }

  // A call is refused exactly under a hard stop with a positive limit reached:
  // percentages play no part in that.
  lemma RefusedIffLimitReached(c: BudgetConfig, u: TokenUsage)
    ensures !Check(Some(c), u).allowed <==> c.hardStop && AnyReached(c, u)
    ensures !Check(Some(c), u).allowed ==> Check(Some(c), u).alert
  {
    hide LimitLevel;
    var t, ls := Threshold(c), Levels(c, u);
    ReachedIffExceeded(u.dailyTokens as real, AsReal(c.dailyTokenLimit), t);
    ReachedIffExceeded(u.monthlyTokens as real, AsReal(c.monthlyTokenLimit), t);
    ReachedIffExceeded(u.dailyCost, c.dailyCostLimit, t);
    ReachedIffExceeded(u.monthlyCost, c.monthlyCostLimit, t);
    assert Exceeded in ls <==> ls[0] == Exceeded || ls[1] == Exceeded || ls[2] == Exceeded || ls[3] == Exceeded;
  }

  predicate AnyReached(c: BudgetConfig, u: TokenUsage) {
    || Reaches(u.dailyTokens as real, AsReal(c.dailyTokenLimit))
    || Reaches(u.monthlyTokens as real, AsReal(c.monthlyTokenLimit))
    || Reaches(u.dailyCost, c.dailyCostLimit)
    || Reaches(u.monthlyCost, c.monthlyCostLimit)
  }

  lemma ReachedIffExceeded(current: real, limit: Option<real>, threshold: real)
    ensures LimitLevel(current, limit, threshold) == Exceeded <==> Reaches(current, limit)
  {
    if limit.Some? && limit.value > 0.0 { QuotientAtLeastOne(current, limit.value); }
  }

  lemma QuotientAtLeastOne(x: real, l: real)
    requires l > 0.0
    ensures x / l >= 1.0 <==> x >= l
  {
    var q := x / l;
    assert (q - 1.0) * l == x - l;
    SignOfProduct(q - 1.0, l);
  }

  lemma SignOfProduct(x: real, l: real)
    requires l > 0.0
    ensures x * l >= 0.0 <==> x >= 0.0
  {
  }

  // ---------- the classes ----------

  class InMemoryRepository {
    var records: seq<UsageRecord>

    constructor ()
      ensures records == []
    {
      records := [];
    }

    method SaveRecord(r: UsageRecord) returns (ok: bool)
      modifies this
      ensures ok <==> ValidRecord(r)
      ensures records == if ok then old(records) + [r] else old(records)
    {
      ok := ValidRecord(r);
      if ok { records := records + [r]; }
    }
  }

  class InMemoryBudgetChecker {
    const books: Books
    var configs: map<Uuid, BudgetConfig>
    var states: States

    constructor (books: Books, configs: map<Uuid, BudgetConfig>)
      ensures this.books == books && this.configs == configs && states == map[]
    {
      this.books, this.configs, states := books, configs, map[];
    }

    method RecordUsage(tenant: Uuid, tokens: int, cost: real, at: Time)
      modifies this`states
      ensures states == old(states)[tenant := BumpState(books, StateFor(old(states), tenant), tokens, cost, at)]
    {
      var day, month := DayOf(at), books.monthOf(DayOf(at));
      var st := if tenant in states then states[tenant] else NO_STATE;
      var daily, monthly := st.daily, st.monthly;
      if day !in daily { daily := daily[day := NO_USAGE]; }
      daily := daily[day := Bump(books, daily[day], tokens, cost)];
      if month !in monthly { monthly := monthly[month := NO_USAGE]; }
      monthly := monthly[month := Bump(books, monthly[month], tokens, cost)];
      assert daily == st.daily[day := Bump(books, Usage(st.daily, day), tokens, cost)];
      assert monthly == st.monthly[month := Bump(books, Usage(st.monthly, month), tokens, cost)];
      states := states[tenant := TenantState(daily, monthly)];
    }

    method CurrentUsage(tenant: Uuid, at: Time) returns (u: TokenUsage)
      ensures u == UsageAt(books, StateFor(states, tenant), at)
    {
      u := TokenUsage(0, 0, 0.0, 0.0);
      if tenant !in states { return; }
      var st := states[tenant];
      if DayOf(at) in st.daily {
        u := u.(dailyTokens := st.daily[DayOf(at)].tokens, dailyCost := st.daily[DayOf(at)].cost);
      }
      var month := books.monthOf(DayOf(at));
      if month in st.monthly {
        u := u.(monthlyTokens := st.monthly[month].tokens, monthlyCost := st.monthly[month].cost);
      }
    }

    method ResetState(tenant: Uuid, daily: Periods, monthly: Periods)
      modifies this`states
      ensures states == old(states)[tenant := TenantState(daily, monthly)]
    {
      states := states[tenant := TenantState(daily, monthly)];
    }
  }

  class AccountingService {
    const repo: InMemoryRepository
    const checker: InMemoryBudgetChecker

    constructor (repo: InMemoryRepository, checker: InMemoryBudgetChecker)
      ensures this.repo == repo && this.checker == checker
    {
      this.repo, this.checker := repo, checker;
    }

    // The record is stored even when the verdict is a refusal. A missing ID and
    // creation time are filled in first.
    method RecordUsage(given: UsageRecord, freshId: Uuid, now: Time) returns (saved: bool, v: Verdict)
      modifies repo, checker`states
      ensures var r := StampedRecord(given, freshId, now);
        && (saved <==> ValidRecord(r))
        && repo.records == (if saved then old(repo.records) + [r] else old(repo.records))
        && checker.states == (if saved then Recorded(checker.books, old(checker.states), r) else old(checker.states))
        && (saved ==> v == Check(if r.tenant in checker.configs then Some(checker.configs[r.tenant]) else None,
                                 UsageAt(checker.books, StateFor(checker.states, r.tenant), r.createdAt)))
    {
      var r := given;
      if r.id == NIL_UUID { r := r.(id := freshId); }
      if r.createdAt == ZERO_TIME { r := r.(createdAt := now); }
      v := Verdict(true, false);
      saved := repo.SaveRecord(r);
      if !saved { return; }
      checker.RecordUsage(r.tenant, r.total, CostOf(r), r.createdAt);
      var usage := checker.CurrentUsage(r.tenant, r.createdAt);
      v := Check(if r.tenant in checker.configs then Some(checker.configs[r.tenant]) else None, usage);
    }
  }

  function StampedRecord(r: UsageRecord, freshId: Uuid, now: Time): UsageRecord {
    r.(id := if r.id == NIL_UUID then freshId else r.id,
       createdAt := if r.createdAt == ZERO_TIME then now else r.createdAt)
  }

  function Recorded(b: Books, states: States, r: UsageRecord): States {
    states[r.tenant := BumpState(b, StateFor(states, r.tenant), r.total, CostOf(r), r.createdAt)]
  }

  // ---------- ReconcileJob.Run ----------

  datatype PeriodKey = PeriodKey(tenant: Uuid, period: int)
  type Aggregate = map<PeriodKey, PeriodUsage>

  function AggUsage(a: Aggregate, k: PeriodKey): PeriodUsage {
    if k in a then a[k] else NO_USAGE
  }

  // The aggregates hold each tenant's recomputed periods, and nothing else.
  predicate Holds(a: Aggregate, tenant: Uuid, m: Periods) {
    && (forall k :: k in a && k.tenant == tenant ==> k.period in m && m[k.period] == a[k])
    && (forall p :: p in m ==> PeriodKey(tenant, p) in a)
  }

  ghost predicate Aggregates(b: Books, records: seq<UsageRecord>, daily: Aggregate, monthly: Aggregate) {
    && (forall t: Uuid :: Holds(daily, t, Recomputed(b, records, t).daily))
    && (forall t: Uuid :: Holds(monthly, t, Recomputed(b, records, t).monthly))
    && (forall k :: k in daily ==> k.tenant in Tenants(records))
    && (forall t :: t in Tenants(records) ==> exists k :: k in daily && k.tenant == t)
  }

  function AddTo(b: Books, a: Aggregate, r: UsageRecord, period: int): Aggregate {
    var k := PeriodKey(r.tenant, period);
    a[k := Bump(b, AggUsage(a, k), r.total, CostOf(r))]
  }

  lemma HoldsAdd(b: Books, a: Aggregate, t: Uuid, m: Periods, r: UsageRecord, period: int)
    requires Holds(a, t, m)
    ensures Holds(AddTo(b, a, r, period), t,
      if r.tenant == t then m[period := Bump(b, Usage(m, period), r.total, CostOf(r))] else m)
  {
    if r.tenant == t { assert PeriodKey(t, period) in a <==> period in m; }
  }

  lemma AggregatesAdd(b: Books, records: seq<UsageRecord>, daily: Aggregate, monthly: Aggregate, r: UsageRecord)
    requires Aggregates(b, records, daily, monthly)
    ensures Aggregates(b, records + [r], AddTo(b, daily, r, DayOf(r.createdAt)),
                       AddTo(b, monthly, r, b.monthOf(DayOf(r.createdAt))))
  {
    hide Holds, DayOf, Bump, CostOf;
    var d, m := DayOf(r.createdAt), b.monthOf(DayOf(r.createdAt));
    assert (records + [r])[..|records|] == records;
    forall t: Uuid
      ensures Holds(AddTo(b, daily, r, d), t, Recomputed(b, records + [r], t).daily)
        && Holds(AddTo(b, monthly, r, m), t, Recomputed(b, records + [r], t).monthly)
    {
      HoldsAdd(b, daily, t, Recomputed(b, records, t).daily, r, d);
      HoldsAdd(b, monthly, t, Recomputed(b, records, t).monthly, r, m);
    }
    TenantsAdd(records, r);
    forall t | t in Tenants(records + [r]) ensures exists k :: k in AddTo(b, daily, r, d) && k.tenant == t {
      if t == r.tenant {
        assert PeriodKey(t, d) in AddTo(b, daily, r, d);
      } else {
        var k :| k in daily && k.tenant == t;
        assert k in AddTo(b, daily, r, d);
      }
    }
  }

  lemma TenantsAdd(records: seq<UsageRecord>, r: UsageRecord)
    ensures Tenants(records + [r]) == Tenants(records) + {r.tenant}
  {
    assert r in records + [r];
    forall t | t in Tenants(records) ensures t in Tenants(records + [r]) {
      var x :| x in records && x.tenant == t;
      assert x in records + [r];
    }
  }

  class ReconcileJob {
    const repo: InMemoryRepository
    const checker: InMemoryBudgetChecker

    constructor (repo: InMemoryRepository, checker: InMemoryBudgetChecker)
      ensures this.repo == repo && this.checker == checker
    {
      this.repo, this.checker := repo, checker;
    }

    method Run() returns (count: nat)
      modifies checker`states
      ensures count == |repo.records|
      ensures checker.states == Reconciled(checker.books, old(checker.states), repo.records)
    {
      hide Aggregates, Recomputed, Installed, Slice;
      var daily, monthly := AggregateRecords(repo.records);
      AggregatedTenants(checker.books, repo.records, daily, monthly);
      var tenants := set k | k in daily :: k.tenant;
      ghost var was := checker.states;
      InstallNone(was, checker.books, repo.records);
      var todo := tenants;
      assert tenants - todo == {};
      while todo != {}
        invariant todo <= tenants
        invariant checker.states == Installed(checker.books, was, repo.records, tenants - todo)
        decreases todo
      {
        var t :| t in todo;
        var d := SliceOf(daily, t);
        var m := SliceOf(monthly, t);
        SlicesAreRecomputed(checker.books, repo.records, daily, monthly, t);
        checker.ResetState(t, d, m);
        InstallOneMore(was, checker.books, repo.records, tenants - todo, t);
        assert tenants - todo + {t} == tenants - (todo - {t});
        todo := todo - {t};
      }
      assert tenants - todo == tenants;
      count := |repo.records|;
    }

    // The loop over all records that fills both aggregate maps.
    method AggregateRecords(records: seq<UsageRecord>) returns (daily: Aggregate, monthly: Aggregate)
      ensures Aggregates(checker.books, records, daily, monthly)
    {
      hide Aggregates, DayOf;
      var b := checker.books;
      daily, monthly := map[], map[];
      NothingAggregated(b);
      for i := 0 to |records|
        invariant Aggregates(b, records[..i], daily, monthly)
      {
        var r := records[i];
        assert records[..i + 1] == records[..i] + [r];
        AggregatesAdd(b, records[..i], daily, monthly, r);
        daily := AddTo(b, daily, r, DayOf(r.createdAt));
        monthly := AddTo(b, monthly, r, b.monthOf(DayOf(r.createdAt)));
      }
      assert records[..|records|] == records;
    }

    // The inner loops: one tenant's keys out of the aggregate.
    method SliceOf(a: Aggregate, tenant: Uuid) returns (m: Periods)
      ensures m == Slice(a, tenant)
    {
      m := map[];
      var todo := a.Keys;
      while todo != {}
        invariant todo <= a.Keys
        invariant forall p :: p in m <==> PeriodKey(tenant, p) in a && PeriodKey(tenant, p) !in todo
        invariant forall p :: p in m ==> m[p] == a[PeriodKey(tenant, p)]
        decreases todo
      {
        var k :| k in todo;
        if k.tenant == tenant { m := m[k.period := a[k]]; }
        todo := todo - {k};
      }
      SliceIs(a, tenant, m);
    }
  }

  lemma InstallNone(was: States, b: Books, records: seq<UsageRecord>)
    ensures Installed(b, was, records, {}) == was
  {
  }

  lemma InstallOneMore(was: States, b: Books, records: seq<UsageRecord>, done: set<Uuid>, t: Uuid)
    ensures Installed(b, was, records, done)[t := Recomputed(b, records, t)] == Installed(b, was, records, done + {t})
  {
  }

  function Slice(a: Aggregate, tenant: Uuid): (m: Periods)
    ensures Holds(a, tenant, m)
  {
    var ps := set k | k in a && k.tenant == tenant :: k.period;
    map p | p in ps :: a[PeriodKey(tenant, p)]
  }

  lemma SliceIs(a: Aggregate, tenant: Uuid, m: Periods)
    requires Holds(a, tenant, m)
    ensures m == Slice(a, tenant)
  {
    var s := Slice(a, tenant);
    forall p | p in m ensures p in s && s[p] == m[p] { assert PeriodKey(tenant, p) in a; }
    forall p | p in s ensures p in m { assert PeriodKey(tenant, p) in a; }
    assert m.Keys == s.Keys;
  }

  lemma SlicesAreRecomputed(b: Books, records: seq<UsageRecord>, daily: Aggregate, monthly: Aggregate, t: Uuid)
    requires Aggregates(b, records, daily, monthly)
    ensures TenantState(Slice(daily, t), Slice(monthly, t)) == Recomputed(b, records, t)
  {
    hide Slice, Holds;
    var s := Recomputed(b, records, t);
    assert Holds(daily, t, s.daily) && Holds(monthly, t, s.monthly);
    SliceIs(daily, t, s.daily);
    SliceIs(monthly, t, s.monthly);
  }

  lemma NothingAggregated(b: Books)
    ensures Aggregates(b, [], map[], map[])
  {
  }

  lemma AggregatedTenants(b: Books, records: seq<UsageRecord>, daily: Aggregate, monthly: Aggregate)
    requires Aggregates(b, records, daily, monthly)
    ensures (set k | k in daily :: k.tenant) == Tenants(records)
  {
  }

  // ---------- main results ----------

  lemma {:induction false} NoRecordsNoState(b: Books, records: seq<UsageRecord>, t: Uuid)
    requires t !in Tenants(records)
    ensures Recomputed(b, records, t) == NO_STATE
  {
    if records != [] {
      var n := |records| - 1;
      assert records == records[..n] + [records[n]];
      TenantsAdd(records[..n], records[n]);
      NoRecordsNoState(b, records[..n], t);
    }
  }

  // States kept by recording every stored record once, in order, and nothing else.
  ghost predicate InStep(b: Books, states: States, records: seq<UsageRecord>) {
    states.Keys == Tenants(records) && forall t :: t in states ==> states[t] == Recomputed(b, records, t)
  }

  lemma RecordKeepsInStep(b: Books, states: States, records: seq<UsageRecord>, r: UsageRecord)
    requires InStep(b, states, records)
    ensures InStep(b, Recorded(b, states, r), records + [r])
  {
    hide BumpState;
    TenantsAdd(records, r);
    assert (records + [r])[..|records|] == records;
    if r.tenant !in states { NoRecordsNoState(b, records, r.tenant); }
  }

  datatype Op = RecordOp(given: UsageRecord, freshId: Uuid, now: Time) | ReconcileOp

  datatype Ledger = Ledger(states: States, records: seq<UsageRecord>)

  function After(b: Books, l: Ledger, op: Op): Ledger {
    match op
    case RecordOp(given, freshId, now) =>
      var r := StampedRecord(given, freshId, now);
      if ValidRecord(r) then Ledger(Recorded(b, l.states, r), l.records + [r]) else l
    case ReconcileOp => l.(states := Reconciled(b, l.states, l.records))
  }

  function AfterAll(b: Books, l: Ledger, ops: seq<Op>): Ledger {
    if ops == [] then l else After(b, AfterAll(b, l, ops[..|ops| - 1]), ops[|ops| - 1])
  }

  // Reconciling states that are in step changes nothing at all.
  lemma ReconcileInStepChangesNothing(b: Books, states: States, records: seq<UsageRecord>)
    requires InStep(b, states, records)
    ensures Reconciled(b, states, records) == states
  {
  }

  // Incremental equals recomputed: after any run of recordings and
  // reconciliations from empty, every tenant's usage at every time is what a
  // recomputation over all stored records gives, and one more reconciliation
  // leaves the whole state untouched.
  lemma {:induction false} IncrementalEqualsRecomputed(b: Books, ops: seq<Op>)
    ensures var l := AfterAll(b, Ledger(map[], []), ops);
      && InStep(b, l.states, l.records)
      && Reconciled(b, l.states, l.records) == l.states
    ensures var l := AfterAll(b, Ledger(map[], []), ops);
      forall t: Uuid, at :: UsageAt(b, StateFor(l.states, t), at) == UsageAt(b, Recomputed(b, l.records, t), at)
  {
    hide UsageAt, Recorded, Recomputed;
    var l := AfterAll(b, Ledger(map[], []), ops);
    if ops != [] {
      var n := |ops| - 1;
      IncrementalEqualsRecomputed(b, ops[..n]);
      var before := AfterAll(b, Ledger(map[], []), ops[..n]);
      match ops[n] {
        case RecordOp(given, freshId, now) =>
          RecordKeepsInStep(b, before.states, before.records, StampedRecord(given, freshId, now));
        case ReconcileOp =>
      }
    }
    ReconcileInStepChangesNothing(b, l.states, l.records);
    forall t: Uuid, at ensures UsageAt(b, StateFor(l.states, t), at) == UsageAt(b, Recomputed(b, l.records, t), at) {
      if t !in l.states { NoRecordsNoState(b, l.records, t); }
    }
  }

  // From any state, however it drifted: reconciling is idempotent, leaves a
  // tenant without records alone, and repairs a tenant exactly when it has a
  // stored record or had nothing to repair.
  lemma ReconcileRepairs(b: Books, states: States, records: seq<UsageRecord>, t: Uuid)
    ensures var out := Reconciled(b, states, records);
      && Reconciled(b, out, records) == out
      && (t !in Tenants(records) ==> StateFor(out, t) == StateFor(states, t))
      && (StateFor(out, t) == Recomputed(b, records, t) <==> t in Tenants(records) || StateFor(states, t) == NO_STATE)
  {
    if t !in Tenants(records) { NoRecordsNoState(b, records, t); }
  }
}
