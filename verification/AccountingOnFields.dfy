// packages/accounting: what the figures of budget checks and reports are sums
// of. The sums below know the list of stored records, their fields, and nothing
// of how the checker and the reports keep theirs.
module AccountingOnFields {
  import opened Basics
  import opened Text
  import opened Sorting
  import opened AccountingBudget
  import opened AccountingReports

  // ---------- sums over a list of records ----------

  function Sum(records: seq<UsageRecord>, which: UsageRecord -> bool, what: UsageRecord -> int): int {
    if |records| == 0 then 0
    else
      var r := records[|records| - 1];
      Sum(records[..|records| - 1], which, what) + if which(r) then what(r) else 0
  }

  // Which records, by their fields; 86,400,000,000,000 nanoseconds make a day.
  function OfTenant(t: Uuid): UsageRecord -> bool {
    (r: UsageRecord) => r.tenant == t
  }

  function OfDay(t: Uuid, day: int): UsageRecord -> bool {
    (r: UsageRecord) => r.tenant == t && r.createdAt / 86_400_000_000_000 == day
  }

  function OfMonth(t: Uuid, monthOf: int -> int, month: int): UsageRecord -> bool {
    (r: UsageRecord) => r.tenant == t && monthOf(r.createdAt / 86_400_000_000_000) == month
  }

  function OfCaseDay(caseId: Uuid, day: int): UsageRecord -> bool {
    (r: UsageRecord) => r.caseId == Some(caseId) && r.createdAt / 86_400_000_000_000 == day
  }

  function OfProvider(t: Uuid, name: string): UsageRecord -> bool {
    (r: UsageRecord) => r.tenant == t && r.provider == name
  }

  function OfTask(t: Uuid, name: string): UsageRecord -> bool {
    (r: UsageRecord) => r.tenant == t && r.taskType == name
  }

  // And what of them.
  function Input(): UsageRecord -> int { (r: UsageRecord) => r.input }
  function Output(): UsageRecord -> int { (r: UsageRecord) => r.output }
  function Total(): UsageRecord -> int { (r: UsageRecord) => r.total }
  function One(): UsageRecord -> int { (r: UsageRecord) => 1 }

  // Costs in stored order, as the books add them; a record without a cost adds 0.
  function Costs(add: (real, real) -> real, records: seq<UsageRecord>, which: UsageRecord -> bool): real {
    if |records| == 0 then 0.0
    else
      var r, before := records[|records| - 1], Costs(add, records[..|records| - 1], which);
      if which(r) then add(before, if r.cost.Some? then r.cost.value else 0.0) else before
  }

  // The same, but a record without a cost adds nothing.
  function KnownCosts(add: (real, real) -> real, records: seq<UsageRecord>, which: UsageRecord -> bool): real {
    if |records| == 0 then 0.0
    else
      var r, before := records[|records| - 1], KnownCosts(add, records[..|records| - 1], which);
      if which(r) && r.cost.Some? then add(before, r.cost.value) else before
  }

  // With exact addition both are the sum of the costs there are.
  function CostSum(records: seq<UsageRecord>, which: UsageRecord -> bool): real {
    if |records| == 0 then 0.0
    else
      var r := records[|records| - 1];
      CostSum(records[..|records| - 1], which) + if which(r) && r.cost.Some? then r.cost.value else 0.0
  }

  lemma {:induction false} ExactSums(add: (real, real) -> real, records: seq<UsageRecord>, which: UsageRecord -> bool)
    requires forall x, y :: add(x, y) == x + y
    ensures Costs(add, records, which) == CostSum(records, which) == KnownCosts(add, records, which)
  {
    if records != [] { ExactSums(add, records[..|records| - 1], which); }
  }

  // ---------- the calendar ----------

  lemma DayInNanoseconds(t: Time, d: int)
    ensures DayOf(t) == d <==> d * 86_400_000_000_000 <= t < (d + 1) * 86_400_000_000_000
  {
  }

  // ---------- the budget ----------

  // What the service stores of a list of calls: the valid ones, in order, with
  // ID and time filled in.
  function StoredBy(ops: seq<Op>): seq<UsageRecord> {
    if |ops| == 0 then []
    else
      var n := |ops| - 1;
      match ops[n]
      case ReconcileOp => StoredBy(ops[..n])
      case RecordOp(r, freshId, now) =>
        StoredBy(ops[..n]) +
        if r.tenant != NIL_UUID && r.input >= 0 && r.output >= 0 && r.total >= 0
        then [r.(id := if r.id == NIL_UUID then freshId else r.id,
                 createdAt := if r.createdAt == 0 then now else r.createdAt)]
        else []
  }

  lemma {:induction false} RecordsAreStored(b: Books, ops: seq<Op>)
    ensures AfterAll(b, Ledger(map[], []), ops).records == StoredBy(ops)
  {
    if ops != [] {
      hide Recorded, Reconciled;
      RecordsAreStored(b, ops[..|ops| - 1]);
    }
  }

  // After any run of recordings and reconciliations, what the checker reads for
  // a tenant at a time is the sum over the tenant's records of that day, and of
  // that month.
  lemma UsageIsSum(b: Books, ops: seq<Op>, t: Uuid, at: Time)
    ensures var today := OfDay(t, at / 86_400_000_000_000);
      var thisMonth := OfMonth(t, b.monthOf, b.monthOf(at / 86_400_000_000_000));
      var u := UsageAt(b, StateFor(AfterAll(b, Ledger(map[], []), ops).states, t), at);
      && u.dailyTokens == Sum(StoredBy(ops), today, Total())
      && u.monthlyTokens == Sum(StoredBy(ops), thisMonth, Total())
      && u.dailyCost == Costs(b.add, StoredBy(ops), today)
      && u.monthlyCost == Costs(b.add, StoredBy(ops), thisMonth)
  {
    hide AfterAll, Recomputed, Sum, Costs, UsageAt, StoredBy;
    RecordsAreStored(b, ops);
    IncrementalEqualsRecomputed(b, ops);
    RecomputedSums(b, StoredBy(ops), t, at);
  }

  lemma {:induction false} RecomputedSums(b: Books, records: seq<UsageRecord>, t: Uuid, at: Time)
    ensures var today := OfDay(t, at / 86_400_000_000_000);
      var thisMonth := OfMonth(t, b.monthOf, b.monthOf(at / 86_400_000_000_000));
      var u := UsageAt(b, Recomputed(b, records, t), at);
      && u.dailyTokens == Sum(records, today, Total()) && u.monthlyTokens == Sum(records, thisMonth, Total())
      && u.dailyCost == Costs(b.add, records, today) && u.monthlyCost == Costs(b.add, records, thisMonth)
  {
    if records != [] { RecomputedSums(b, records[..|records| - 1], t, at); }
  }

  // A call is refused exactly under a hard stop with some positive limit
  // reached, and an alert goes with it exactly if some positive limit is reached
  // to the threshold: the configured percentage, or 100 where that is out of range.
  lemma VerdictOnFields(c: BudgetConfig, u: TokenUsage)
    ensures var v := Check(Some(c), u);
      !v.allowed <==> (
        && c.hardStop
        && (|| (c.dailyTokenLimit.Some? && 0 < c.dailyTokenLimit.value <= u.dailyTokens)
            || (c.monthlyTokenLimit.Some? && 0 < c.monthlyTokenLimit.value <= u.monthlyTokens)
            || (c.dailyCostLimit.Some? && 0.0 < c.dailyCostLimit.value <= u.dailyCost)
            || (c.monthlyCostLimit.Some? && 0.0 < c.monthlyCostLimit.value <= u.monthlyCost)))
    ensures var v := Check(Some(c), u);
      var pct := if 0.0 < c.alertThresholdPct <= 100.0 then c.alertThresholdPct else 100.0;
      v.alert <==>
        (|| (c.dailyTokenLimit.Some? && AtLeast(u.dailyTokens as real, c.dailyTokenLimit.value as real, pct))
         || (c.monthlyTokenLimit.Some? && AtLeast(u.monthlyTokens as real, c.monthlyTokenLimit.value as real, pct))
         || (c.dailyCostLimit.Some? && AtLeast(u.dailyCost, c.dailyCostLimit.value, pct))
         || (c.monthlyCostLimit.Some? && AtLeast(u.monthlyCost, c.monthlyCostLimit.value, pct)))
    ensures Check(None, u) == Verdict(true, false)
  {
    hide LimitLevel, AtLeast;
    var t, ls := Threshold(c), Levels(c, u);
    LevelOnFields(u.dailyTokens as real, AsReal(c.dailyTokenLimit), t);
    LevelOnFields(u.monthlyTokens as real, AsReal(c.monthlyTokenLimit), t);
    LevelOnFields(u.dailyCost, c.dailyCostLimit, t);
    LevelOnFields(u.monthlyCost, c.monthlyCostLimit, t);
    assert forall l :: l in ls <==> l == ls[0] || l == ls[1] || l == ls[2] || l == ls[3];
  }

  // The usage is pct per cent of a positive limit, or more.
  predicate AtLeast(usage: real, limit: real, pct: real) {
    limit > 0.0 && usage * 100.0 >= pct * limit
  }

  lemma LevelOnFields(usage: real, limit: Option<real>, pct: real)
    requires 0.0 < pct <= 100.0
    ensures LimitLevel(usage, limit, pct) == Exceeded <==> limit.Some? && 0.0 < limit.value <= usage
    ensures LimitLevel(usage, limit, pct) != Within <==> limit.Some? && AtLeast(usage, limit.value, pct)
  {
    ReachedIffExceeded(usage, limit, pct);
    if limit.Some? && limit.value > 0.0 {
      var l := limit.value;
      PercentOf(usage, l, pct);
      PercentOf(usage, l, 100.0);
      if usage >= l { LessOfLimit(pct, l); }
    }
  }

  lemma LessOfLimit(pct: real, limit: real)
    requires pct <= 100.0 && limit > 0.0
    ensures pct * limit <= 100.0 * limit
  {
    SignOfProduct(100.0 - pct, limit);
    assert (100.0 - pct) * limit == 100.0 * limit - pct * limit;
  }

  lemma PercentOf(usage: real, limit: real, pct: real)
    requires limit > 0.0
    ensures usage / limit * 100.0 >= pct <==> usage * 100.0 >= pct * limit
  {
    var q := usage / limit * 100.0;
    assert usage / limit * limit == usage;
    assert (q - pct) * limit == usage * 100.0 - pct * limit;
    SignOfProduct(q - pct, limit);
  }

  // ---------- the reports ----------

  // Input, output and total tokens and the number of the records in question.
  predicate CountsAre(c: Counts, records: seq<UsageRecord>, which: UsageRecord -> bool) {
    && c.input == Sum(records, which, Input()) && c.output == Sum(records, which, Output())
    && c.tokens == Sum(records, which, Total()) && c.requests == Sum(records, which, One())
  }

  lemma {:induction false} GroupSums(b: Books, records: seq<UsageRecord>, g: Grouping, k: Key,
                                     which: UsageRecord -> bool)
    requires forall r :: which(r) <==> KeyOf(b, g, r) == Some(k)
    ensures var t := GroupTotals(b, records, g, k);
      && CountsAre(t.counts, records, which)
      && t.cost == if g.ByTenantPeriod? || g.ByCaseDay? then KnownCosts(b.add, records, which)
                   else Costs(b.add, records, which)
  {
    hide KeyOf;
    if records != [] { GroupSums(b, records[..|records| - 1], g, k, which); }
  }

  lemma {:induction false} AllSums(b: Books, records: seq<UsageRecord>, g: Grouping, which: UsageRecord -> bool)
    requires forall r :: which(r) <==> KeyOf(b, g, r).Some?
    requires !g.ByTenantPeriod? && !g.ByCaseDay?
    ensures var t := GroupedTotals(b, records, g);
      CountsAre(t.counts, records, which) && t.cost == Costs(b.add, records, which)
  {
    hide KeyOf;
    if records != [] { AllSums(b, records[..|records| - 1], g, which); }
  }

  // A line per tenant and day or month that has a record, each once, and what is
  // on it.
  predicate TenantLine(b: Books, records: seq<UsageRecord>, granularity: Granularity, line: UsageSummary) {
    && line.summary.key.TenantPeriodKey? && line.tenant == line.summary.key.tenant
    && var k := line.summary.key;
       var which := if granularity == Daily then OfDay(k.tenant, k.period) else OfMonth(k.tenant, b.monthOf, k.period);
       CountsAre(line.summary.totals.counts, records, which)
       && line.summary.totals.cost == KnownCosts(b.add, records, which)
  }

  predicate HasLine(out: seq<UsageSummary>, k: Key) {
    exists i :: 0 <= i < |out| && out[i].summary.key == k
  }

  predicate OneLineEach(out: seq<UsageSummary>) {
    forall i, j :: 0 <= i < j < |out| ==> out[i].summary.key != out[j].summary.key
  }

  lemma TenantSummaries(b: Books, records: seq<UsageRecord>, granularity: Granularity)
    ensures var out := UsageSummaries(b, records, ByTenantPeriod(granularity));
      && (forall i :: 0 <= i < |out| ==> TenantLine(b, records, granularity, out[i]))
      && OneLineEach(out)
      && (forall j :: 0 <= j < |records| ==> HasLine(out, TenantPeriodKey(records[j].tenant,
            var day := records[j].createdAt / 86_400_000_000_000;
            if granularity == Daily then day else b.monthOf(day))))
  {
    hide GroupTotals, Seen, OwnerOf, Sum, KnownCosts, CountsAre;
    var g := ByTenantPeriod(granularity);
    var out, ks := UsageSummaries(b, records, g), Seen(b, records, g);
    SeenFacts(b, records, g);
    forall i | 0 <= i < |out| ensures TenantLine(b, records, granularity, out[i]) {
      var k := ks[i];
      assert k in ks;
      var first := OwnerIsFirst(b, records, g, k);
      GroupSums(b, records, g, k,
                if granularity == Daily then OfDay(k.tenant, k.period) else OfMonth(k.tenant, b.monthOf, k.period));
    }
    LinesForAll(b, records, g);
  }

  lemma LinesForAll(b: Books, records: seq<UsageRecord>, g: Grouping)
    ensures forall j :: 0 <= j < |records| && KeyOf(b, g, records[j]).Some? ==>
      HasLine(UsageSummaries(b, records, g), KeyOf(b, g, records[j]).value)
  {
    hide KeyOf, GroupTotals, Seen, OwnerOf;
    var out, ks := UsageSummaries(b, records, g), Seen(b, records, g);
    SeenFacts(b, records, g);
    forall j | 0 <= j < |records| && KeyOf(b, g, records[j]).Some? ensures HasLine(out, KeyOf(b, g, records[j]).value) {
      var i :| 0 <= i < |ks| && ks[i] == KeyOf(b, g, records[j]).value;
      assert out[i].summary.key == ks[i];
    }
  }

  // A line per case and day; records without a case are on none. The tenant is
  // that of some record of the line.
  predicate CaseLine(b: Books, records: seq<UsageRecord>, line: UsageSummary) {
    && line.summary.key.CaseDayKey?
    && var which := OfCaseDay(line.summary.key.caseId, line.summary.key.day);
       CountsAre(line.summary.totals.counts, records, which)
       && line.summary.totals.cost == KnownCosts(b.add, records, which)
       && exists j :: 0 <= j < |records| && which(records[j]) && records[j].tenant == line.tenant
  }

  lemma CaseSummaries(b: Books, records: seq<UsageRecord>)
    ensures var out := UsageSummaries(b, records, ByCaseDay);
      && (forall i :: 0 <= i < |out| ==> CaseLine(b, records, out[i]))
      && OneLineEach(out)
      && (forall j :: 0 <= j < |records| && records[j].caseId.Some? ==>
            HasLine(out, CaseDayKey(records[j].caseId.value, records[j].createdAt / 86_400_000_000_000)))
  {
    hide GroupTotals, Seen, OwnerOf, Sum, KnownCosts, CountsAre;
    var g := ByCaseDay;
    var out, ks := UsageSummaries(b, records, g), Seen(b, records, g);
    SeenFacts(b, records, g);
    forall i | 0 <= i < |out| ensures CaseLine(b, records, out[i]) {
      var k := ks[i];
      assert k in ks;
      var first := OwnerIsFirst(b, records, g, k);
      var which := OfCaseDay(k.caseId, k.day);
      GroupSums(b, records, g, k, which);
      assert which(records[first]);
    }
    LinesForAll(b, records, g);
  }

  // The lines of a breakdown: one per name the tenant's records carry, in the
  // order of the names.
  predicate NameLine(b: Books, records: seq<UsageRecord>, t: Uuid, byProvider: bool, line: Summary) {
    && line.key.NameKey?
    && var which := if byProvider then OfProvider(t, line.key.name) else OfTask(t, line.key.name);
       CountsAre(line.totals.counts, records, which) && line.totals.cost == Costs(b.add, records, which)
  }

  predicate HasName(out: seq<Summary>, name: string) {
    exists i :: 0 <= i < |out| && out[i].key == NameKey(name)
  }

  predicate LinesByName(b: Books, records: seq<UsageRecord>, t: Uuid, byProvider: bool, out: seq<Summary>) {
    && (forall i :: 0 <= i < |out| ==> NameLine(b, records, t, byProvider, out[i]))
    && (forall i, j :: 0 <= i < j < |out| ==> StrLess(out[i].key.name, out[j].key.name))
    && (forall j :: 0 <= j < |records| && records[j].tenant == t ==>
          HasName(out, if byProvider then records[j].provider else records[j].taskType))
  }

  lemma BreakdownOnFields(b: Books, records: seq<UsageRecord>, t: Uuid, byProvider: bool, out: seq<Summary>)
    requires Breakdown(b, records, if byProvider then ByProvider(t) else ByTask(t), out)
    ensures LinesByName(b, records, t, byProvider, out)
  {
    hide GroupTotals, Seen, Sum, Costs, CountsAre, StrLess;
    var g := if byProvider then ByProvider(t) else ByTask(t);
    SeenFacts(b, records, g);
    forall i | 0 <= i < |out| ensures NameLine(b, records, t, byProvider, out[i]) {
      assert out[i].key in Seen(b, records, g);
      var name := out[i].key.name;
      GroupSums(b, records, g, out[i].key, if byProvider then OfProvider(t, name) else OfTask(t, name));
    }
    forall j | 0 <= j < |records| && records[j].tenant == t
      ensures HasName(out, if byProvider then records[j].provider else records[j].taskType)
    {
      assert KeyOf(b, g, records[j]).value in Seen(b, records, g);
    }
    forall i, j | 0 <= i < j < |out| ensures StrLess(out[i].key.name, out[j].key.name) {
      assert !ByName(out[j], out[i]) && out[i].key != out[j].key;
      StrLessTotal(out[i].key.name, out[j].key.name);
    }
  }

  // The two breakdowns, the totals and the trend of the dashboard.
  lemma DashboardOnFields(b: Books, records: seq<UsageRecord>, t: Uuid, now: Time, byProvider: seq<Summary>,
                          byTask: seq<Summary>)
    requires Breakdown(b, records, ByProvider(t), byProvider) && Breakdown(b, records, ByTask(t), byTask)
    ensures LinesByName(b, records, t, true, byProvider) && LinesByName(b, records, t, false, byTask)
    ensures var all := GroupedTotals(b, records, ByProvider(t));
      CountsAre(all.counts, records, OfTenant(t)) && all.cost == Costs(b.add, records, OfTenant(t))
    ensures forall day :: now / 86_400_000_000_000 - 6 <= day <= now / 86_400_000_000_000 ==>
      var shown := TrendOf(day, GroupTotals(b, records, ByRecentDay(t, DayOf(now) - 6), DayKey(day)));
      && shown.day == day && shown.tokens == Sum(records, OfDay(t, day), Total())
      && shown.requests == Sum(records, OfDay(t, day), One()) && shown.cost == Costs(b.add, records, OfDay(t, day))
  {
    hide GroupTotals, GroupedTotals, Seen, Sum, Costs, Breakdown, LinesByName;
    BreakdownOnFields(b, records, t, true, byProvider);
    BreakdownOnFields(b, records, t, false, byTask);
    AllSums(b, records, ByProvider(t), OfTenant(t));
    forall day | now / 86_400_000_000_000 - 6 <= day <= now / 86_400_000_000_000
      ensures var shown := TrendOf(day, GroupTotals(b, records, ByRecentDay(t, DayOf(now) - 6), DayKey(day)));
        && shown.day == day && shown.tokens == Sum(records, OfDay(t, day), Total())
        && shown.requests == Sum(records, OfDay(t, day), One()) && shown.cost == Costs(b.add, records, OfDay(t, day))
    {
      GroupSums(b, records, ByRecentDay(t, DayOf(now) - 6), DayKey(day), OfDay(t, day));
    }
  }
}
