// packages/accounting: aggregation.go, dashboard.go, and the export side of
// service.go and repository.go. Grouping must lose nothing and count nothing
// twice; paging must return every record once.
module AccountingReports {
  import opened Basics
  import opened Text
  import opened Sorting
  import opened AccountingBudget

  datatype Counts = Counts(input: int, output: int, tokens: int, requests: int)
  datatype Totals = Totals(counts: Counts, cost: real)

  const NOTHING: Totals := Totals(Counts(0, 0, 0, 0), 0.0)

  function AddCounts(c: Counts, d: Counts): Counts {
    Counts(c.input + d.input, c.output + d.output, c.tokens + d.tokens, c.requests + d.requests)
  }

  function CountsOf(r: UsageRecord): Counts {
    Counts(r.input, r.output, r.total, 1)
  }

  // ---------- the groupings the reports use ----------

  datatype Granularity = Daily | Monthly

  datatype Grouping =
    | ByTenantPeriod(granularity: Granularity)
    | ByCaseDay
    | ByProvider(tenant: Uuid)
    | ByTask(tenant: Uuid)
    | ByRecentDay(tenant: Uuid, cutoff: int)

  datatype Key =
    | TenantPeriodKey(tenant: Uuid, period: int)
    | CaseDayKey(caseId: Uuid, day: int)
    | NameKey(name: string)
    | DayKey(day: int)

  // A record's group, None when the report skips the record.
  function KeyOf(b: Books, g: Grouping, r: UsageRecord): Option<Key> {
    match g
    case ByTenantPeriod(Daily) => Some(TenantPeriodKey(r.tenant, DayOf(r.createdAt)))
    case ByTenantPeriod(Monthly) => Some(TenantPeriodKey(r.tenant, b.monthOf(DayOf(r.createdAt))))
    case ByCaseDay => if r.caseId.None? then None else Some(CaseDayKey(r.caseId.value, DayOf(r.createdAt)))
    case ByProvider(t) => if r.tenant == t then Some(NameKey(r.provider)) else None
    case ByTask(t) => if r.tenant == t then Some(NameKey(r.taskType)) else None
    case ByRecentDay(t, cutoff) =>
      if r.tenant == t && DayOf(r.createdAt) >= cutoff then Some(DayKey(DayOf(r.createdAt))) else None
  }

  // The aggregations add no cost for a record without one; the dashboard adds 0.
  function AddRecord(b: Books, g: Grouping, t: Totals, r: UsageRecord): Totals {
    Totals(AddCounts(t.counts, CountsOf(r)),
           if r.cost.None? && (g.ByTenantPeriod? || g.ByCaseDay?) then t.cost else b.add(t.cost, CostOf(r)))
  }

  // The running total over the records of one group, in stored order.
  function GroupTotals(b: Books, records: seq<UsageRecord>, g: Grouping, k: Key): Totals {
    if records == [] then NOTHING
    else
      var n := |records| - 1;
      var t := GroupTotals(b, records[..n], g, k);
      if KeyOf(b, g, records[n]) == Some(k) then AddRecord(b, g, t, records[n]) else t
  }

  // The running total over every record that has a group.
  function GroupedTotals(b: Books, records: seq<UsageRecord>, g: Grouping): Totals {
    if records == [] then NOTHING
    else
      var n := |records| - 1;
      var t := GroupedTotals(b, records[..n], g);
      if KeyOf(b, g, records[n]).Some? then AddRecord(b, g, t, records[n]) else t
  }

  // The groups in order of first appearance.
  function Seen(b: Books, records: seq<UsageRecord>, g: Grouping): seq<Key> {
    if records == [] then []
    else
      var n := |records| - 1;
      var ks, k := Seen(b, records[..n], g), KeyOf(b, g, records[n]);
      if k.Some? && k.value !in ks then ks + [k.value] else ks
  }

  predicate Distinct(ks: seq<Key>) {
    forall i, j :: 0 <= i < j < |ks| ==> ks[i] != ks[j]
  }

  // Seen lists each group that has a record, once.
  lemma {:induction false} SeenFacts(b: Books, records: seq<UsageRecord>, g: Grouping)
    ensures Distinct(Seen(b, records, g))
    ensures forall i :: 0 <= i < |records| && KeyOf(b, g, records[i]).Some? ==>
      KeyOf(b, g, records[i]).value in Seen(b, records, g)
    ensures forall k :: k in Seen(b, records, g) ==>
      exists i :: 0 <= i < |records| && KeyOf(b, g, records[i]) == Some(k)
  {
    if records != [] {
      hide KeyOf;
      var n := |records| - 1;
      var init, last := records[..n], KeyOf(b, g, records[n]);
      SeenFacts(b, init, g);
      var ks, all := Seen(b, init, g), Seen(b, records, g);
      assert all == if last.Some? && last.value !in ks then ks + [last.value] else ks;
      forall k | k in all ensures exists i :: 0 <= i < |records| && KeyOf(b, g, records[i]) == Some(k) {
        if k in ks {
          var i :| 0 <= i < |init| && KeyOf(b, g, init[i]) == Some(k);
          assert KeyOf(b, g, records[i]) == Some(k);
        } else {
          assert KeyOf(b, g, records[n]) == Some(k);
        }
      }
      forall i | 0 <= i < |records| && KeyOf(b, g, records[i]).Some? ensures KeyOf(b, g, records[i]).value in all {
        if i < n {
          assert init[i] == records[i] && KeyOf(b, g, init[i]).value in ks;
        } else if last.value !in ks {
          assert all[|ks|] == last.value;
        }
      }
    }
  }

  // ---------- conservation ----------

  ghost predicate ExactCosts(b: Books) {
    forall x, y :: b.add(x, y) == x + y
  }

  // Group totals added up over a list of groups.
  function SumCounts(b: Books, records: seq<UsageRecord>, g: Grouping, ks: seq<Key>): Counts {
    if ks == [] then NOTHING.counts
    else AddCounts(SumCounts(b, records, g, ks[..|ks| - 1]), GroupTotals(b, records, g, ks[|ks| - 1]).counts)
  }

  function SumCosts(b: Books, records: seq<UsageRecord>, g: Grouping, ks: seq<Key>): real {
    if ks == [] then 0.0
    else SumCosts(b, records, g, ks[..|ks| - 1]) + GroupTotals(b, records, g, ks[|ks| - 1]).cost
  }

  lemma {:induction false} SumOfNothing(b: Books, g: Grouping, ks: seq<Key>)
    ensures SumCounts(b, [], g, ks) == NOTHING.counts && SumCosts(b, [], g, ks) == 0.0
  {
    if ks != [] { SumOfNothing(b, g, ks[..|ks| - 1]); }
  }

  predicate Hits(b: Books, g: Grouping, r: UsageRecord, ks: seq<Key>) {
    KeyOf(b, g, r).Some? && KeyOf(b, g, r).value in ks
  }

  // Of several distinct groups a record is in the last one, or among the others,
  // but not both.
  lemma HitsOnce(b: Books, g: Grouping, r: UsageRecord, ks: seq<Key>)
    requires ks != [] && Distinct(ks)
    ensures var m := |ks| - 1;
      && Distinct(ks[..m])
      && (KeyOf(b, g, r) == Some(ks[m]) ==> Hits(b, g, r, ks) && !Hits(b, g, r, ks[..m]))
      && (KeyOf(b, g, r) != Some(ks[m]) ==> (Hits(b, g, r, ks) <==> Hits(b, g, r, ks[..m])))
  {
    hide KeyOf;
    var m := |ks| - 1;
    assert ks == ks[..m] + [ks[m]];
  }

  // One more record adds to exactly one of several distinct groups, if to any.
  lemma {:induction false} SumStep(b: Books, records: seq<UsageRecord>, g: Grouping, ks: seq<Key>)
    requires records != [] && Distinct(ks)
    ensures var n := |records| - 1; var r := records[n];
      && SumCounts(b, records, g, ks) ==
           (if Hits(b, g, r, ks) then AddCounts(SumCounts(b, records[..n], g, ks), CountsOf(r))
            else SumCounts(b, records[..n], g, ks))
      && (ExactCosts(b) ==>
           SumCosts(b, records, g, ks) ==
             SumCosts(b, records[..n], g, ks) + (if Hits(b, g, r, ks) then CostOf(r) else 0.0))
  {
    if ks != [] {
      hide KeyOf, CostOf, CountsOf, GroupTotals, Hits, Distinct;
      var m := |ks| - 1;
      HitsOnce(b, g, records[|records| - 1], ks);
      SumStep(b, records, g, ks[..m]);
      GroupStep(b, records, g, ks[m]);
    }
  }

  lemma GroupStep(b: Books, records: seq<UsageRecord>, g: Grouping, k: Key)
    requires records != []
    ensures var n := |records| - 1;
      GroupTotals(b, records, g, k) ==
        if KeyOf(b, g, records[n]) == Some(k) then AddRecord(b, g, GroupTotals(b, records[..n], g, k), records[n])
        else GroupTotals(b, records[..n], g, k)
  {
  }

  // Grouping conserves: over any list of distinct groups that misses none, the
  // group totals add up to the total over the records that have a group.
  lemma {:induction false} GroupingConserves(b: Books, records: seq<UsageRecord>, g: Grouping, ks: seq<Key>)
    requires Distinct(ks) && forall i :: 0 <= i < |records| && KeyOf(b, g, records[i]).Some? ==>
      KeyOf(b, g, records[i]).value in ks
    ensures SumCounts(b, records, g, ks) == GroupedTotals(b, records, g).counts
    ensures ExactCosts(b) ==> SumCosts(b, records, g, ks) == GroupedTotals(b, records, g).cost
  {
    if records == [] {
      SumOfNothing(b, g, ks);
    } else {
      hide KeyOf, CostOf, CountsOf, SumCounts, SumCosts;
      var n := |records| - 1;
      GroupingConserves(b, records[..n], g, ks);
      SumStep(b, records, g, ks);
    }
  }

  // The tenant-period summaries add up to all the records.
  lemma TenantPeriodsConserve(b: Books, records: seq<UsageRecord>, granularity: Granularity)
    ensures var g := ByTenantPeriod(granularity);
      SumCounts(b, records, g, Seen(b, records, g)) == AllTotals(b, g, records).counts
    ensures var g := ByTenantPeriod(granularity);
      ExactCosts(b) ==> SumCosts(b, records, g, Seen(b, records, g)) == AllTotals(b, g, records).cost
  {
    var g := ByTenantPeriod(granularity);
    SeenFacts(b, records, g);
    GroupingConserves(b, records, g, Seen(b, records, g));
    AllGrouped(b, records, granularity);
  }

  // The running total over every record, as grouping g adds.
  function AllTotals(b: Books, g: Grouping, records: seq<UsageRecord>): Totals {
    if records == [] then NOTHING
    else AddRecord(b, g, AllTotals(b, g, records[..|records| - 1]), records[|records| - 1])
  }

  lemma {:induction false} AllGrouped(b: Books, records: seq<UsageRecord>, granularity: Granularity)
    ensures var g := ByTenantPeriod(granularity); GroupedTotals(b, records, g) == AllTotals(b, g, records)
  {
    if records != [] { AllGrouped(b, records[..|records| - 1], granularity); }
  }

  // ---------- aggregation.go ----------

  datatype Summary = Summary(key: Key, totals: Totals)

  datatype UsageSummary = UsageSummary(tenant: Uuid, summary: Summary)

  // The tenant a group's summary names: that of the record that opened it.
  function OwnerOf(b: Books, records: seq<UsageRecord>, g: Grouping, k: Key): Uuid {
    if records == [] then NIL_UUID
    else
      var n := |records| - 1;
      if KeyOf(b, g, records[n]) == Some(k) && k !in Seen(b, records[..n], g) then records[n].tenant
      else OwnerOf(b, records[..n], g, k)
  }

  function UsageSummaries(b: Books, records: seq<UsageRecord>, g: Grouping): (out: seq<UsageSummary>)
    ensures var ks := Seen(b, records, g);
      |out| == |ks| && forall i :: 0 <= i < |out| ==>
        out[i] == UsageSummary(OwnerOf(b, records, g, ks[i]), Summary(ks[i], GroupTotals(b, records, g, ks[i])))
  {
    var ks := Seen(b, records, g);
    seq(|ks|, i requires 0 <= i < |ks| =>
      UsageSummary(OwnerOf(b, records, g, ks[i]), Summary(ks[i], GroupTotals(b, records, g, ks[i]))))
  }

  // A listed group has a first record, and that is the one it takes its tenant from.
  lemma {:induction false} OwnerIsFirst(b: Books, records: seq<UsageRecord>, g: Grouping, k: Key) returns (i: nat)
    requires k in Seen(b, records, g)
    ensures i < |records| && KeyOf(b, g, records[i]) == Some(k) && OwnerOf(b, records, g, k) == records[i].tenant
    ensures forall j :: 0 <= j < i ==> KeyOf(b, g, records[j]) != Some(k)
  {
    hide KeyOf;
    var n := |records| - 1;
    var init := records[..n];
    if k in Seen(b, init, g) {
      i := OwnerIsFirst(b, init, g, k);
    } else {
      i := n;
      SeenFacts(b, init, g);
      forall j | 0 <= j < n ensures KeyOf(b, g, records[j]) != Some(k) {
        assert init[j] == records[j];
      }
    }
  }

  type Buckets = map<Key, Totals>

  // The buckets a loop over the records has filled.
  ghost predicate Bucketed(b: Books, records: seq<UsageRecord>, g: Grouping, buckets: Buckets) {
    && (forall k :: k in buckets <==> k in Seen(b, records, g))
    && (forall k :: k in buckets ==> buckets[k] == GroupTotals(b, records, g, k))
  }

  // One record into its bucket, as every report's loop does it.
  function Bucket(b: Books, buckets: Buckets, g: Grouping, r: UsageRecord): Buckets {
    match KeyOf(b, g, r)
    case None => buckets
    case Some(k) => buckets[k := AddRecord(b, g, if k in buckets then buckets[k] else NOTHING, r)]
  }

  lemma {:induction false} UnseenGroup(b: Books, records: seq<UsageRecord>, g: Grouping, k: Key)
    requires k !in Seen(b, records, g)
    ensures GroupTotals(b, records, g, k) == NOTHING
  {
    if records != [] {
      hide KeyOf;
      var n := |records| - 1;
      var ks, last := Seen(b, records[..n], g), KeyOf(b, g, records[n]);
      if last.Some? && last.value !in ks { assert (ks + [last.value])[|ks|] == last.value; }
      UnseenGroup(b, records[..n], g, k);
    }
  }

  lemma BucketKeeps(b: Books, records: seq<UsageRecord>, g: Grouping, buckets: Buckets, r: UsageRecord)
    requires Bucketed(b, records, g, buckets)
    ensures Bucketed(b, records + [r], g, Bucket(b, buckets, g, r))
    ensures Seen(b, records + [r], g) ==
      if KeyOf(b, g, r).None? || KeyOf(b, g, r).value in buckets then Seen(b, records, g)
      else Seen(b, records, g) + [KeyOf(b, g, r).value]
  {
    hide KeyOf, AddRecord;
    var all := records + [r];
    assert all[..|records|] == records;
    if KeyOf(b, g, r).Some? && KeyOf(b, g, r).value !in buckets { UnseenGroup(b, records, g, KeyOf(b, g, r).value); }
  }

  type Owners = map<Key, Uuid>

  ghost predicate Owned(b: Books, records: seq<UsageRecord>, g: Grouping, owners: Owners) {
    forall k :: k in Seen(b, records, g) ==> k in owners && owners[k] == OwnerOf(b, records, g, k)
  }

  lemma OwnersKeep(b: Books, records: seq<UsageRecord>, g: Grouping, owners: Owners, r: UsageRecord)
    requires Owned(b, records, g, owners)
    ensures var k := KeyOf(b, g, r);
      var opens := k.Some? && k.value !in Seen(b, records, g);
      Owned(b, records + [r], g, if opens then owners[k.value := r.tenant] else owners)
  {
    hide KeyOf;
    assert (records + [r])[..|records|] == records;
  }

  lemma NoOwners(b: Books, g: Grouping)
    ensures Owned(b, [], g, map[])
  {
  }

  lemma OwnersHold(b: Books, records: seq<UsageRecord>, g: Grouping, owners: Owners)
    requires Owned(b, records, g, owners)
    ensures forall i :: 0 <= i < |Seen(b, records, g)| ==>
      && Seen(b, records, g)[i] in owners
      && owners[Seen(b, records, g)[i]] == OwnerOf(b, records, g, Seen(b, records, g)[i])
  {
  }

  // The loop of both aggregations: buckets map and order slice.
  method Aggregate(b: Books, records: seq<UsageRecord>, g: Grouping) returns (out: seq<UsageSummary>)
    ensures out == UsageSummaries(b, records, g)
  {
    hide KeyOf, AddRecord, GroupTotals, Seen, Bucketed, Owned, OwnerOf;
    var buckets: Buckets := map[];
    var owners: Owners := map[];
    var order: seq<Key> := [];
    NoBuckets(b, g);
    NoOwners(b, g);
    for i := 0 to |records|
      invariant order == Seen(b, records[..i], g) && Bucketed(b, records[..i], g, buckets)
      invariant Owned(b, records[..i], g, owners)
    {
      var r := records[i];
      assert records[..i + 1] == records[..i] + [r];
      BucketKeeps(b, records[..i], g, buckets, r);
      OwnersKeep(b, records[..i], g, owners, r);
      BucketsAreSeen(b, records[..i], g, buckets);
      var k := KeyOf(b, g, r);
      if k.Some? && k.value !in buckets {
        order := order + [k.value];
        owners := owners[k.value := r.tenant];
      }
      buckets := Bucket(b, buckets, g, r);
    }
    assert records[..|records|] == records;
    BucketsHold(b, records, g, buckets);
    OwnersHold(b, records, g, owners);
    out := [];
    for i := 0 to |order|
      invariant |out| == i
      invariant forall j :: 0 <= j < i ==>
        out[j] == UsageSummary(OwnerOf(b, records, g, order[j]),
                               Summary(order[j], GroupTotals(b, records, g, order[j])))
    {
      out := out + [UsageSummary(owners[order[i]], Summary(order[i], buckets[order[i]]))];
    }
  }

  lemma BucketsAreSeen(b: Books, records: seq<UsageRecord>, g: Grouping, buckets: Buckets)
    requires Bucketed(b, records, g, buckets)
    ensures forall k :: k in buckets <==> k in Seen(b, records, g)
  {
  }

  lemma NoBuckets(b: Books, g: Grouping)
    ensures Seen(b, [], g) == [] && Bucketed(b, [], g, map[])
  {
  }

  lemma BucketsHold(b: Books, records: seq<UsageRecord>, g: Grouping, buckets: Buckets)
    requires Bucketed(b, records, g, buckets)
    ensures forall i :: 0 <= i < |Seen(b, records, g)| ==>
      && Seen(b, records, g)[i] in buckets
      && buckets[Seen(b, records, g)[i]] == GroupTotals(b, records, g, Seen(b, records, g)[i])
  {
  }

  method AggregateByTenantPeriod(b: Books, records: seq<UsageRecord>, granularity: string)
    returns (out: Option<seq<UsageSummary>>)
    ensures out == if granularity == "daily" then Some(UsageSummaries(b, records, ByTenantPeriod(Daily)))
                   else if granularity == "monthly" then Some(UsageSummaries(b, records, ByTenantPeriod(Monthly)))
                   else None
  {
    if granularity != "daily" && granularity != "monthly" { return None; }
    var list := Aggregate(b, records, ByTenantPeriod(if granularity == "daily" then Daily else Monthly));
    out := Some(list);
  }

  method AggregateByCasePeriod(b: Books, records: seq<UsageRecord>) returns (out: seq<UsageSummary>)
    ensures out == UsageSummaries(b, records, ByCaseDay)
  {
    out := Aggregate(b, records, ByCaseDay);
  }

  // ---------- dashboard.go ----------

  datatype Trend = Trend(day: int, tokens: int, cost: real, requests: int)
  datatype Dashboard = Dashboard(tenant: Uuid, byProvider: seq<Summary>, byTask: seq<Summary>, trend: seq<Trend>,
                                 totalTokens: int, cost: real, requests: int)

  function NameOf(k: Key): string {
    if k.NameKey? then k.name else ""
  }

  predicate ByName(s: Summary, t: Summary) {
    StrLess(NameOf(s.key), NameOf(t.key))
  }

  // A sorted breakdown: every group of the records once, with its totals.
  predicate Breakdown(b: Books, records: seq<UsageRecord>, g: Grouping, out: seq<Summary>) {
    && (forall i :: 0 <= i < |out| ==>
          out[i].key in Seen(b, records, g) && out[i].totals == GroupTotals(b, records, g, out[i].key))
    && (forall k :: k in Seen(b, records, g) ==> exists i :: 0 <= i < |out| && out[i].key == k)
    && (forall i, j :: 0 <= i < j < |out| ==> out[i].key != out[j].key)
    && Sorted(out, ByName)
  }

  function TrendOf(day: int, t: Totals): Trend {
    Trend(day, t.counts.tokens, t.cost, t.counts.requests)
  }

  class DashboardAPI {
    const books: Books
    const repo: InMemoryRepository

    constructor (books: Books, repo: InMemoryRepository)
      ensures this.books == books && this.repo == repo
    {
      this.books, this.repo := books, repo;
    }

    method GetTenantDashboard(tenant: Uuid, now: Time) returns (d: Dashboard)
      ensures d.tenant == tenant
      ensures Breakdown(books, repo.records, ByProvider(tenant), d.byProvider)
      ensures Breakdown(books, repo.records, ByTask(tenant), d.byTask)
      ensures var t := GroupedTotals(books, repo.records, ByProvider(tenant));
        d.totalTokens == t.counts.tokens && d.cost == t.cost && d.requests == t.counts.requests
      ensures |d.trend| == 7
      ensures forall i :: 0 <= i < 7 ==>
        var day := DayOf(now) - 6 + i;
        d.trend[i] == TrendOf(day, GroupTotals(books, repo.records, ByRecentDay(tenant, DayOf(now) - 6), DayKey(day)))
    {
      hide AddRecord, GroupTotals, GroupedTotals, Seen, Bucketed, DayOf, Breakdown, Bucket;
      var b, records, cutoff := books, repo.records, DayOf(now) - 6;
      var gp, gt, gd := ByProvider(tenant), ByTask(tenant), ByRecentDay(tenant, cutoff);
      var providers: Buckets, tasks: Buckets, days: Buckets := map[], map[], map[];
      var totals := NOTHING;
      NoBuckets(b, gp); NoBuckets(b, gt); NoBuckets(b, gd); NoTotals(b, gp);
      for i := 0 to |records|
        invariant Bucketed(b, records[..i], gp, providers) && Bucketed(b, records[..i], gt, tasks)
        invariant Bucketed(b, records[..i], gd, days) && totals == GroupedTotals(b, records[..i], gp)
      {
        var r := records[i];
        assert records[..i + 1] == records[..i] + [r];
        BucketKeeps(b, records[..i], gp, providers, r);
        BucketKeeps(b, records[..i], gt, tasks, r);
        BucketKeeps(b, records[..i], gd, days, r);
        TotalsStep(b, records[..i], gp, r);
        if r.tenant == tenant {
          totals := AddRecord(b, gp, totals, r);
          providers := Bucket(b, providers, gp, r);
          tasks := Bucket(b, tasks, gt, r);
          if DayOf(r.createdAt) >= cutoff { days := Bucket(b, days, gd, r); } else { SkippedRecord(b, days, gd, r); }
        } else {
          SkippedRecord(b, providers, gp, r);
          SkippedRecord(b, tasks, gt, r);
          SkippedRecord(b, days, gd, r);
        }
      }
      assert records[..|records|] == records;
      var byProvider := Flatten(b, records, gp, providers);
      var byTask := Flatten(b, records, gt, tasks);
      var trend := [];
      for i := 0 to 7
        invariant |trend| == i
        invariant forall j :: 0 <= j < i ==>
          trend[j] == TrendOf(cutoff + j, GroupTotals(b, records, gd, DayKey(cutoff + j)))
      {
        var k := DayKey(cutoff + i);
        BucketedTotals(b, records, gd, days, k);
        trend := trend + [if k in days then TrendOf(cutoff + i, days[k]) else Trend(cutoff + i, 0, 0.0, 0)];
      }
      d := Dashboard(tenant, byProvider, byTask, trend, totals.counts.tokens, totals.cost, totals.counts.requests);
    }

    // One map's values as a slice sorted by name.
    method Flatten(b: Books, records: seq<UsageRecord>, g: Grouping, buckets: Buckets) returns (out: seq<Summary>)
      requires Bucketed(b, records, g, buckets)
      ensures Breakdown(b, records, g, out)
    {
      hide Bucketed, Breakdown, Flat, Sorted, ByName, Insert;
      out := [];
      var todo := buckets.Keys;
      ByNameIsOrder();
      FlatStart(buckets);
      while todo != {}
        invariant todo <= buckets.Keys && Sorted(out, ByName) && Flat(buckets, todo, out)
        decreases todo
      {
        var k :| k in todo;
        var s := Summary(k, buckets[k]);
        ghost var p := InsertSplits(out, s, ByName);
        InsertSorted(out, s, ByName);
        FlatStep(buckets, todo, out, k, p);
        out := Insert(out, s, ByName);
        todo := todo - {k};
      }
      FlatDone(b, records, g, buckets, out);
    }
  }

  // The buckets not in `todo`, each once.
  predicate Flat(buckets: Buckets, todo: set<Key>, out: seq<Summary>) {
    && (forall i :: 0 <= i < |out| ==>
          out[i].key in buckets && out[i].key !in todo && out[i].totals == buckets[out[i].key])
    && (forall k :: k in buckets && k !in todo ==> Lists(out, k))
    && (forall i, j :: 0 <= i < j < |out| ==> out[i].key != out[j].key)
  }

  lemma FlatStart(buckets: Buckets)
    ensures Flat(buckets, buckets.Keys, []) && Sorted<Summary>([], ByName)
  {
  }

  lemma FlatStep(buckets: Buckets, todo: set<Key>, out: seq<Summary>, k: Key, p: nat)
    requires Flat(buckets, todo, out) && k in todo && k in buckets && p <= |out|
    ensures Flat(buckets, todo - {k}, out[..p] + [Summary(k, buckets[k])] + out[p..])
  {
    ListsAfter(out, Summary(k, buckets[k]), p);
  }

  lemma FlatDone(b: Books, records: seq<UsageRecord>, g: Grouping, buckets: Buckets, out: seq<Summary>)
    requires Bucketed(b, records, g, buckets) && Flat(buckets, {}, out) && Sorted(out, ByName)
    ensures Breakdown(b, records, g, out)
  {
    hide Seen, GroupTotals, ByName;
    forall k | k in Seen(b, records, g) ensures exists i :: 0 <= i < |out| && out[i].key == k {
      assert Lists(out, k);
    }
  }

  predicate Lists(out: seq<Summary>, k: Key) {
    exists i :: 0 <= i < |out| && out[i].key == k
  }

  lemma ListsAfter(out: seq<Summary>, s: Summary, p: nat)
    requires p <= |out|
    ensures var r := out[..p] + [s] + out[p..];
      Lists(r, s.key) && forall k :: Lists(out, k) ==> Lists(r, k)
  {
    var r := out[..p] + [s] + out[p..];
    assert r[p] == s;
    forall k | Lists(out, k) ensures Lists(r, k) {
      var i :| 0 <= i < |out| && out[i].key == k;
      assert r[if i < p then i else i + 1] == out[i];
    }
  }

  lemma ByNameIsOrder()
    ensures StrictWeakOrder(ByName)
  {
    forall x: Summary ensures !ByName(x, x) { StrLessTotal(NameOf(x.key), NameOf(x.key)); }
    forall x: Summary, y: Summary, z: Summary | ByName(x, y) && ByName(y, z) ensures ByName(x, z) {
      StrLessTransitive(NameOf(x.key), NameOf(y.key), NameOf(z.key));
    }
    forall x: Summary, y: Summary, z: Summary | !ByName(x, y) && !ByName(y, z) ensures !ByName(x, z) {
      StrLessNegTransitive(NameOf(x.key), NameOf(y.key), NameOf(z.key));
    }
  }

  lemma NoTotals(b: Books, g: Grouping)
    ensures GroupedTotals(b, [], g) == NOTHING
  {
  }

  lemma TotalsStep(b: Books, records: seq<UsageRecord>, g: Grouping, r: UsageRecord)
    ensures GroupedTotals(b, records + [r], g) ==
      if KeyOf(b, g, r).Some? then AddRecord(b, g, GroupedTotals(b, records, g), r) else GroupedTotals(b, records, g)
  {
    assert (records + [r])[..|records|] == records;
  }

  lemma SkippedRecord(b: Books, buckets: Buckets, g: Grouping, r: UsageRecord)
    requires KeyOf(b, g, r) == None
    ensures Bucket(b, buckets, g, r) == buckets
  {
  }

  lemma BucketedTotals(b: Books, records: seq<UsageRecord>, g: Grouping, buckets: Buckets, k: Key)
    requires Bucketed(b, records, g, buckets)
    ensures GroupTotals(b, records, g, k) == if k in buckets then buckets[k] else NOTHING
  {
    if k !in buckets { UnseenGroup(b, records, g, k); }
  }

  // ---------- the dashboard adds up ----------

  function KeysOf(out: seq<Summary>): seq<Key> {
    seq(|out|, i requires 0 <= i < |out| => out[i].key)
  }

  // Any breakdown of a tenant's records, by provider or by task type, adds up to
  // the dashboard's own totals.
  lemma BreakdownAddsUp(b: Books, records: seq<UsageRecord>, g: Grouping, out: seq<Summary>)
    requires Breakdown(b, records, g, out)
    ensures SumCounts(b, records, g, KeysOf(out)) == GroupedTotals(b, records, g).counts
    ensures ExactCosts(b) ==> SumCosts(b, records, g, KeysOf(out)) == GroupedTotals(b, records, g).cost
  {
    hide KeyOf, SumCounts, SumCosts, GroupedTotals, GroupTotals, Seen;
    var ks := KeysOf(out);
    SeenFacts(b, records, g);
    forall i | 0 <= i < |records| && KeyOf(b, g, records[i]).Some? ensures KeyOf(b, g, records[i]).value in ks {
      var j :| 0 <= j < |out| && out[j].key == KeyOf(b, g, records[i]).value;
      assert ks[j] == out[j].key;
    }
    GroupingConserves(b, records, g, ks);
  }

  lemma {:induction false} ProviderAndTaskTotalsAgree(b: Books, records: seq<UsageRecord>, tenant: Uuid)
    ensures GroupedTotals(b, records, ByProvider(tenant)) == GroupedTotals(b, records, ByTask(tenant))
  {
    if records != [] { ProviderAndTaskTotalsAgree(b, records[..|records| - 1], tenant); }
  }

  // The tenant's records whose UTC day lies in the seven days up to `today`.
  function WindowTotals(b: Books, records: seq<UsageRecord>, tenant: Uuid, today: int): Totals {
    if records == [] then NOTHING
    else
      var n := |records| - 1;
      var t, r := WindowTotals(b, records[..n], tenant, today), records[n];
      if r.tenant == tenant && today - 6 <= DayOf(r.createdAt) <= today
      then AddRecord(b, ByRecentDay(tenant, today - 6), t, r) else t
  }

  function WindowKeys(today: int, n: nat): (ks: seq<Key>)
    ensures |ks| == n && forall i :: 0 <= i < n ==> ks[i] == DayKey(today - 6 + i)
  {
    seq(n, i => DayKey(today - 6 + i))
  }

  // The seven trend entries add up to exactly the records of those seven days:
  // records dated after today have a bucket but no entry.
  lemma {:induction false} TrendAddsUp(b: Books, records: seq<UsageRecord>, tenant: Uuid, today: int)
    ensures SumCounts(b, records, ByRecentDay(tenant, today - 6), WindowKeys(today, 7)) ==
      WindowTotals(b, records, tenant, today).counts
    ensures ExactCosts(b) ==>
      SumCosts(b, records, ByRecentDay(tenant, today - 6), WindowKeys(today, 7)) ==
          WindowTotals(b, records, tenant, today).cost
  {
    var g, ks := ByRecentDay(tenant, today - 6), WindowKeys(today, 7);
    if records == [] {
      SumOfNothing(b, g, ks);
    } else {
      hide SumCounts, SumCosts, DayOf, CostOf, CountsOf;
      var n := |records| - 1;
      var day := DayOf(records[n].createdAt);
      TrendAddsUp(b, records[..n], tenant, today);
      SumStep(b, records, g, ks);
      assert DayKey(day) in ks <==> today - 6 <= day <= today by {
        if today - 6 <= day <= today { assert ks[day - today + 6] == DayKey(day); }
      }
    }
  }

  // A record dated after today is collected in a bucket and shown in no entry.
  lemma FutureRecordInNoEntry(b: Books, tenant: Uuid, today: int, r: UsageRecord)
    requires r.tenant == tenant && DayOf(r.createdAt) > today
    ensures GroupedTotals(b, [r], ByRecentDay(tenant, today - 6)).counts.requests == 1
    ensures WindowTotals(b, [r], tenant, today) == NOTHING
  {
    assert [r][..0] == [];
  }

  // ---------- paged export ----------

  function TenantRecords(records: seq<UsageRecord>, tenant: Uuid): seq<UsageRecord> {
    if records == [] then []
    else
      var n := |records| - 1;
      TenantRecords(records[..n], tenant) + if records[n].tenant == tenant then [records[n]] else []
  }

  function InWindow(records: seq<UsageRecord>, from: Time, to: Time): seq<UsageRecord> {
    if records == [] then []
    else
      var n := |records| - 1;
      InWindow(records[..n], from, to) + if from <= records[n].createdAt <= to then [records[n]] else []
  }

  lemma {:induction false} InWindowConcat(a: seq<UsageRecord>, c: seq<UsageRecord>, from: Time, to: Time)
    ensures InWindow(a + c, from, to) == InWindow(a, from, to) + InWindow(c, from, to)
  {
    if c == [] {
      assert a + c == a;
    } else {
      var n := |c| - 1;
      assert (a + c)[..|a| + n] == a + c[..n];
      InWindowConcat(a, c[..n], from, to);
    }
  }

  lemma InWindowStep(s: seq<UsageRecord>, from: Time, to: Time)
    requires s != []
    ensures var n := |s| - 1;
      InWindow(s, from, to) == InWindow(s[..n], from, to) + if from <= s[n].createdAt <= to then [s[n]] else []
  {
  }

  lemma {:induction false} InWindowCounts(s: seq<UsageRecord>, from: Time, to: Time, r: UsageRecord)
    ensures multiset(InWindow(s, from, to))[r] == if from <= r.createdAt <= to then multiset(s)[r] else 0
  {
    if s == [] {
      NoneInWindow(from, to);
    } else {
      hide InWindow;
      var n := |s| - 1;
      InWindowCounts(s[..n], from, to, r);
      InWindowStep(s, from, to);
      assert multiset(s) == multiset(s[..n]) + multiset{s[n]} by {
        assert s == s[..n] + [s[n]];
      }
    }
  }

  // sort.Slice by CreatedAt descending: unstable, but the same arrangement for
  // the same input, which is what paging relies on.
  type Arrange = seq<UsageRecord> -> seq<UsageRecord>

  ghost predicate Descending(s: seq<UsageRecord>) {
    forall i, j :: 0 <= i < j < |s| ==> s[i].createdAt >= s[j].createdAt
  }

  ghost predicate Arranges(arrange: Arrange) {
    forall s :: multiset(arrange(s)) == multiset(s) && Descending(arrange(s))
  }

  const EXPORT_BATCH: nat := 500

  function Page(arrange: Arrange, records: seq<UsageRecord>, tenant: Uuid, limit: nat, offset: nat): seq<UsageRecord> {
    var all := arrange(TenantRecords(records, tenant));
    if offset >= |all| then [] else all[offset..if offset + limit > |all| then |all| else offset + limit]
  }

  class ExportService {
    const arrange: Arrange
    const repo: InMemoryRepository

    constructor (arrange: Arrange, repo: InMemoryRepository)
      ensures this.arrange == arrange && this.repo == repo
    {
      this.arrange, this.repo := arrange, repo;
    }

    method ListRecords(tenant: Uuid, limit: nat, offset: nat) returns (page: seq<UsageRecord>)
      ensures page == Page(arrange, repo.records, tenant, limit, offset)
    {
      var filtered := [];
      for i := 0 to |repo.records|
        invariant filtered == TenantRecords(repo.records[..i], tenant)
      {
        assert repo.records[..i + 1][..i] == repo.records[..i];
        if repo.records[i].tenant == tenant { filtered := filtered + [repo.records[i]]; }
      }
      assert repo.records[..|repo.records|] == repo.records;
      filtered := arrange(filtered);
      if offset >= |filtered| { return []; }
      var end := offset + limit;
      if end > |filtered| { end := |filtered|; }
      page := filtered[offset..end];
    }

    method ExportUsage(tenant: Uuid, from: Time, to: Time) returns (all: seq<UsageRecord>)
      ensures all == InWindow(arrange(TenantRecords(repo.records, tenant)), from, to)
    {
      hide InWindow, TenantRecords;
      ghost var list := arrange(TenantRecords(repo.records, tenant));
      all := [];
      var offset: nat := 0;
      NoneInWindow(from, to);
      var more := true;
      while more
        invariant all == InWindow(list[..if offset < |list| then offset else |list|], from, to)
        invariant !more ==> offset >= |list|
        decreases more, if offset < |list| then |list| - offset else 0
      {
        var batch := ListRecords(tenant, EXPORT_BATCH, offset);
        assert batch == Page(arrange, repo.records, tenant, EXPORT_BATCH, offset);
        ghost var start, stop := Min(offset, |list|), Min(offset + EXPORT_BATCH, |list|);
        assert batch == list[start..stop];
        assert list[..start] + batch == list[..stop];
        InWindowConcat(list[..start], batch, from, to);
        var kept := KeepInWindow(batch, from, to);
        all := all + kept;
        more := |batch| >= EXPORT_BATCH;
        offset := offset + EXPORT_BATCH;
      }
      assert list[..|list|] == list;
    }

    method KeepInWindow(batch: seq<UsageRecord>, from: Time, to: Time) returns (kept: seq<UsageRecord>)
      ensures kept == InWindow(batch, from, to)
    {
      kept := [];
      for i := 0 to |batch|
        invariant kept == InWindow(batch[..i], from, to)
      {
        assert batch[..i + 1][..i] == batch[..i];
        if !(batch[i].createdAt < from) && !(batch[i].createdAt > to) { kept := kept + [batch[i]]; }
      }
      assert batch[..|batch|] == batch;
    }
  }

  function Min(a: nat, b: nat): nat {
    if a < b then a else b
  }

  lemma NoneInWindow(from: Time, to: Time)
    ensures InWindow([], from, to) == []
  {
  }

  lemma {:induction false} TenantRecordsCount(s: seq<UsageRecord>, tenant: Uuid, r: UsageRecord)
    ensures multiset(TenantRecords(s, tenant))[r] == if r.tenant == tenant then multiset(s)[r] else 0
  {
    if s != [] {
      var n := |s| - 1;
      TenantRecordsCount(s[..n], tenant, r);
      assert s == s[..n] + [s[n]];
    }
  }

  // What ExportUsage returns holds each of the tenant's records of the window as
  // often as it is stored, and nothing else, newest first.
  lemma {:induction false} ExportIsExact(arrange: Arrange, records: seq<UsageRecord>, tenant: Uuid, from: Time,
                                         to: Time)
    requires Arranges(arrange)
    ensures var out := InWindow(arrange(TenantRecords(records, tenant)), from, to);
      && (forall r: UsageRecord ::
            multiset(out)[r] == if r.tenant == tenant && from <= r.createdAt <= to then multiset(records)[r] else 0)
      && Descending(out)
  {
    var list := arrange(TenantRecords(records, tenant));
    assert multiset(list) == multiset(TenantRecords(records, tenant)) && Descending(list);
    var out := InWindow(list, from, to);
    forall r: UsageRecord
      ensures multiset(out)[r] == if r.tenant == tenant && from <= r.createdAt <= to then multiset(records)[r] else 0
    {
      InWindowCounts(list, from, to, r);
      TenantRecordsCount(records, tenant, r);
    }
    WindowKeepsOrder(list, from, to);
  }

  lemma {:induction false} WindowKeepsOrder(s: seq<UsageRecord>, from: Time, to: Time)
    requires Descending(s)
    ensures Descending(InWindow(s, from, to))
    ensures forall i :: 0 <= i < |InWindow(s, from, to)| ==> InWindow(s, from, to)[i] in s
  {
    if s == [] {
      NoneInWindow(from, to);
    } else {
      hide InWindow;
      var n := |s| - 1;
      WindowKeepsOrder(s[..n], from, to);
      InWindowStep(s, from, to);
      var kept := InWindow(s[..n], from, to);
      forall i | 0 <= i < |kept| ensures kept[i] in s && kept[i].createdAt >= s[n].createdAt {
        var j :| 0 <= j < n && s[..n][j] == kept[i];
        assert s[j] == kept[i];
      }
    }
  }
}
