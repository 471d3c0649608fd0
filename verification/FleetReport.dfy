/** Daily totals from cumulative fleet counters (tools/fleet-report.py). A process restart sends
    the counters back to zero, so a day's totals are sums of differences within restart-free
    segments. */
module FleetReport {

  datatype Histogram = Histogram(edges: seq<int>, counts: seq<int>)

  datatype Tenant = Tenant(prompt: int, cached: int)

  /** One /metrics line; `ts` is in seconds, and a date is a UTC day number. */
  datatype Snapshot = Snapshot(ts: int, restart: bool, prompt: int, cached: int, computed: int,
                               histogram: Histogram, tenants: map<string, Tenant>)

  datatype MaybeHistogram = Missing | Known(value: Histogram)

  datatype Day = Day(date: int, prompt: int, cached: int, computed: int, histogram: MaybeHistogram,
                     tenants: map<string, Tenant>, snapshots: nat, restarts: nat)

  datatype Outcome = Report(days: seq<Day>) | ValueError

  function Date(row: Snapshot): int { row.ts / 86400 }

  /** A date is the UTC day of 24 hours that the timestamp falls in. */
  lemma DateIsDay(row: Snapshot)
    ensures Date(row) * 24 * 60 * 60 <= row.ts < (Date(row) + 1) * 24 * 60 * 60
  {
  }

  // ----- validation -----

  predicate ValidTenant(tenant: Tenant) {
    0 <= tenant.cached <= tenant.prompt
  }

  predicate ValidSnapshot(row: Snapshot) {
    && 0 <= row.cached <= row.prompt
    && row.computed == row.prompt - row.cached
    && |row.histogram.edges| == |row.histogram.counts|
    && (forall i | 0 <= i < |row.histogram.counts| :: row.histogram.counts[i] >= 0)
    && (forall name | name in row.tenants :: ValidTenant(row.tenants[name]))
  }

  /** What `load_snapshots` accepts: valid rows in append order. */
  ghost predicate Ledger(rows: seq<Snapshot>) {
    && (forall i | 0 <= i < |rows| :: ValidSnapshot(rows[i]))
    && (forall i, j | 0 <= i < j < |rows| :: rows[i].ts <= rows[j].ts)
  }

  // ----- restarts -----

  function Old(row: Snapshot, name: string): Tenant {
    if name in row.tenants then row.tenants[name] else Tenant(0, 0)
  }

  predicate CountersRegressed(previous: Snapshot, current: Snapshot) {
    || current.prompt < previous.prompt
    || current.cached < previous.cached
    || current.computed < previous.computed
    || (previous.histogram.edges == current.histogram.edges
        && exists i | 0 <= i < |previous.histogram.counts| && i < |current.histogram.counts| ::
             current.histogram.counts[i] < previous.histogram.counts[i])
    || exists name | name in previous.tenants ::
         if name in current.tenants then
           || current.tenants[name].prompt < previous.tenants[name].prompt
           || current.tenants[name].cached < previous.tenants[name].cached
         else
           previous.tenants[name].prompt != 0 || previous.tenants[name].cached != 0
  }

  /** Row `i` starts a new segment. */
  predicate Reset(rows: seq<Snapshot>, i: nat)
    requires i < |rows|
  {
    i == 0 || rows[i].restart || CountersRegressed(rows[i - 1], rows[i])
  }

  // ----- readings -----

  /** Every quantity the report adds up: the three counters, each histogram bucket, and each
      tenant's two counters. */
  datatype Metric = Prompt | Cached | Computed | Bucket(index: nat)
                  | TenantPrompt(name: string) | TenantCached(name: string)

  function BucketCount(histogram: Histogram, index: nat): int {
    if index < |histogram.counts| then histogram.counts[index] else 0
  }

  function Reading(row: Snapshot, metric: Metric): int {
    match metric
    case Prompt => row.prompt
    case Cached => row.cached
    case Computed => row.computed
    case Bucket(index) => BucketCount(row.histogram, index)
    case TenantPrompt(name) => Old(row, name).prompt
    case TenantCached(name) => Old(row, name).cached
  }

  function DayReading(day: Day, metric: Metric): int {
    match metric
    case Prompt => day.prompt
    case Cached => day.cached
    case Computed => day.computed
    case Bucket(index) => if day.histogram.Known? then BucketCount(day.histogram.value, index) else 0
    case TenantPrompt(name) => if name in day.tenants then day.tenants[name].prompt else 0
    case TenantCached(name) => if name in day.tenants then day.tenants[name].cached else 0
  }

  // ----- segments -----

  /** Both rows have the metric, in the same unit: every counter, and a bucket when both histograms
      have it and their edges agree. */
  ghost predicate Comparable(previous: Snapshot, current: Snapshot, metric: Metric) {
    metric.Bucket? ==>
      && previous.histogram.edges == current.histogram.edges
      && metric.index < |previous.histogram.counts| && metric.index < |current.histogram.counts|
  }

  ghost predicate Falls(previous: Snapshot, current: Snapshot, metric: Metric) {
    Comparable(previous, current, metric) && Reading(current, metric) < Reading(previous, metric)
  }

  ghost predicate SomethingFell(previous: Snapshot, current: Snapshot) {
    exists metric :: Falls(previous, current, metric)
  }

  /** A process's readings only grow, so a row starts a segment if it is the first, if it says so, or
      if some reading has fallen. */
  ghost predicate StartsSegment(rows: seq<Snapshot>, i: nat)
    requires i < |rows|
  {
    i == 0 || rows[i].restart || SomethingFell(rows[i - 1], rows[i])
  }

  lemma RegressedMeansFallen(previous: Snapshot, current: Snapshot)
    requires CountersRegressed(previous, current) && ValidSnapshot(previous) && ValidSnapshot(current)
    ensures exists metric :: Falls(previous, current, metric)
  {
    if current.prompt < previous.prompt {
      assert Falls(previous, current, Prompt);
    } else if current.cached < previous.cached {
      assert Falls(previous, current, Cached);
    } else if current.computed < previous.computed {
      assert Falls(previous, current, Computed);
    } else if previous.histogram.edges == current.histogram.edges
              && exists i: nat :: i < |previous.histogram.counts| && i < |current.histogram.counts|
                                  && current.histogram.counts[i] < previous.histogram.counts[i] {
      var i: nat :| i < |previous.histogram.counts| && i < |current.histogram.counts|
        && current.histogram.counts[i] < previous.histogram.counts[i];
      assert Falls(previous, current, Bucket(i));
    } else {
      var name :| name in previous.tenants
        && (if name in current.tenants then
              || current.tenants[name].prompt < previous.tenants[name].prompt
              || current.tenants[name].cached < previous.tenants[name].cached
            else previous.tenants[name].prompt != 0 || previous.tenants[name].cached != 0);
      assert ValidTenant(previous.tenants[name]);
      assert Falls(previous, current, TenantPrompt(name)) || Falls(previous, current, TenantCached(name));
    }
  }

  lemma FallenMeansRegressed(previous: Snapshot, current: Snapshot, metric: Metric)
    requires Falls(previous, current, metric) && ValidSnapshot(previous) && ValidSnapshot(current)
    ensures CountersRegressed(previous, current)
  {
    match metric {
      case TenantPrompt(name) => assert name in previous.tenants || ValidTenant(Old(current, name));
      case TenantCached(name) => assert name in previous.tenants || ValidTenant(Old(current, name));
      case Bucket(i) => assert current.histogram.counts[i] < previous.histogram.counts[i];
      case _ =>
    }
  }

  lemma RegressedIsFallen(previous: Snapshot, current: Snapshot)
    requires ValidSnapshot(previous) && ValidSnapshot(current)
    ensures CountersRegressed(previous, current) <==> SomethingFell(previous, current)
  {
    hide CountersRegressed, Falls, ValidSnapshot;
    if CountersRegressed(previous, current) {
      RegressedMeansFallen(previous, current);
    }
    if metric :| Falls(previous, current, metric) {
      FallenMeansRegressed(previous, current, metric);
    }
  }

  /** The report's restart test is that very notion of a segment. */
  lemma ResetStartsSegment(rows: seq<Snapshot>, i: nat)
    requires Ledger(rows) && i < |rows|
    ensures Reset(rows, i) <==> StartsSegment(rows, i)
  {
    hide CountersRegressed, SomethingFell, ValidSnapshot;
    if i > 0 {
      RegressedIsFallen(rows[i - 1], rows[i]);
    }
  }

  /** The readings at the ends of the segments that close before row `n`. */
  ghost function ClosedSegments(rows: seq<Snapshot>, n: nat, metric: Metric): int
    requires n < |rows|
  {
    if n == 0 then 0
    else ClosedSegments(rows, n - 1, metric) + if StartsSegment(rows, n) then Reading(rows[n - 1], metric) else 0
  }

  /** The sum of the last readings of the restart-free segments of the first `n` rows. */
  ghost function SegmentEnds(rows: seq<Snapshot>, n: nat, metric: Metric): int
    requires n <= |rows|
  {
    if n == 0 then 0 else ClosedSegments(rows, n - 1, metric) + Reading(rows[n - 1], metric)
  }

  /** What one row adds. */
  ghost function Delta(rows: seq<Snapshot>, i: nat, metric: Metric): int
    requires i < |rows|
  {
    Reading(rows[i], metric) - if StartsSegment(rows, i) then 0 else Reading(rows[i - 1], metric)
  }

  lemma SegmentStep(rows: seq<Snapshot>, n: nat, metric: Metric)
    requires n < |rows|
    ensures SegmentEnds(rows, n + 1, metric) == SegmentEnds(rows, n, metric) + Delta(rows, n, metric)
  {
  }

  /** How many of the first `n` rows, which are in date order, have a date up to `date`. */
  ghost function Until(rows: seq<Snapshot>, n: nat, date: int): (k: nat)
    requires n <= |rows|
    ensures k <= n
  {
    if n == 0 then 0 else if Date(rows[n - 1]) <= date then n else Until(rows, n - 1, date)
  }

  // ----- what makes the report fail -----

  predicate TenantsDisagree(previous: Snapshot, current: Snapshot) {
    exists name | name in current.tenants ::
      current.tenants[name].cached - Old(previous, name).cached
      > current.tenants[name].prompt - Old(previous, name).prompt
  }

  /** Row `i` cannot be reported: bucket edges changed inside a segment or inside a day, or a
      tenant's cached tokens grew by more than its prompt tokens inside a segment. */
  ghost predicate Unreportable(rows: seq<Snapshot>, i: nat)
    requires 0 < i < |rows|
  {
    || (rows[i].histogram.edges != rows[i - 1].histogram.edges
        && (!StartsSegment(rows, i) || Date(rows[i]) == Date(rows[i - 1])))
    || (!StartsSegment(rows, i)
        && exists name :: Delta(rows, i, TenantCached(name)) > Delta(rows, i, TenantPrompt(name)))
  }

  lemma NoTenantFalls(rows: seq<Snapshot>, i: nat, name: string)
    requires 0 < i < |rows| && !StartsSegment(rows, i)
    ensures Delta(rows, i, TenantPrompt(name)) >= 0 && Delta(rows, i, TenantCached(name)) >= 0
  {
    assert !Falls(rows[i - 1], rows[i], TenantPrompt(name)) && !Falls(rows[i - 1], rows[i], TenantCached(name));
  }

  /** The report's test of a row's tenants says exactly that. */
  lemma DisagreementIsUnreportable(rows: seq<Snapshot>, i: nat)
    requires Ledger(rows) && 0 < i < |rows| && !StartsSegment(rows, i)
    ensures TenantsDisagree(rows[i - 1], rows[i])
            <==> exists name :: Delta(rows, i, TenantCached(name)) > Delta(rows, i, TenantPrompt(name))
  {
    var previous, current := rows[i - 1], rows[i];
    if TenantsDisagree(previous, current) {
      var name :| name in current.tenants
        && current.tenants[name].cached - Old(previous, name).cached
           > current.tenants[name].prompt - Old(previous, name).prompt;
      assert Delta(rows, i, TenantCached(name)) > Delta(rows, i, TenantPrompt(name));
    }
    if name :| Delta(rows, i, TenantCached(name)) > Delta(rows, i, TenantPrompt(name)) {
      NoTenantFalls(rows, i, name);
      assert ValidSnapshot(previous);
      assert name in previous.tenants ==> ValidTenant(previous.tenants[name]);
    }
  }

  // ----- differences -----

  function HistogramDelta(previous: Snapshot, current: Snapshot, reset: bool): Histogram
    requires ValidSnapshot(previous) && ValidSnapshot(current)
    requires reset || previous.histogram.edges == current.histogram.edges
  {
    if reset then
      current.histogram
    else
      Histogram(current.histogram.edges,
                seq(|current.histogram.counts|,
                    i requires 0 <= i < |current.histogram.counts| =>
                      current.histogram.counts[i] - previous.histogram.counts[i]))
  }

  function TenantDelta(previous: Snapshot, current: Snapshot, reset: bool, name: string): Tenant
    requires name in current.tenants
  {
    if reset then current.tenants[name]
    else Tenant(current.tenants[name].prompt - Old(previous, name).prompt,
                current.tenants[name].cached - Old(previous, name).cached)
  }

  function TenantDeltas(previous: Snapshot, current: Snapshot, reset: bool): map<string, Tenant> {
    map name | name in current.tenants && (reset || TenantDelta(previous, current, reset, name) != Tenant(0, 0))
      :: TenantDelta(previous, current, reset, name)
  }

  function AddHistogram(total: Histogram, delta: Histogram): Histogram
    requires |total.counts| == |delta.counts|
  {
    Histogram(total.edges,
              seq(|total.counts|, i requires 0 <= i < |total.counts| => total.counts[i] + delta.counts[i]))
  }

  function AddTenants(total: map<string, Tenant>, delta: map<string, Tenant>): map<string, Tenant> {
    map name | name in total.Keys + delta.Keys ::
      if name !in delta then total[name]
      else if name !in total then delta[name]
      else Tenant(total[name].prompt + delta[name].prompt, total[name].cached + delta[name].cached)
  }

  // ----- the report -----

  ghost predicate Ascending(order: seq<int>) {
    forall i, j | 0 <= i < j < |order| :: order[i] < order[j]
  }

  ghost predicate Indexed(order: seq<int>, byDate: map<int, Day>) {
    && Ascending(order)
    && (forall i | 0 <= i < |order| :: order[i] in byDate && byDate[order[i]].date == order[i])
  }

  ghost function DaysUntil(days: seq<Day>, date: int, metric: Metric): int {
    if days == [] then 0
    else
      var last := days[|days| - 1];
      DaysUntil(days[..|days| - 1], date, metric) + if last.date <= date then DayReading(last, metric) else 0
  }

  function Listed(order: seq<int>, byDate: map<int, Day>): seq<Day>
    requires forall i | 0 <= i < |order| :: order[i] in byDate
  {
    seq(|order|, i requires 0 <= i < |order| => byDate[order[i]])
  }

  /** Each day's own numbers agree: computed is prompt minus cached, and none is negative. */
  ghost predicate Consistent(day: Day) {
    && 0 <= day.cached <= day.prompt
    && day.computed == day.prompt - day.cached
    && (day.histogram.Known? ==>
          && |day.histogram.value.counts| == |day.histogram.value.edges|
          && (forall i | 0 <= i < |day.histogram.value.counts| :: day.histogram.value.counts[i] >= 0))
    && (forall name | name in day.tenants :: ValidTenant(day.tenants[name]))
  }

  /** The report's ledger law: up to the end of every date, every metric summed over the days
      equals the sum of the last readings of the restart-free segments of the rows so far. */
  ghost predicate Conserves(rows: seq<Snapshot>, n: nat, days: seq<Day>)
    requires n <= |rows|
  {
    forall date, metric :: DaysUntil(days, date, metric) == SegmentEnds(rows, Until(rows, n, date), metric)
  }

  /** How many of the first `n` rows fall on `date`, and how many of those restart a process that
      was already being followed. */
  ghost function RowsOn(rows: seq<Snapshot>, n: nat, date: int): nat
    requires n <= |rows|
  {
    if n == 0 then 0 else RowsOn(rows, n - 1, date) + if Date(rows[n - 1]) == date then 1 else 0
  }

  ghost function RestartsOn(rows: seq<Snapshot>, n: nat, date: int): nat
    requires n <= |rows|
  {
    if n == 0 then 0
    else RestartsOn(rows, n - 1, date)
         + if Date(rows[n - 1]) == date && n > 1 && StartsSegment(rows, n - 1) then 1 else 0
  }

  lemma {:induction false} NoRowsOn(rows: seq<Snapshot>, n: nat, date: int)
    requires n <= |rows| && forall i | 0 <= i < n :: Date(rows[i]) < date
    ensures RowsOn(rows, n, date) == RestartsOn(rows, n, date) == 0
  {
    if n > 0 {
      NoRowsOn(rows, n - 1, date);
    }
  }

  /** Inside a segment no reading falls, so the report's "regressed without a restart" checks on
      counters and buckets never fire. */
  lemma SegmentsOnlyGrow(rows: seq<Snapshot>, i: nat, metric: Metric)
    requires Ledger(rows) && 0 < i < |rows|
    requires !StartsSegment(rows, i) && !Unreportable(rows, i)
    ensures Delta(rows, i, metric) >= 0
  {
    if metric.Bucket? {
      assert ValidSnapshot(rows[i - 1]) && ValidSnapshot(rows[i]);
    }
    assert !Falls(rows[i - 1], rows[i], metric);
  }

  function EmptyDay(date: int): Day {
    Day(date, 0, 0, 0, Missing, map[], 0, 0)
  }

  /** One row added to its day. */
  function AddRow(day: Day, previous: Snapshot, row: Snapshot, first: bool, reset: bool): Day
    requires ValidSnapshot(previous) && ValidSnapshot(row)
    requires reset || previous.histogram.edges == row.histogram.edges
    requires day.histogram.Known? ==> |day.histogram.value.counts| == |row.histogram.counts|
  {
    var histogram := HistogramDelta(previous, row, reset);
    Day(day.date,
        day.prompt + row.prompt - if reset then 0 else previous.prompt,
        day.cached + row.cached - if reset then 0 else previous.cached,
        day.computed + row.computed - if reset then 0 else previous.computed,
        Known(match day.histogram case Missing => histogram case Known(total) => AddHistogram(total, histogram)),
        AddTenants(day.tenants, TenantDeltas(previous, row, reset)),
        day.snapshots + 1,
        day.restarts + if !first && reset then 1 else 0)
  }

  lemma TenantsAdd(rows: seq<Snapshot>, i: nat, total: map<string, Tenant>, name: string)
    requires Ledger(rows) && 0 < i < |rows| && !StartsSegment(rows, i)
    ensures var sum := AddTenants(total, TenantDeltas(rows[i - 1], rows[i], false));
            var before := if name in total then total[name] else Tenant(0, 0);
            var after := if name in sum then sum[name] else Tenant(0, 0);
            && after.prompt == before.prompt + Old(rows[i], name).prompt - Old(rows[i - 1], name).prompt
            && after.cached == before.cached + Old(rows[i], name).cached - Old(rows[i - 1], name).cached
  {
    var previous, current := rows[i - 1], rows[i];
    assert ValidSnapshot(previous);
    if name !in current.tenants && name in previous.tenants {
      NoTenantFalls(rows, i, name);
      assert ValidTenant(previous.tenants[name]);
      assert previous.tenants[name] == Tenant(0, 0);
    }
  }

  lemma AddRowAddsDelta(rows: seq<Snapshot>, i: nat, day: Day, metric: Metric)
    requires Ledger(rows) && i < |rows| && (i > 0 ==> !Unreportable(rows, i))
    requires day.histogram.Known? ==> |day.histogram.value.counts| == |rows[i].histogram.counts|
    ensures var previous := if i == 0 then rows[i] else rows[i - 1];
            DayReading(AddRow(day, previous, rows[i], i == 0, StartsSegment(rows, i)), metric)
            == DayReading(day, metric) + Delta(rows, i, metric)
  {
    assert ValidSnapshot(rows[i]);
    if i > 0 {
      assert ValidSnapshot(rows[i - 1]);
    }
    if (metric.TenantPrompt? || metric.TenantCached?) && !StartsSegment(rows, i) {
      TenantsAdd(rows, i, day.tenants, metric.name);
      hide AddTenants, TenantDeltas;
    }
  }

  lemma AddRowStaysConsistent(rows: seq<Snapshot>, i: nat, day: Day)
    requires Ledger(rows) && i < |rows| && (i > 0 ==> !Unreportable(rows, i))
    requires Consistent(day)
    requires day.histogram.Known? ==> day.histogram.value.edges == rows[i].histogram.edges
    ensures var previous := if i == 0 then rows[i] else rows[i - 1];
            Consistent(AddRow(day, previous, rows[i], i == 0, StartsSegment(rows, i)))
  {
    var previous := if i == 0 then rows[i] else rows[i - 1];
    var reset := StartsSegment(rows, i);
    assert ValidSnapshot(rows[i]) && ValidSnapshot(previous);
    var deltas := TenantDeltas(previous, rows[i], reset);
    forall name | name in deltas ensures ValidTenant(deltas[name]) {
      assert ValidTenant(rows[i].tenants[name]);
      if !reset {
        NoTenantFalls(rows, i, name);
        assert Delta(rows, i, TenantCached(name)) <= Delta(rows, i, TenantPrompt(name));
      }
    }
    if !reset {
      SegmentsOnlyGrow(rows, i, Prompt);
      SegmentsOnlyGrow(rows, i, Cached);
      SegmentsOnlyGrow(rows, i, Computed);
      forall k | 0 <= k < |rows[i].histogram.counts|
        ensures rows[i].histogram.counts[k] >= previous.histogram.counts[k]
      {
        SegmentsOnlyGrow(rows, i, Bucket(k));
      }
    }
  }

  lemma AllUntil(rows: seq<Snapshot>, n: nat, date: int)
    requires Ledger(rows) && n < |rows| && Date(rows[n]) <= date
    ensures Until(rows, n, date) == n && Until(rows, n + 1, date) == n + 1
  {
  }

  lemma LedgerStep(rows: seq<Snapshot>, n: nat, init: seq<Day>, before: Day, after: Day)
    requires Ledger(rows) && n < |rows|
    requires Conserves(rows, n, init + [before])
    requires before.date == after.date == Date(rows[n])
    requires forall k | 0 <= k < |init| :: init[k].date < after.date
    requires forall metric :: DayReading(after, metric) == DayReading(before, metric) + Delta(rows, n, metric)
    ensures Conserves(rows, n + 1, init + [after])
  {
    forall date, metric
      ensures DaysUntil(init + [after], date, metric) == SegmentEnds(rows, Until(rows, n + 1, date), metric)
    {
      assert (init + [before])[..|init|] == (init + [after])[..|init|] == init;
      assert DaysUntil(init + [before], date, metric) == SegmentEnds(rows, Until(rows, n, date), metric);
      if Date(rows[n]) <= date {
        AllUntil(rows, n, date);
        SegmentStep(rows, n, metric);
      }
    }
  }

  lemma NewDay(rows: seq<Snapshot>, n: nat, days: seq<Day>, date: int)
    requires n <= |rows| && Conserves(rows, n, days)
    ensures Conserves(rows, n, days + [EmptyDay(date)])
  {
    forall d, metric
      ensures DaysUntil(days + [EmptyDay(date)], d, metric) == SegmentEnds(rows, Until(rows, n, d), metric)
    {
      assert (days + [EmptyDay(date)])[..|days|] == days;
    }
  }

  /** The running tally after `n` rows, whose newest day is `date`. */
  ghost predicate Tally(rows: seq<Snapshot>, n: nat, order: seq<int>, byDate: map<int, Day>, date: int)
    requires n <= |rows|
  {
    && Indexed(order, byDate)
    && (forall date' | date' in byDate :: date' in order)
    && order != [] && order[|order| - 1] == date
    && (forall k | 0 <= k < |order| :: Counted(rows, n, byDate[order[k]]))
    && Conserves(rows, n, Listed(order, byDate))
  }

  ghost predicate Counted(rows: seq<Snapshot>, n: nat, day: Day)
    requires n <= |rows|
  {
    && Consistent(day)
    && day.snapshots == RowsOn(rows, n, day.date)
    && day.restarts == RestartsOn(rows, n, day.date)
  }

  /** The newest day's bucket edges are those of the last row. */
  ghost predicate EdgesOf(day: Day, row: Snapshot) {
    day.histogram.Known? && day.histogram.value.edges == row.histogram.edges
  }

  lemma OpenDay(rows: seq<Snapshot>, n: nat, order: seq<int>, byDate: map<int, Day>)
    requires Ledger(rows) && n < |rows|
    requires Date(rows[n]) !in byDate
    requires if n == 0 then order == [] && byDate == map[] else Tally(rows, n, order, byDate, Date(rows[n - 1]))
    ensures Tally(rows, n, order + [Date(rows[n])], byDate[Date(rows[n]) := EmptyDay(Date(rows[n]))], Date(rows[n]))
  {
    var date := Date(rows[n]);
    if n > 0 {
      assert rows[n - 1].ts <= rows[n].ts;
      assert order[|order| - 1] in byDate;
    }
    forall i | 0 <= i < n ensures Date(rows[i]) < date {
      assert i == n - 1 || rows[i].ts <= rows[n - 1].ts;
    }
    NoRowsOn(rows, n, date);
    NewDay(rows, n, Listed(order, byDate), date);
    assert Listed(order + [date], byDate[date := EmptyDay(date)]) == Listed(order, byDate) + [EmptyDay(date)];
  }

  lemma SameDay(rows: seq<Snapshot>, n: nat, order: seq<int>, byDate: map<int, Day>)
    requires Ledger(rows) && 0 < n < |rows|
    requires Date(rows[n]) in byDate && Tally(rows, n, order, byDate, Date(rows[n - 1]))
    ensures Date(rows[n]) == Date(rows[n - 1])
  {
    assert rows[n - 1].ts <= rows[n].ts;
  }

  lemma CloseLedger(rows: seq<Snapshot>, n: nat, order: seq<int>, byDate: map<int, Day>, updated: Day)
    requires Ledger(rows) && n < |rows|
    requires Tally(rows, n, order, byDate, Date(rows[n])) && updated.date == Date(rows[n])
    requires forall metric ::
               DayReading(updated, metric) == DayReading(byDate[Date(rows[n])], metric) + Delta(rows, n, metric)
    ensures Conserves(rows, n + 1, Listed(order, byDate[Date(rows[n]) := updated]))
  {
    var date := Date(rows[n]);
    var day := byDate[date];
    var init := Listed(order[..|order| - 1], byDate);
    assert Listed(order, byDate) == init + [day];
    assert Listed(order, byDate[date := updated]) == init + [updated];
    LedgerStep(rows, n, init, day, updated);
  }

  lemma CloseRow(rows: seq<Snapshot>, n: nat, order: seq<int>, byDate: map<int, Day>)
    requires Ledger(rows) && n < |rows| && (n > 0 ==> !Unreportable(rows, n))
    requires Tally(rows, n, order, byDate, Date(rows[n]))
    requires var day := byDate[Date(rows[n])]; day.histogram.Known? ==> EdgesOf(day, rows[n])
    ensures var previous := if n == 0 then rows[n] else rows[n - 1];
            && ValidSnapshot(rows[n]) && ValidSnapshot(previous)
            && Counted(rows, n, byDate[Date(rows[n])])
            && var updated := AddRow(byDate[Date(rows[n])], previous, rows[n], n == 0, StartsSegment(rows, n));
               Tally(rows, n + 1, order, byDate[Date(rows[n]) := updated], Date(rows[n])) && EdgesOf(updated, rows[n])
  {
    var date := Date(rows[n]);
    var previous := if n == 0 then rows[n] else rows[n - 1];
    assert ValidSnapshot(rows[n]) && ValidSnapshot(previous);
    assert Counted(rows, n, byDate[order[|order| - 1]]);
    var day := byDate[date];
    var updated := AddRow(day, previous, rows[n], n == 0, StartsSegment(rows, n));
    forall metric ensures DayReading(updated, metric) == DayReading(day, metric) + Delta(rows, n, metric) {
      AddRowAddsDelta(rows, n, day, metric);
    }
    CloseLedger(rows, n, order, byDate, updated);
    forall k | 0 <= k < |order| ensures Counted(rows, n + 1, byDate[date := updated][order[k]]) {
      assert Counted(rows, n, byDate[order[k]]);
      if k == |order| - 1 {
        AddRowStaysConsistent(rows, n, day);
      }
    }
  }

  /** The ledger after the rows before `n`, on the days that `order` lists. */
  ghost predicate After(rows: seq<Snapshot>, n: nat, order: seq<int>, byDate: map<int, Day>)
    requires Ledger(rows) && n <= |rows|
  {
    if n == 0 then order == [] && byDate == map[]
    else Tally(rows, n, order, byDate, Date(rows[n - 1])) && EdgesOf(byDate[Date(rows[n - 1])], rows[n - 1])
  }

  /** The row's day, opened if it is new. */
  method DayOfRow(rows: seq<Snapshot>, i: nat, order: seq<int>, byDate: map<int, Day>)
    returns (dates: seq<int>, days: map<int, Day>)
    requires Ledger(rows) && i < |rows| && After(rows, i, order, byDate)
    ensures Tally(rows, i, dates, days, Date(rows[i])) && Date(rows[i]) in days
    ensures days[Date(rows[i])].histogram.Known? <==> i > 0 && Date(rows[i - 1]) == Date(rows[i])
    ensures i > 0 && Date(rows[i - 1]) == Date(rows[i]) ==> EdgesOf(days[Date(rows[i])], rows[i - 1])
  {
    var date := Date(rows[i]);
    dates, days := order, byDate;
    if date !in byDate {
      OpenDay(rows, i, order, byDate);
      dates, days := order + [date], byDate[date := EmptyDay(date)];
    } else {
      SameDay(rows, i, order, byDate);
    }
  }

  /** One row: the report stops at it exactly when it is unreportable. */
  method TakeRow(rows: seq<Snapshot>, i: nat, order: seq<int>, byDate: map<int, Day>)
    returns (ok: bool, dates: seq<int>, days: map<int, Day>)
    requires Ledger(rows) && i < |rows| && After(rows, i, order, byDate)
    ensures ok <==> i == 0 || !Unreportable(rows, i)
    ensures ok ==> After(rows, i + 1, dates, days)
  {
    var row := rows[i];
    var previous := if i == 0 then row else rows[i - 1];
    var reset := Reset(rows, i);
    ResetStartsSegment(rows, i);
    dates, days := DayOfRow(rows, i, order, byDate);
    hide Tally, Counted;
    assert ValidSnapshot(row) && ValidSnapshot(previous);
    var day := days[Date(row)];
    if !reset && previous.histogram.edges != row.histogram.edges {
      return false, dates, days;
    }
    if day.histogram.Known? && day.histogram.value.edges != row.histogram.edges {
      return false, dates, days;
    }
    if !reset {
      DisagreementIsUnreportable(rows, i);
    }
    if !reset && TenantsDisagree(previous, row) {
      return false, dates, days;
    }
    CloseRow(rows, i, dates, days);
    ok, days := true, days[Date(row) := AddRow(day, previous, row, i == 0, reset)];
  }

  /** The report. It fails exactly when some row is unreportable; otherwise the days are in order,
      each day is consistent, and the ledger law holds for every metric and date. */
  method DailyDeltas(rows: seq<Snapshot>) returns (result: Outcome)
    requires Ledger(rows)
    ensures result == ValueError <==> exists i :: 0 < i < |rows| && Unreportable(rows, i)
    ensures result.Report? ==> Conserves(rows, |rows|, result.days)
    ensures result.Report? ==> forall k | 0 <= k < |result.days| :: Counted(rows, |rows|, result.days[k])
    ensures result.Report? ==> forall j, k | 0 <= j < k < |result.days| :: result.days[j].date < result.days[k].date
  {
    var order: seq<int> := [];
    var byDate: map<int, Day> := map[];
    for i := 0 to |rows|
      invariant After(rows, i, order, byDate)
      invariant forall j | 0 < j < i :: !Unreportable(rows, j)
    {
      var ok;
      ok, order, byDate := TakeRow(rows, i, order, byDate);
      if !ok {
        return ValueError;
      }
    }
    result := Report(Listed(order, byDate));
  }
}
