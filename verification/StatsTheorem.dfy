/** Nothing is lost or counted twice: the buckets add up to the total in every column, and the origin rows to
    its closings. */
module StatsTheorem {
  import opened Events
  import opened Metrics
  import opened MetricsWindow
  import opened Stats

  // ---------------------------------------------------------------- adding two totals

  function SumOrigin(a: OriginTotals, b: OriginTotals): OriginTotals {
    OriginTotals(a.turns + b.turns, a.noWork + b.noWork, a.failed + b.failed, AddedCost(a.cost, b.cost), a.runs + b.runs)
  }

  function SumOrigins(a: map<Option<string>, OriginTotals>, b: map<Option<string>, OriginTotals>): map<Option<string>, OriginTotals> {
    map row | row in a.Keys + b.Keys :: SumOrigin(RowOf(a, row), RowOf(b, row))
  }

  function SumMemory(a: MemoryTotals, b: MemoryTotals): MemoryTotals {
    MemoryTotals(AddCalls(a.calls, b.calls), a.without + b.without, a.tokens + b.tokens, a.carried + b.carried,
                 AddedCost(a.carriedCost, b.carriedCost), a.estimated + b.estimated)
  }

  function SumSpread(a: Spread, b: Spread): Spread {
    Spread(a.approvals + b.approvals, Denies(a.denies.policy + b.denies.policy, a.denies.user + b.denies.user),
           ToolTime(a.toolTime.readMs + b.toolTime.readMs, a.toolTime.writeMs + b.toolTime.writeMs),
           a.duration + b.duration, a.durations + b.durations, a.good + b.good, a.bad + b.bad)
  }

  function SumNavigation(a: NavigationTotals, b: NavigationTotals): NavigationTotals {
    NavigationTotals(a.turns + b.turns, a.readCalls + b.readCalls, a.durationMs + b.durationMs, a.tokens + b.tokens, a.repeatOpens + b.repeatOpens)
  }

  function SumClosings(a: Closings, b: Closings): Closings {
    Closings(a.completed + b.completed, a.failed + b.failed, a.interrupted + b.interrupted)
  }

  /** Two totals column by column. A cost both leave unknown stays unknown. */
  function Sum(a: Totals, b: Totals): Totals {
    Totals(SumClosings(a.closings, b.closings), AddTokens(a.tokens, b.tokens), a.recapInput + b.recapInput, a.recapOutput + b.recapOutput,
           AddedCost(a.cost, b.cost), a.toolCalls + b.toolCalls, SumMemory(a.memory, b.memory), SumSpread(a.spread, b.spread),
           SumNavigation(a.navigation, b.navigation), a.runs + b.runs, SumOrigins(a.origins, b.origins))
  }

  lemma OriginsSwap(a: OriginTotals, b: OriginTotals)
    ensures SumOrigin(a, b) == SumOrigin(b, a)
  {
    assert a.runs + b.runs == b.runs + a.runs;
  }

  lemma NoOriginAdds(o: OriginTotals)
    ensures SumOrigin(NO_ORIGIN, o) == o == SumOrigin(o, NO_ORIGIN)
  {
    assert NO_ORIGIN.runs + o.runs == o.runs;
    assert o.runs + NO_ORIGIN.runs == o.runs;
  }

  lemma OriginAdds(a: OriginTotals, b: OriginTotals, r: Record)
    ensures SumOrigin(a, AddOrigin(b, r)) == AddOrigin(SumOrigin(a, b), r) == SumOrigin(AddOrigin(a, r), b)
  {
  }

  lemma SourceAdds(a: OriginTotals, b: OriginTotals, source: UsageSource)
    ensures SumOrigin(a, AddSource(b, source)) == AddSource(SumOrigin(a, b), source) == SumOrigin(AddSource(a, source), b)
  {
    assert a.runs + (b.runs + multiset{source}) == a.runs + b.runs + multiset{source};
    assert a.runs + multiset{source} + b.runs == a.runs + b.runs + multiset{source};
  }

  /** A row of the sum is the sum of the rows. */
  lemma RowOfSum(a: map<Option<string>, OriginTotals>, b: map<Option<string>, OriginTotals>, row: Option<string>)
    ensures RowOf(SumOrigins(a, b), row) == SumOrigin(RowOf(a, row), RowOf(b, row))
  {
    NoOriginAdds(NO_ORIGIN);
    hide SumOrigin;
    if row !in a.Keys + b.Keys {
      assert row !in SumOrigins(a, b);
    }
  }

  /** Changing a row of one of two tables changes that row of their sum. */
  lemma RowChanges(a: map<Option<string>, OriginTotals>, b: map<Option<string>, OriginTotals>, row: Option<string>, o: OriginTotals)
    ensures SumOrigins(a[row := o], b) == SumOrigins(a, b)[row := SumOrigin(o, RowOf(b, row))]
  {
    hide SumOrigin;
  }

  lemma OriginsAddUp(a: map<Option<string>, OriginTotals>, b: map<Option<string>, OriginTotals>, row: Option<string>, r: Record)
    ensures SumOrigins(a[row := AddOrigin(RowOf(a, row), r)], b)
         == SumOrigins(a, b)[row := AddOrigin(RowOf(SumOrigins(a, b), row), r)]
  {
    hide SumOrigin, SumOrigins, AddOrigin, RowOf;
    OriginAdds(RowOf(a, row), RowOf(b, row), r);
    RowOfSum(a, b, row);
    RowChanges(a, b, row, AddOrigin(RowOf(a, row), r));
  }

  lemma RunOriginsAddUp(a: map<Option<string>, OriginTotals>, b: map<Option<string>, OriginTotals>, row: Option<string>, source: UsageSource)
    ensures SumOrigins(a[row := AddSource(RowOf(a, row), source)], b)
         == SumOrigins(a, b)[row := AddSource(RowOf(SumOrigins(a, b), row), source)]
  {
    hide SumOrigin, SumOrigins, AddSource, RowOf;
    SourceAdds(RowOf(a, row), RowOf(b, row), source);
    RowOfSum(a, b, row);
    RowChanges(a, b, row, AddSource(RowOf(a, row), source));
  }

  lemma TablesSwap(a: map<Option<string>, OriginTotals>, b: map<Option<string>, OriginTotals>)
    ensures SumOrigins(a, b) == SumOrigins(b, a)
  {
    hide SumOrigin;
    forall row ensures SumOrigin(RowOf(a, row), RowOf(b, row)) == SumOrigin(RowOf(b, row), RowOf(a, row)) {
      OriginsSwap(RowOf(a, row), RowOf(b, row));
    }
  }

  lemma NoTableAdds(t: map<Option<string>, OriginTotals>)
    ensures SumOrigins(map[], t) == t
  {
    hide SumOrigin;
    forall row ensures SumOrigin(NO_ORIGIN, RowOf(t, row)) == RowOf(t, row) {
      NoOriginAdds(RowOf(t, row));
    }
  }

  lemma PartsAddUp(a: Totals, b: Totals, r: Record)
    ensures SumMemory(AddMemory(a.memory, r), b.memory) == AddMemory(SumMemory(a.memory, b.memory), r)
    ensures SumSpread(AddSpread(a.spread, r), b.spread) == AddSpread(SumSpread(a.spread, b.spread), r)
    ensures SumNavigation(AddNavigation(a.navigation, r), b.navigation) == AddNavigation(SumNavigation(a.navigation, b.navigation), r)
    ensures SumClosings(AddClosing(a.closings, r.closing), b.closings) == AddClosing(SumClosings(a.closings, b.closings), r.closing)
    ensures AddTokens(AddTokens(a.tokens, r.tokens), b.tokens) == AddTokens(AddTokens(a.tokens, b.tokens), r.tokens)
  {
  }

  lemma SumSwaps(a: Totals, b: Totals)
    ensures Sum(a, b) == Sum(b, a)
  {
    TablesSwap(a.origins, b.origins);
    assert a.toolCalls + b.toolCalls == b.toolCalls + a.toolCalls;
    assert a.runs + b.runs == b.runs + a.runs;
  }

  /** A turn added to one of two totals is added to their sum. */
  lemma RecordAddsUp(a: Totals, b: Totals, r: Record)
    ensures Sum(AddRecord(a, r), b) == AddRecord(Sum(a, b), r)
  {
    hide SumOrigins, AddOrigin, AddMemory, AddSpread, AddNavigation, AddClosing, SumMemory, SumSpread, SumNavigation, SumClosings, AddTokens, RowOf;
    PartsAddUp(a, b, r);
    OriginsAddUp(a.origins, b.origins, RoutineOf(r.origin), r);
    assert a.toolCalls + r.toolCalls + b.toolCalls == a.toolCalls + b.toolCalls + r.toolCalls;
  }

  lemma RunAddsUp(a: Totals, b: Totals, run: TurnRun)
    ensures Sum(AddRun(a, run), b) == AddRun(Sum(a, b), run)
  {
    hide SumOrigins, SumMemory, SumSpread, SumNavigation, SumClosings, AddTokens, RowOf, AddSource;
    RunOriginsAddUp(a.origins, b.origins, RoutineOf(run.origin), run.reported.run.source);
    assert a.runs + multiset{run.reported.run} + b.runs == a.runs + b.runs + multiset{run.reported.run};
  }

  // ---------------------------------------------------------------- the buckets together

  /** The buckets at some starts, added up from a total. */
  function SumAt(from: Totals, buckets: map<int, Totals>, starts: seq<int>): Totals {
    if starts == [] then from else Sum(BucketAt(buckets, starts[|starts| - 1]), SumAt(from, buckets, starts[..|starts| - 1]))
  }

  ghost predicate DistinctStarts(starts: seq<int>) {
    forall i, j :: 0 <= i < j < |starts| ==> starts[i] != starts[j]
  }

  lemma {:induction false} SumElsewhere(from: Totals, buckets: map<int, Totals>, starts: seq<int>, start: int, t: Totals)
    requires start !in starts
    ensures SumAt(from, buckets[start := t], starts) == SumAt(from, buckets, starts)
  {
    hide Sum;
    if starts != [] {
      SumElsewhere(from, buckets, starts[..|starts| - 1], start, t);
    }
  }

  /** A turn added to its bucket is added to the buckets' sum. */
  lemma {:induction false} RecordAddsOnce(from: Totals, buckets: map<int, Totals>, starts: seq<int>, start: int, r: Record)
    requires DistinctStarts(starts) && start in starts
    ensures SumAt(from, buckets[start := AddRecord(BucketAt(buckets, start), r)], starts) == AddRecord(SumAt(from, buckets, starts), r)
  {
    hide Sum, AddRecord;
    var n := |starts| - 1;
    var after := buckets[start := AddRecord(BucketAt(buckets, start), r)];
    var before := SumAt(from, buckets, starts[..n]);
    if starts[n] == start {
      SumElsewhere(from, buckets, starts[..n], start, AddRecord(BucketAt(buckets, start), r));
      RecordAddsUp(BucketAt(buckets, start), before, r);
    } else {
      RecordAddsOnce(from, buckets, starts[..n], start, r);
      RecordAddsUp(before, BucketAt(buckets, starts[n]), r);
      SumSwaps(BucketAt(buckets, starts[n]), before);
      SumSwaps(BucketAt(buckets, starts[n]), AddRecord(before, r));
    }
  }

  lemma {:induction false} RunAddsOnce(from: Totals, buckets: map<int, Totals>, starts: seq<int>, start: int, run: TurnRun)
    requires DistinctStarts(starts) && start in starts
    ensures SumAt(from, buckets[start := AddRun(BucketAt(buckets, start), run)], starts) == AddRun(SumAt(from, buckets, starts), run)
  {
    hide Sum, AddRun;
    var n := |starts| - 1;
    var before := SumAt(from, buckets, starts[..n]);
    if starts[n] == start {
      SumElsewhere(from, buckets, starts[..n], start, AddRun(BucketAt(buckets, start), run));
      RunAddsUp(BucketAt(buckets, start), before, run);
    } else {
      RunAddsOnce(from, buckets, starts[..n], start, run);
      RunAddsUp(before, BucketAt(buckets, starts[n]), run);
      SumSwaps(BucketAt(buckets, starts[n]), before);
      SumSwaps(BucketAt(buckets, starts[n]), AddRun(before, run));
    }
  }

  lemma SumZero(t: Totals)
    ensures Sum(ZERO, t) == t
  {
    NoTableAdds(t.origins);
    assert multiset{} + t.toolCalls == t.toolCalls;
    assert multiset{} + t.runs == t.runs;
  }

  lemma {:induction false} SumOfNone(from: Totals, starts: seq<int>)
    ensures SumAt(from, map[], starts) == from
  {
    hide Sum;
    if starts != [] {
      SumOfNone(from, starts[..|starts| - 1]);
      SumZero(from);
    }
  }

  ghost predicate Covers(starts: seq<int>, buckets: map<int, Totals>) {
    DistinctStarts(starts) && forall start :: start in buckets ==> start in starts
  }

  lemma {:induction false} RecordsAddUp(from: Totals, records: seq<Record>, size: BucketSize, starts: seq<int>)
    requires Covers(starts, RecordBuckets(records, size))
    ensures SumAt(from, RecordBuckets(records, size), starts) == AllRecords(from, records)
  {
    hide AddRecord, SumAt;
    if records == [] {
      SumOfNone(from, starts);
    } else {
      var n := |records| - 1;
      var before, start := RecordBuckets(records[..n], size), BucketStart(records[n].closedAt, size);
      assert start in RecordBuckets(records, size);
      RecordsAddUp(from, records[..n], size, starts);
      RecordAddsOnce(from, before, starts, start, records[n]);
    }
  }

  lemma {:induction false} RunsAddUp(from: Totals, buckets: map<int, Totals>, runs: seq<TurnRun>, size: BucketSize, starts: seq<int>)
    requires Covers(starts, RunBuckets(buckets, runs, size))
    ensures Covers(starts, buckets)
    ensures SumAt(from, RunBuckets(buckets, runs, size), starts) == AllRuns(SumAt(from, buckets, starts), runs)
  {
    hide AddRun, SumAt;
    if runs != [] {
      var n := |runs| - 1;
      var before, start := RunBuckets(buckets, runs[..n], size), BucketStart(runs[n].reported.time, size);
      assert start in RunBuckets(buckets, runs, size);
      RunsAddUp(from, buckets, runs[..n], size, starts);
      RunAddsOnce(from, before, starts, start, runs[n]);
    }
  }

  /** Taken in any order, each once, the buckets add up to the total: every turn and every subscription run is
      in one bucket, whatever the bucket size. The total's row for chat is all it has of its own. */
  lemma {:induction false} BucketsAddUpToTheTotal(records: seq<Record>, runs: seq<TurnRun>, size: BucketSize, starts: seq<int>)
    requires Covers(starts, BucketTotals(records, runs, size))
    ensures SumAt(WITH_CHAT, BucketTotals(records, runs, size), starts) == SummaryTotals(records, runs)
  {
    hide SumAt, AllRuns;
    RunsAddUp(WITH_CHAT, RecordBuckets(records, size), Filter(runs, OfSubscription()), size, starts);
    RecordsAddUp(WITH_CHAT, records, size, starts);
  }

  // ---------------------------------------------------------------- the origin rows

  /** The origin rows at some origins, added up. */
  function SumRows(origins: map<Option<string>, OriginTotals>, rows: seq<Option<string>>): OriginTotals {
    if rows == [] then NO_ORIGIN else SumOrigin(RowOf(origins, rows[|rows| - 1]), SumRows(origins, rows[..|rows| - 1]))
  }

  ghost predicate DistinctRows(rows: seq<Option<string>>) {
    forall i, j :: 0 <= i < j < |rows| ==> rows[i] != rows[j]
  }

  lemma {:induction false} RowsElsewhere(origins: map<Option<string>, OriginTotals>, rows: seq<Option<string>>, row: Option<string>, o: OriginTotals)
    requires row !in rows
    ensures SumRows(origins[row := o], rows) == SumRows(origins, rows)
  {
    if rows != [] {
      RowsElsewhere(origins, rows[..|rows| - 1], row, o);
    }
  }

  lemma {:induction false} RowAddsOnce(origins: map<Option<string>, OriginTotals>, rows: seq<Option<string>>, row: Option<string>, r: Record)
    requires DistinctRows(rows) && row in rows
    ensures SumRows(origins[row := AddOrigin(RowOf(origins, row), r)], rows) == AddOrigin(SumRows(origins, rows), r)
  {
    hide AddOrigin, SumOrigin;
    var n := |rows| - 1;
    OriginAdds(RowOf(origins, rows[n]), SumRows(origins, rows[..n]), r);
    if rows[n] == row {
      RowsElsewhere(origins, rows[..n], row, AddOrigin(RowOf(origins, row), r));
    } else {
      RowAddsOnce(origins, rows[..n], row, r);
    }
  }

  lemma {:induction false} RowRunAddsOnce(origins: map<Option<string>, OriginTotals>, rows: seq<Option<string>>, row: Option<string>, source: UsageSource)
    requires DistinctRows(rows) && row in rows
    ensures SumRows(origins[row := AddSource(RowOf(origins, row), source)], rows) == AddSource(SumRows(origins, rows), source)
  {
    hide AddSource, SumOrigin;
    var n := |rows| - 1;
    SourceAdds(RowOf(origins, rows[n]), SumRows(origins, rows[..n]), source);
    if rows[n] == row {
      RowsElsewhere(origins, rows[..n], row, AddSource(RowOf(origins, row), source));
    } else {
      RowRunAddsOnce(origins, rows[..n], row, source);
    }
  }

  /** What the rows hold together is what the total holds. */
  ghost predicate RowsAgree(t: Totals, rows: seq<Option<string>>) {
    var all := SumRows(t.origins, rows);
    && t.closings.completed + t.closings.failed + t.closings.interrupted == all.turns + all.noWork
    && t.closings.failed == all.failed && t.cost == all.cost && |t.runs| == |all.runs|
  }

  lemma RecordRowsAgree(t: Totals, rows: seq<Option<string>>, r: Record)
    requires RowsAgree(t, rows) && DistinctRows(rows) && RoutineOf(r.origin) in rows
    ensures RowsAgree(AddRecord(t, r), rows)
  {
    hide SumRows, DistinctRows, AddTokens, AddMemory, AddSpread, AddNavigation, AddedCost, RowOf;
    RowAddsOnce(t.origins, rows, RoutineOf(r.origin), r);
  }

  lemma RunRowsAgree(t: Totals, rows: seq<Option<string>>, run: TurnRun)
    requires RowsAgree(t, rows) && DistinctRows(rows) && RoutineOf(run.origin) in rows
    ensures RowsAgree(AddRun(t, run), rows)
  {
    hide SumRows, DistinctRows, RowOf;
    RowRunAddsOnce(t.origins, rows, RoutineOf(run.origin), run.reported.run.source);
  }

  lemma {:induction false} RecordsRowsAgree(t: Totals, records: seq<Record>, rows: seq<Option<string>>)
    requires RowsAgree(t, rows) && DistinctRows(rows) && forall r :: r in records ==> RoutineOf(r.origin) in rows
    ensures RowsAgree(AllRecords(t, records), rows)
  {
    hide AddRecord, RowsAgree;
    if records != [] {
      assert records[|records| - 1] in records;
      RecordsRowsAgree(t, records[..|records| - 1], rows);
      RecordRowsAgree(AllRecords(t, records[..|records| - 1]), rows, records[|records| - 1]);
    }
  }

  lemma {:induction false} RunsRowsAgree(t: Totals, runs: seq<TurnRun>, rows: seq<Option<string>>)
    requires RowsAgree(t, rows) && DistinctRows(rows) && forall r :: r in runs ==> RoutineOf(r.origin) in rows
    ensures RowsAgree(AllRuns(t, runs), rows)
  {
    hide AddRun, RowsAgree;
    if runs != [] {
      assert runs[|runs| - 1] in runs;
      RunsRowsAgree(t, runs[..|runs| - 1], rows);
      RunRowsAgree(AllRuns(t, runs[..|runs| - 1]), rows, runs[|runs| - 1]);
    }
  }

  lemma {:induction false} EmptyRows(rows: seq<Option<string>>)
    ensures SumRows(WITH_CHAT.origins, rows) == NO_ORIGIN
  {
    NoOriginAdds(NO_ORIGIN);
    hide SumOrigin;
    if rows != [] {
      EmptyRows(rows[..|rows| - 1]);
    }
  }

  /** Every turn is in one origin row: the rows' turns, with and without work, are as many as the closings of
      all kinds, and their failures, cost and runs are the total's. */
  lemma {:induction false} RowsAddUpToTheClosings(records: seq<Record>, runs: seq<TurnRun>, rows: seq<Option<string>>)
    requires DistinctRows(rows)
    requires forall r :: r in records ==> RoutineOf(r.origin) in rows
    requires forall run :: run in runs ==> RoutineOf(run.origin) in rows
    ensures RowsAgree(SummaryTotals(records, runs), rows)
  {
    EmptyRows(rows);
    FilterMembers(runs, OfSubscription());
    hide AllRecords, AllRuns;
    RecordsRowsAgree(WITH_CHAT, records, rows);
    hide RowsAgree;
    RunsRowsAgree(AllRecords(WITH_CHAT, records), Filter(runs, OfSubscription()), rows);
  }

  lemma {:induction false} CountsAll(t: Totals, records: seq<Record>)
    ensures var c, d := t.closings, AllRecords(t, records).closings;
            d.completed + d.failed + d.interrupted == c.completed + c.failed + c.interrupted + |records|
  {
    if records != [] {
      CountsAll(t, records[..|records| - 1]);
    }
  }

  lemma {:induction false} RunsCloseNothing(t: Totals, runs: seq<TurnRun>)
    ensures AllRuns(t, runs).closings == t.closings
  {
    if runs != [] {
      RunsCloseNothing(t, runs[..|runs| - 1]);
    }
  }

  /** The closings of all kinds are as many as the turns. */
  lemma {:induction false} EveryTurnIsCounted(records: seq<Record>, runs: seq<TurnRun>)
    ensures var c := SummaryTotals(records, runs).closings; c.completed + c.failed + c.interrupted == |records|
  {
    CountsAll(WITH_CHAT, records);
    RunsCloseNothing(AllRecords(WITH_CHAT, records), Filter(runs, OfSubscription()));
  }

  // ---------------------------------------------------------------- what the columns count

  function Rated(good: bool): Record -> bool {
    (r: Record) => r.rating == Some(good)
  }

  function ClosedAs(kind: ClosingKind): Record -> bool {
    (r: Record) => r.closing == kind
  }

  function Timed(): Record -> bool {
    (r: Record) => r.Duration().Some?
  }

  function WithoutMemory(): Record -> bool {
    (r: Record) => !r.memoryConsulted
  }

  function Estimated(): Record -> bool {
    (r: Record) => !r.memoryMeasured
  }

  function Wrote(): Record -> bool {
    (r: Record) => r.navigation.writeCalls > 0
  }

  function InRow(row: Option<string>, outcome: Outcome): Record -> bool {
    (r: Record) => (if row.Some? then r.origin.Some? && r.origin.value.RoutineOrigin? && r.origin.value.name == row.value
                    else !(r.origin.Some? && r.origin.value.RoutineOrigin?)) && r.outcome == outcome
  }

  /** Each count of a total is the number of turns it is named for. */
  ghost predicate ColumnsCount(t: Totals, records: seq<Record>) {
    && t.closings == Closings(|Filter(records, ClosedAs(Completed))|, |Filter(records, ClosedAs(Metrics.Failed))|,
                              |Filter(records, ClosedAs(Interrupted))|)
    && t.spread.good == |Filter(records, Rated(true))| && t.spread.bad == |Filter(records, Rated(false))|
    && t.spread.durations == |Filter(records, Timed())|
    && t.memory.without == |Filter(records, WithoutMemory())| && t.memory.estimated == |Filter(records, Estimated())|
    && t.navigation.turns == |Filter(records, Wrote())|
  }

  ghost predicate RowCounts(t: Totals, records: seq<Record>, row: Option<string>) {
    && RowOf(t.origins, row).turns == |Filter(records, InRow(row, Work))|
    && RowOf(t.origins, row).noWork == |Filter(records, InRow(row, NoWork))|
  }

  lemma ColumnsCountNext(t: Totals, records: seq<Record>, r: Record, row: Option<string>)
    requires ColumnsCount(t, records) && RowCounts(t, records, row)
    ensures ColumnsCount(AddRecord(t, r), records + [r]) && RowCounts(AddRecord(t, r), records + [r], row)
  {
    hide AddedCost, AddTokens, AddCalls;
    FilterSnoc(records, r, ClosedAs(Completed));
    FilterSnoc(records, r, ClosedAs(Metrics.Failed));
    FilterSnoc(records, r, ClosedAs(Interrupted));
    FilterSnoc(records, r, Rated(true));
    FilterSnoc(records, r, Rated(false));
    FilterSnoc(records, r, Timed());
    FilterSnoc(records, r, WithoutMemory());
    FilterSnoc(records, r, Estimated());
    FilterSnoc(records, r, Wrote());
    FilterSnoc(records, r, InRow(row, Work));
    FilterSnoc(records, r, InRow(row, NoWork));
    hide Filter;
  }

  lemma {:induction false} RecordsCount(records: seq<Record>, row: Option<string>)
    ensures ColumnsCount(AllRecords(WITH_CHAT, records), records) && RowCounts(AllRecords(WITH_CHAT, records), records, row)
  {
    hide AddRecord;
    if records != [] {
      var n := |records| - 1;
      RecordsCount(records[..n], row);
      ColumnsCountNext(AllRecords(WITH_CHAT, records[..n]), records[..n], records[n], row);
      assert records[..n] + [records[n]] == records;
    }
  }

  lemma RunAddsNoTurn(t: Totals, run: TurnRun, row: Option<string>)
    ensures var after := AddRun(t, run);
            && after.closings == t.closings && after.spread == t.spread && after.memory == t.memory && after.navigation == t.navigation
            && RowOf(after.origins, row).turns == RowOf(t.origins, row).turns
            && RowOf(after.origins, row).noWork == RowOf(t.origins, row).noWork
  {
  }

  lemma {:induction false} RunsAddNoTurn(t: Totals, runs: seq<TurnRun>, records: seq<Record>, row: Option<string>)
    requires ColumnsCount(t, records) && RowCounts(t, records, row)
    ensures ColumnsCount(AllRuns(t, runs), records) && RowCounts(AllRuns(t, runs), records, row)
  {
    hide AddRun, Filter;
    if runs != [] {
      RunsAddNoTurn(t, runs[..|runs| - 1], records, row);
      RunAddsNoTurn(AllRuns(t, runs[..|runs| - 1]), runs[|runs| - 1], row);
    }
  }

  /** A range's total counts, in each column and origin row, the turns the column and the row are named for. */
  lemma {:induction false} TotalCountsItsTurns(records: seq<Record>, runs: seq<TurnRun>, row: Option<string>)
    ensures ColumnsCount(SummaryTotals(records, runs), records) && RowCounts(SummaryTotals(records, runs), records, row)
  {
    hide ColumnsCount, RowCounts;
    RecordsCount(records, row);
    RunsAddNoTurn(AllRecords(WITH_CHAT, records), Filter(runs, OfSubscription()), records, row);
  }
}
