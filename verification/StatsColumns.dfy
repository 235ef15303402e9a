/** What each column of the statistics is the sum of, and what each bucket holds, told from the turns and the
    runs themselves. */
module StatsColumns {
  import opened Events
  import opened Metrics
  import opened MetricsWindow
  import opened Stats
  import opened StatsTheorem

  // ---------------------------------------------------------------- whole numbers

  datatype Column =
    | Input | Output | CacheRead | CacheCreation | RecapInput | RecapOutput
    | ToolCallsOf(name: string)
    | Searches | Opens | Remembers | Forgets
    | Approvals | PolicyDenies | UserDenies | ReadTime | WriteTime | TurnTime
    | NavigationReads | NavigationTime | NavigationTokens | NavigationRepeats
    | FailedIn(row: Option<string>)

  /** A row is a routine's turns, or those of no routine. */
  predicate IsOfRow(origin: Option<Origin>, row: Option<string>) {
    if row.None? then !(origin.Some? && origin.value.RoutineOrigin?)
    else origin.Some? && origin.value.RoutineOrigin? && origin.value.name == row.value
  }

  /** What one turn adds to a column. Only a turn that wrote counts towards navigation. */
  function Adds(r: Record, c: Column): int {
    var wrote := r.navigation.writeCalls > 0;
    match c
    case Input => r.tokens.input
    case Output => r.tokens.output
    case CacheRead => r.tokens.cacheRead
    case CacheCreation => r.tokens.cacheCreation
    case RecapInput => r.recapInput
    case RecapOutput => r.recapOutput
    case ToolCallsOf(name) => r.toolCalls[name]
    case Searches => r.memoryCalls.search
    case Opens => r.memoryCalls.open
    case Remembers => r.memoryCalls.remember
    case Forgets => r.memoryCalls.forget
    case Approvals => r.approvals
    case PolicyDenies => r.denies.policy
    case UserDenies => r.denies.user
    case ReadTime => r.toolTime.readMs
    case WriteTime => r.toolTime.writeMs
    case TurnTime => if r.startedAt.Some? then r.closedAt - r.startedAt.value else 0
    case NavigationReads => if wrote then r.navigation.readCalls else 0
    case NavigationTime => if wrote then r.navigation.durationMs else 0
    case NavigationTokens => if wrote then r.navigation.tokensBeforeFirstWrite else 0
    case NavigationRepeats => if wrote then r.navigation.repeatOpens else 0
    case FailedIn(row) => if IsOfRow(r.origin, row) && r.closing == Metrics.Failed then 1 else 0
  }

  /** A total's column. */
  function Of(t: Totals, c: Column): int {
    match c
    case Input => t.tokens.input
    case Output => t.tokens.output
    case CacheRead => t.tokens.cacheRead
    case CacheCreation => t.tokens.cacheCreation
    case RecapInput => t.recapInput
    case RecapOutput => t.recapOutput
    case ToolCallsOf(name) => t.toolCalls[name]
    case Searches => t.memory.calls.search
    case Opens => t.memory.calls.open
    case Remembers => t.memory.calls.remember
    case Forgets => t.memory.calls.forget
    case Approvals => t.spread.approvals
    case PolicyDenies => t.spread.denies.policy
    case UserDenies => t.spread.denies.user
    case ReadTime => t.spread.toolTime.readMs
    case WriteTime => t.spread.toolTime.writeMs
    case TurnTime => t.spread.duration
    case NavigationReads => t.navigation.readCalls
    case NavigationTime => t.navigation.durationMs
    case NavigationTokens => t.navigation.tokens
    case NavigationRepeats => t.navigation.repeatOpens
    case FailedIn(row) => RowOf(t.origins, row).failed
  }

  function SumOf(records: seq<Record>, c: Column): int {
    if records == [] then 0 else SumOf(records[..|records| - 1], c) + Adds(records[|records| - 1], c)
  }

  lemma RowAdds(t: Totals, r: Record, row: Option<string>)
    ensures Of(AddRecord(t, r), FailedIn(row)) == Of(t, FailedIn(row)) + Adds(r, FailedIn(row))
  {
    hide AddedCost, AddClosing, AddMemory, AddSpread, AddNavigation, AddTokens;
  }

  lemma PlainAdds(t: Totals, r: Record, c: Column)
    requires !c.FailedIn? && !c.ToolCallsOf?
    ensures Of(AddRecord(t, r), c) == Of(t, c) + Adds(r, c)
  {
    hide AddedCost, AddClosing, AddOrigin, RowOf, RoutineOf, IsOfRow;
  }

  lemma CallsAdd(t: Totals, r: Record, name: string)
    ensures Of(AddRecord(t, r), ToolCallsOf(name)) == Of(t, ToolCallsOf(name)) + Adds(r, ToolCallsOf(name))
  {
    hide AddedCost, AddClosing, AddMemory, AddSpread, AddNavigation, AddTokens, AddOrigin;
    assert (t.toolCalls + r.toolCalls)[name] == t.toolCalls[name] + r.toolCalls[name];
  }

  lemma RecordAdds(t: Totals, r: Record, c: Column)
    ensures Of(AddRecord(t, r), c) == Of(t, c) + Adds(r, c)
  {
    hide AddRecord, Of, Adds;
    match c
    case FailedIn(row) => RowAdds(t, r, row);
    case ToolCallsOf(name) => CallsAdd(t, r, name);
    case _ => PlainAdds(t, r, c);
  }

  lemma RunLeaves(t: Totals, run: TurnRun, c: Column)
    ensures Of(AddRun(t, run), c) == Of(t, c)
  {
  }

  lemma {:induction false} RecordsSum(t: Totals, records: seq<Record>, c: Column)
    ensures Of(AllRecords(t, records), c) == Of(t, c) + SumOf(records, c)
  {
    hide AddRecord, Of, Adds;
    if records != [] {
      RecordsSum(t, records[..|records| - 1], c);
      RecordAdds(AllRecords(t, records[..|records| - 1]), records[|records| - 1], c);
    }
  }

  lemma {:induction false} RunsLeave(t: Totals, runs: seq<TurnRun>, c: Column)
    ensures Of(AllRuns(t, runs), c) == Of(t, c)
  {
    hide AddRun, Of;
    if runs != [] {
      RunsLeave(t, runs[..|runs| - 1], c);
      RunLeaves(AllRuns(t, runs[..|runs| - 1]), runs[|runs| - 1], c);
    }
  }

  // ---------------------------------------------------------------- costs and memory

  datatype RealColumn = Cost | CarriedCost | CostIn(row: Option<string>) | MemoryTokens | MemoryCarried

  /** What one turn adds to a cost, or to memory's tokens, when it is known. */
  function AddsReal(r: Record, c: RealColumn): Option<real> {
    match c
    case Cost => r.cost
    case CarriedCost => r.memoryCarriedCost
    case CostIn(row) => if IsOfRow(r.origin, row) then r.cost else None
    case MemoryTokens => Some(r.memoryTokens)
    case MemoryCarried => Some(r.memoryCarried)
  }

  function OfReal(t: Totals, c: RealColumn): Option<real> {
    match c
    case Cost => t.cost
    case CarriedCost => t.memory.carriedCost
    case CostIn(row) => RowOf(t.origins, row).cost
    case MemoryTokens => Some(t.memory.tokens)
    case MemoryCarried => Some(t.memory.carried)
  }

  function KnownSum(records: seq<Record>, c: RealColumn): real {
    if records == [] then 0.0
    else
      var cost := AddsReal(records[|records| - 1], c);
      KnownSum(records[..|records| - 1], c) + (if cost.Some? then cost.value else 0.0)
  }

  ghost predicate SomeKnown(records: seq<Record>, c: RealColumn) {
    exists r :: r in records && AddsReal(r, c).Some?
  }

  /** The sum of what is known; unknown while nothing is, but for memory's tokens, which begin at none. */
  ghost predicate IsKnownSum(total: Option<real>, records: seq<Record>, c: RealColumn) {
    && (total.Some? <==> SomeKnown(records, c) || c.MemoryTokens? || c.MemoryCarried?)
    && (total.Some? ==> total.value == KnownSum(records, c))
  }

  lemma RecordAddsReal(t: Totals, r: Record, c: RealColumn)
    ensures var before, added := OfReal(t, c), AddsReal(r, c);
            OfReal(AddRecord(t, r), c)
            == if added.None? then before else if before.None? then added else Some(before.value + added.value)
  {
    hide AddClosing, AddCalls, AddSpread, AddNavigation, AddTokens;
  }

  lemma {:induction false} RecordsSumReal(records: seq<Record>, c: RealColumn)
    ensures IsKnownSum(OfReal(AllRecords(WITH_CHAT, records), c), records, c)
  {
    hide AddRecord, AddsReal;
    if records == [] {
      assert !SomeKnown([], c);
    } else {
      var n := |records| - 1;
      RecordsSumReal(records[..n], c);
      RecordAddsReal(AllRecords(WITH_CHAT, records[..n]), records[n], c);
      NoneKnownIsZero(records[..n], c);
      assert records == records[..n] + [records[n]];
      hide OfReal;
      assert SomeKnown(records, c) <==> SomeKnown(records[..n], c) || AddsReal(records[n], c).Some?;
    }
  }

  lemma {:induction false} NoneKnownIsZero(records: seq<Record>, c: RealColumn)
    ensures !SomeKnown(records, c) ==> KnownSum(records, c) == 0.0
  {
    hide AddsReal;
    if records != [] {
      NoneKnownIsZero(records[..|records| - 1], c);
      assert records[|records| - 1] in records;
      assert SomeKnown(records[..|records| - 1], c) ==> SomeKnown(records, c);
    }
  }

  lemma {:induction false} RunsLeaveReal(t: Totals, runs: seq<TurnRun>, c: RealColumn)
    ensures OfReal(AllRuns(t, runs), c) == OfReal(t, c)
  {
    if runs != [] {
      RunsLeaveReal(t, runs[..|runs| - 1], c);
    }
  }

  // ---------------------------------------------------------------- runs

  /** How many runs of subscriptions are as one reported. */
  function RunsLike(runs: seq<TurnRun>, run: DelegatedRun): nat {
    if runs == [] then 0
    else
      var last := runs[|runs| - 1].reported.run;
      RunsLike(runs[..|runs| - 1], run) + (if last == run && last.source != Api then 1 else 0)
  }

  function RunsOfSource(runs: seq<TurnRun>, row: Option<string>, source: UsageSource): nat {
    if runs == [] then 0
    else
      var last := runs[|runs| - 1];
      RunsOfSource(runs[..|runs| - 1], row, source)
      + (if IsOfRow(last.origin, row) && last.reported.run.source == source && source != Api then 1 else 0)
  }

  lemma RunAdds(t: Totals, last: TurnRun, run: DelegatedRun, row: Option<string>, source: UsageSource)
    ensures AddRun(t, last).runs[run] == t.runs[run] + (if last.reported.run == run then 1 else 0)
    ensures RowOf(AddRun(t, last).origins, row).runs[source]
         == RowOf(t.origins, row).runs[source] + (if IsOfRow(last.origin, row) && last.reported.run.source == source then 1 else 0)
  {
  }

  lemma {:induction false} RunsCount(t: Totals, runs: seq<TurnRun>, run: DelegatedRun, row: Option<string>, source: UsageSource)
    ensures AllRuns(t, Filter(runs, OfSubscription())).runs[run] == t.runs[run] + RunsLike(runs, run)
    ensures RowOf(AllRuns(t, Filter(runs, OfSubscription())).origins, row).runs[source]
         == RowOf(t.origins, row).runs[source] + RunsOfSource(runs, row, source)
  {
    hide AddRun, RowOf, IsOfRow;
    if runs != [] {
      var n := |runs| - 1;
      RunsCount(t, runs[..n], run, row, source);
      var kept := Filter(runs[..n], OfSubscription());
      if runs[n].reported.run.source != Api {
        assert (kept + [runs[n]])[..|kept|] == kept;
        RunAdds(AllRuns(t, kept), runs[n], run, row, source);
      }
    }
  }

  lemma {:induction false} RecordsRunNothing(t: Totals, records: seq<Record>, row: Option<string>)
    ensures AllRecords(t, records).runs == t.runs && RowOf(AllRecords(t, records).origins, row).runs == RowOf(t.origins, row).runs
  {
    if records != [] {
      RecordsRunNothing(t, records[..|records| - 1], row);
      RecordRunsNothing(AllRecords(t, records[..|records| - 1]), records[|records| - 1], row);
    }
  }

  lemma RecordRunsNothing(t: Totals, r: Record, row: Option<string>)
    ensures AddRecord(t, r).runs == t.runs && RowOf(AddRecord(t, r).origins, row).runs == RowOf(t.origins, row).runs
  {
    hide AddedCost, AddClosing, AddMemory, AddSpread, AddNavigation, AddTokens;
  }

  /** Each column of a range's total is the sum over its turns: tokens, recaps, calls of each tool, approvals,
      denials, times and navigation; costs and memory's tokens, of what is known; and the runs of
      subscriptions, each as often as it was reported, in all and in each row. */
  lemma {:induction false} TotalSumsItsTurns(records: seq<Record>, runs: seq<TurnRun>)
    ensures forall c: Column :: Of(SummaryTotals(records, runs), c) == SumOf(records, c)
    ensures forall c: RealColumn :: IsKnownSum(OfReal(SummaryTotals(records, runs), c), records, c)
    ensures forall run :: SummaryTotals(records, runs).runs[run] == RunsLike(runs, run)
    ensures forall row, source :: RowOf(SummaryTotals(records, runs).origins, row).runs[source] == RunsOfSource(runs, row, source)
  {
    var counted, turns := Filter(runs, OfSubscription()), AllRecords(WITH_CHAT, records);
    forall c: Column ensures Of(SummaryTotals(records, runs), c) == SumOf(records, c) {
      NothingInChat(c);
      RecordsSum(WITH_CHAT, records, c);
      RunsLeave(turns, counted, c);
    }
    forall c: RealColumn ensures IsKnownSum(OfReal(SummaryTotals(records, runs), c), records, c) {
      RecordsSumReal(records, c);
      RunsLeaveReal(turns, counted, c);
    }
    hide AllRecords, AllRuns, Of, OfReal, IsKnownSum, RowOf;
    forall run ensures SummaryTotals(records, runs).runs[run] == RunsLike(runs, run) {
      RunsAreCounted(records, runs, run, None, Api);
    }
    forall row, source ensures RowOf(SummaryTotals(records, runs).origins, row).runs[source] == RunsOfSource(runs, row, source) {
      RunsAreCounted(records, runs, DelegatedRun(NO_TOKENS, Api, 0, None), row, source);
    }
  }

  lemma RunsAreCounted(records: seq<Record>, runs: seq<TurnRun>, run: DelegatedRun, row: Option<string>, source: UsageSource)
    ensures SummaryTotals(records, runs).runs[run] == RunsLike(runs, run)
    ensures RowOf(SummaryTotals(records, runs).origins, row).runs[source] == RunsOfSource(runs, row, source)
  {
    RunsCount(AllRecords(WITH_CHAT, records), runs, run, row, source);
    RecordsRunNothing(WITH_CHAT, records, row);
    NoRunInChat(run, row, source);
  }

  lemma NothingInChat(c: Column)
    ensures Of(WITH_CHAT, c) == 0
  {
  }

  lemma NoRunInChat(run: DelegatedRun, row: Option<string>, source: UsageSource)
    ensures WITH_CHAT.runs[run] == 0 && RowOf(WITH_CHAT.origins, row).runs[source] == 0
  {
  }

  // ---------------------------------------------------------------- the buckets

  /** A moment of a day, or of the week that begins on a Monday; the first day of all was a Thursday. */
  predicate FallsIn(time: int, start: int, size: BucketSize) {
    var day := 86400000000;
    match size
    case ByDay => start * day <= time < (start + 1) * day
    case ByWeek => (start - 4) % 7 == 0 && start * day <= time < (start + 7) * day
  }

  lemma BucketIsWhereItFalls(time: int, start: int, size: BucketSize)
    ensures BucketStart(time, size) == start <==> FallsIn(time, start, size)
  {
    assert DAY == 86400000000;
    assert time == DAY * (time / DAY) + time % DAY && 0 <= time % DAY < DAY;
    if size == ByWeek {
      WeekStartsOnMonday(time, start);
      DaysWithin(time, start, 7);
      MondayIs(start);
    } else {
      DaysWithin(time, start, 1);
    }
  }

  lemma MondayIs(day: int)
    ensures Weekday(day) == 0 <==> (day - 4) % 7 == 0
  {
  }

  lemma DaysWithin(time: int, start: int, days: nat)
    ensures start <= DayOf(time) < start + days <==> start * 86400000000 <= time < (start + days) * 86400000000
  {
    assert time == 86400000000 * DayOf(time) + time % 86400000000 && 0 <= time % 86400000000 < 86400000000;
  }

  function ClosesIn(start: int, size: BucketSize): Record -> bool {
    (r: Record) => FallsIn(r.closedAt, start, size)
  }

  function ReportedIn(start: int, size: BucketSize): TurnRun -> bool {
    (run: TurnRun) => run.reported.run.source != Api && FallsIn(run.reported.time, start, size)
  }

  lemma {:induction false} RecordsInBucket(records: seq<Record>, size: BucketSize, start: int)
    ensures BucketAt(RecordBuckets(records, size), start) == AllRecords(ZERO, Filter(records, ClosesIn(start, size)))
    ensures start in RecordBuckets(records, size) <==> Filter(records, ClosesIn(start, size)) != []
  {
    hide AddRecord, FallsIn, BucketStart;
    if records != [] {
      var n := |records| - 1;
      RecordsInBucket(records[..n], size, start);
      BucketIsWhereItFalls(records[n].closedAt, start, size);
      var kept := Filter(records[..n], ClosesIn(start, size));
      assert (kept + [records[n]])[..|kept|] == kept;
    }
  }

  lemma AllRunsNext(t: Totals, runs: seq<TurnRun>, run: TurnRun)
    ensures AllRuns(t, runs + [run]) == AddRun(AllRuns(t, runs), run)
  {
    hide AddRun;
    assert (runs + [run])[..|runs|] == runs;
  }

  lemma RunBucketsNext(buckets: map<int, Totals>, runs: seq<TurnRun>, run: TurnRun, size: BucketSize, start: int)
    ensures var before, after := RunBuckets(buckets, runs, size), RunBuckets(buckets, runs + [run], size);
            var falls := FallsIn(run.reported.time, start, size);
            && BucketAt(after, start) == (if falls then AddRun(BucketAt(before, start), run) else BucketAt(before, start))
            && (start in after <==> start in before || falls)
  {
    hide AddRun, FallsIn, BucketStart;
    BucketIsWhereItFalls(run.reported.time, start, size);
    assert (runs + [run])[..|runs|] == runs;
  }

  lemma {:induction false} RunsInBucket(buckets: map<int, Totals>, runs: seq<TurnRun>, size: BucketSize, start: int)
    ensures BucketAt(RunBuckets(buckets, Filter(runs, OfSubscription()), size), start)
         == AllRuns(BucketAt(buckets, start), Filter(runs, ReportedIn(start, size)))
    ensures start in RunBuckets(buckets, Filter(runs, OfSubscription()), size)
       <==> start in buckets || Filter(runs, ReportedIn(start, size)) != []
  {
    hide AddRun, FallsIn, BucketAt, RunBuckets, AllRuns;
    if runs == [] {
      NoRunsInBucket(buckets, size, start);
    } else {
      var n := |runs| - 1;
      var counted, kept := Filter(runs[..n], OfSubscription()), Filter(runs[..n], ReportedIn(start, size));
      RunsInBucket(buckets, runs[..n], size, start);
      RunBucketsNext(buckets, counted, runs[n], size, start);
      AllRunsNext(BucketAt(buckets, start), kept, runs[n]);
    }
  }

  lemma NoRunsInBucket(buckets: map<int, Totals>, size: BucketSize, start: int)
    ensures RunBuckets(buckets, [], size) == buckets && AllRuns(BucketAt(buckets, start), []) == BucketAt(buckets, start)
  {
  }

  /** A bucket holds the turns that closed in its day or week, and the subscription runs reported in it, and
      there is one for each day or week that has any. */
  lemma {:induction false} BucketHoldsItsOwn(records: seq<Record>, runs: seq<TurnRun>, size: BucketSize, start: int)
    ensures BucketAt(BucketTotals(records, runs, size), start)
         == AllRuns(AllRecords(ZERO, Filter(records, ClosesIn(start, size))), Filter(runs, ReportedIn(start, size)))
    ensures start in BucketTotals(records, runs, size)
       <==> Filter(records, ClosesIn(start, size)) != [] || Filter(runs, ReportedIn(start, size)) != []
  {
    RecordsInBucket(records, size, start);
    RunsInBucket(RecordBuckets(records, size), runs, size, start);
  }
}
