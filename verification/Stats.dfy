/** Statistics: the turns of a range and its subscription runs, added up in buckets of a day or a week, and
    in one total. Every column of the buckets adds up to the total's. */
module Stats {
  import opened Events
  import opened Metrics
  import opened MetricsWindow

  datatype BucketSize = ByDay | ByWeek

  /** Monday is the first day of the week; the first day of all is a Thursday. */
  function Weekday(day: int): int {
    (day + 3) % 7
  }

  /** The day a moment falls in, or the Monday of its week. */
  function BucketStart(time: int, size: BucketSize): int {
    var day := DayOf(time);
    if size == ByWeek then day - Weekday(day) else day
  }

  /** A week's bucket is the one Monday within the seven days up to the moment's own. */
  lemma WeekStartsOnMonday(time: int, monday: int)
    ensures monday == BucketStart(time, ByWeek) <==> Weekday(monday) == 0 && monday <= DayOf(time) < monday + 7
  {
    var day := DayOf(time);
    var start := day - Weekday(day);
    assert (day + 3) == 7 * ((day + 3) / 7) + Weekday(day);
    assert start + 3 == 7 * ((day + 3) / 7);
    if Weekday(monday) == 0 && monday <= day < monday + 7 {
      assert monday + 3 == 7 * ((monday + 3) / 7);
    }
  }

  // ---------------------------------------------------------------- costs

  /** A total stays unknown until a turn was priced. */
  function AddedCost(total: Option<real>, cost: Option<real>): Option<real> {
    if cost.None? then total else if total.None? then cost else Some(total.value + cost.value)
  }

  // ---------------------------------------------------------------- totals

  datatype OriginTotals = OriginTotals(turns: nat, noWork: nat, failed: nat, cost: Option<real>, runs: multiset<UsageSource>)

  datatype Closings = Closings(completed: nat, failed: nat, interrupted: nat)

  datatype MemoryTotals = MemoryTotals(calls: MemoryCalls, without: nat, tokens: real, carried: real, carriedCost: Option<real>, estimated: nat)

  datatype NavigationTotals = NavigationTotals(turns: nat, readCalls: nat, durationMs: int, tokens: int, repeatOpens: int)

  datatype Spread = Spread(approvals: nat, denies: Denies, toolTime: ToolTime, duration: int, durations: nat, good: nat, bad: nat)

  datatype Totals = Totals(
    closings: Closings,
    tokens: Tokens,
    recapInput: int,
    recapOutput: int,
    cost: Option<real>,
    toolCalls: multiset<string>,
    memory: MemoryTotals,
    spread: Spread,
    navigation: NavigationTotals,
    runs: multiset<DelegatedRun>,
    origins: map<Option<string>, OriginTotals>)

  const NO_ORIGIN := OriginTotals(0, 0, 0, None, multiset{})
  const NO_CALLS := MemoryCalls(0, 0, 0, 0)
  const NO_MEMORY := MemoryTotals(NO_CALLS, 0, 0.0, 0.0, None, 0)
  const NO_SPREAD := Spread(0, Denies(0, 0), ToolTime(0, 0), 0, 0, 0, 0)
  const ZERO := Totals(Closings(0, 0, 0), NO_TOKENS, 0, 0, None, multiset{}, NO_MEMORY, NO_SPREAD, NavigationTotals(0, 0, 0, 0, 0), multiset{}, map[])

  /** The routine that started a turn, or None for chat. */
  function RoutineOf(origin: Option<Origin>): Option<string> {
    if origin.Some? && origin.value.RoutineOrigin? then Some(origin.value.name) else None
  }

  function RowOf(origins: map<Option<string>, OriginTotals>, row: Option<string>): OriginTotals {
    if row in origins then origins[row] else NO_ORIGIN
  }

  // ---------------------------------------------------------------- adding one turn, or one run

  function AddOrigin(o: OriginTotals, r: Record): OriginTotals {
    OriginTotals(if r.outcome == NoWork then o.turns else o.turns + 1,
                 if r.outcome == NoWork then o.noWork + 1 else o.noWork,
                 if r.closing == Metrics.Failed then o.failed + 1 else o.failed,
                 AddedCost(o.cost, r.cost), o.runs)
  }

  function AddClosing(c: Closings, kind: ClosingKind): Closings {
    match kind
    case Completed => c.(completed := c.completed + 1)
    case Failed => c.(failed := c.failed + 1)
    case Interrupted => c.(interrupted := c.interrupted + 1)
  }

  function AddCalls(a: MemoryCalls, b: MemoryCalls): MemoryCalls {
    MemoryCalls(a.search + b.search, a.open + b.open, a.remember + b.remember, a.forget + b.forget)
  }

  function One(counts: bool): nat {
    if counts then 1 else 0
  }

  function AddMemory(m: MemoryTotals, r: Record): MemoryTotals {
    MemoryTotals(AddCalls(m.calls, r.memoryCalls), m.without + One(!r.memoryConsulted), m.tokens + r.memoryTokens,
                 m.carried + r.memoryCarried, AddedCost(m.carriedCost, r.memoryCarriedCost), m.estimated + One(!r.memoryMeasured))
  }

  function AddSpread(s: Spread, r: Record): Spread {
    var duration := r.Duration();
    Spread(s.approvals + r.approvals,
           Denies(s.denies.policy + r.denies.policy, s.denies.user + r.denies.user),
           ToolTime(s.toolTime.readMs + r.toolTime.readMs, s.toolTime.writeMs + r.toolTime.writeMs),
           if duration.Some? then s.duration + duration.value else s.duration,
           s.durations + One(duration.Some?),
           s.good + One(r.rating == Some(true)),
           s.bad + One(r.rating == Some(false)))
  }

  /** Only a turn that wrote counts towards navigation. */
  function AddNavigation(n: NavigationTotals, r: Record): NavigationTotals {
    if r.navigation.writeCalls == 0 then n
    else NavigationTotals(n.turns + 1, n.readCalls + r.navigation.readCalls, n.durationMs + r.navigation.durationMs,
                          n.tokens + r.navigation.tokensBeforeFirstWrite, n.repeatOpens + r.navigation.repeatOpens)
  }

  function AddRecord(t: Totals, r: Record): Totals {
    var row := RoutineOf(r.origin);
    Totals(AddClosing(t.closings, r.closing), AddTokens(t.tokens, r.tokens),
           t.recapInput + r.recapInput, t.recapOutput + r.recapOutput, AddedCost(t.cost, r.cost), t.toolCalls + r.toolCalls,
           AddMemory(t.memory, r), AddSpread(t.spread, r), AddNavigation(t.navigation, r), t.runs,
           t.origins[row := AddOrigin(RowOf(t.origins, row), r)])
  }

  function AddSource(o: OriginTotals, source: UsageSource): OriginTotals {
    o.(runs := o.runs + multiset{source})
  }

  function AddRun(t: Totals, run: TurnRun): Totals {
    var row := RoutineOf(run.origin);
    t.(runs := t.runs + multiset{run.reported.run},
       origins := t.origins[row := AddSource(RowOf(t.origins, row), run.reported.run.source)])
  }

  predicate IsSubscription(run: TurnRun) {
    run.reported.run.source != Api
  }

  function OfSubscription(): TurnRun -> bool {
    (run: TurnRun) => IsSubscription(run)
  }

  // ---------------------------------------------------------------- the total and the buckets

  function AllRecords(t: Totals, records: seq<Record>): Totals {
    if records == [] then t else AddRecord(AllRecords(t, records[..|records| - 1]), records[|records| - 1])
  }

  function AllRuns(t: Totals, runs: seq<TurnRun>): Totals {
    if runs == [] then t else AddRun(AllRuns(t, runs[..|runs| - 1]), runs[|runs| - 1])
  }

  /** The total has a row for chat, whether or not a turn was of it. */
  const WITH_CHAT := ZERO.(origins := map[None := NO_ORIGIN])

  function SummaryTotals(records: seq<Record>, runs: seq<TurnRun>): Totals {
    AllRuns(AllRecords(WITH_CHAT, records), Filter(runs, OfSubscription()))
  }

  function BucketAt(buckets: map<int, Totals>, start: int): Totals {
    if start in buckets then buckets[start] else ZERO
  }

  function RecordBuckets(records: seq<Record>, size: BucketSize): map<int, Totals> {
    if records == [] then map[]
    else
      var before, r := RecordBuckets(records[..|records| - 1], size), records[|records| - 1];
      var start := BucketStart(r.closedAt, size);
      before[start := AddRecord(BucketAt(before, start), r)]
  }

  function RunBuckets(buckets: map<int, Totals>, runs: seq<TurnRun>, size: BucketSize): map<int, Totals> {
    if runs == [] then buckets
    else
      var before, run := RunBuckets(buckets, runs[..|runs| - 1], size), runs[|runs| - 1];
      var start := BucketStart(run.reported.time, size);
      before[start := AddRun(BucketAt(before, start), run)]
  }

  function BucketTotals(records: seq<Record>, runs: seq<TurnRun>, size: BucketSize): map<int, Totals> {
    RunBuckets(RecordBuckets(records, size), Filter(runs, OfSubscription()), size)
  }

  method StatsSummary(records: seq<Record>, runs: seq<TurnRun>) returns (totals: Totals)
    ensures totals == SummaryTotals(records, runs)
  {
    hide AddRecord, AddRun, OfSubscription;
    totals := WITH_CHAT;
    var i := 0;
    while i < |records|
      invariant 0 <= i <= |records|
      invariant totals == AllRecords(WITH_CHAT, records[..i])
    {
      assert records[..i + 1][..i] == records[..i];
      totals := AddRecord(totals, records[i]);
      i := i + 1;
    }
    assert records[..|records|] == records;
    var counted := Filter(runs, OfSubscription());
    i := 0;
    while i < |counted|
      invariant 0 <= i <= |counted|
      invariant totals == AllRuns(AllRecords(WITH_CHAT, records), counted[..i])
    {
      assert counted[..i + 1][..i] == counted[..i];
      totals := AddRun(totals, counted[i]);
      i := i + 1;
    }
    assert counted[..|counted|] == counted;
  }

  method StatsBuckets(records: seq<Record>, runs: seq<TurnRun>, size: BucketSize) returns (buckets: map<int, Totals>)
    ensures buckets == BucketTotals(records, runs, size)
  {
    hide AddRecord, AddRun, BucketStart, OfSubscription;
    buckets := map[];
    var i := 0;
    while i < |records|
      invariant 0 <= i <= |records|
      invariant buckets == RecordBuckets(records[..i], size)
    {
      assert records[..i + 1][..i] == records[..i];
      var start := BucketStart(records[i].closedAt, size);
      buckets := buckets[start := AddRecord(BucketAt(buckets, start), records[i])];
      i := i + 1;
    }
    assert records[..|records|] == records;
    var counted := Filter(runs, OfSubscription());
    i := 0;
    while i < |counted|
      invariant 0 <= i <= |counted|
      invariant buckets == RunBuckets(RecordBuckets(records, size), counted[..i], size)
    {
      assert counted[..i + 1][..i] == counted[..i];
      var start := BucketStart(counted[i].reported.time, size);
      buckets := buckets[start := AddRun(BucketAt(buckets, start), counted[i])];
      i := i + 1;
    }
    assert counted[..|counted|] == counted;
  }
}
