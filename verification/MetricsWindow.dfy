/** Metrics from a moment on need only a window of the log: what was stored since, the state counted
    before, and the earlier events of the turns that began before. This module reads that window as the
    instance does. */
module MetricsWindow {
  import opened Events
  import opened Pricing
  import opened Metrics

  // ---------------------------------------------------------------- the window

  /** What is folded from before a range, whatever turn it belongs to. */
  predicate StateType(p: Payload) {
    p.RunStopped? || p.ProfileCounted?
  }

  /** The events of a turn the fold reads. */
  predicate TurnType(p: Payload) {
    p.TurnStarted? || p.ModelCompleted? || p.ToolCall? || p.ToolGated? || p.ToolResult? || p.MemoryRecalled?
    || p.ApprovalRequested? || p.RunDelegated? || IsClosing(p) || p.MemoryRecapped? || p.TurnRated?
  }

  predicate MetricType(p: Payload) {
    StateType(p) || TurnType(p)
  }

  /** A turn's start, and the events that are folded differently once their turn started. */
  predicate JoinedType(p: Payload) {
    p.TurnStarted? || IsClosing(p) || p.RunDelegated? || p.MemoryRecalled?
  }

  const IS_STATE: Payload -> bool := (p: Payload) => StateType(p)
  const IS_METRIC: Payload -> bool := (p: Payload) => MetricType(p)
  const IS_JOINED: Payload -> bool := (p: Payload) => JoinedType(p)

  function StartedIn(events: seq<Event>): set<TurnKey> {
    set e | e in events && e.payload.TurnStarted? :: KeyOf(e)
  }

  /** The turns that joined events belong to before any start of theirs, in order of appearance. */
  function EarlierTurns(events: seq<Event>): seq<TurnKey> {
    if events == [] then []
    else
      var before, e := EarlierTurns(events[..|events| - 1]), events[|events| - 1];
      if JoinedType(e.payload) && !e.payload.TurnStarted? && KeyOf(e) !in StartedIn(events[..|events| - 1]) && KeyOf(e) !in before
      then before + [KeyOf(e)] else before
  }

  function Replayed(key: TurnKey, since: int): Event -> bool {
    (e: Event) => e.thread == key.thread && e.time < since && TurnType(e.payload)
  }

  /** What a turn stored before the window, of what the fold reads. */
  function Replay(log: seq<Event>, key: TurnKey, since: int): seq<Event> {
    Filter(TurnEvents(log, key.turn), Replayed(key, since))
  }

  function Replays(log: seq<Event>, keys: seq<TurnKey>, since: int): seq<Event> {
    if keys == [] then [] else Replays(log, keys[..|keys| - 1], since) + Replay(log, keys[|keys| - 1], since)
  }

  function MetricsEvents(log: seq<Event>, since: Option<int>): seq<Event> {
    if since.None? then EventsOf(log, IS_METRIC, None, None)
    else
      EventsOf(log, IS_STATE, None, since)
      + Replays(log, EarlierTurns(EventsOf(log, IS_JOINED, since, None)), since.value)
      + EventsOf(log, IS_METRIC, since, None)
  }

  /** Note the turns that started among the events, and the others, each once. */
  method ReadEarlierTurns(joined: seq<Event>) returns (earlier: seq<TurnKey>)
    requires forall e :: e in joined ==> JoinedType(e.payload)
    ensures earlier == EarlierTurns(joined)
  {
    var started: set<TurnKey> := {};
    earlier := [];
    var i := 0;
    while i < |joined|
      invariant 0 <= i <= |joined|
      invariant started == StartedIn(joined[..i]) && earlier == EarlierTurns(joined[..i])
    {
      var e := joined[i];
      assert e in joined;
      assert joined[..i + 1] == joined[..i] + [e];
      if e.payload.TurnStarted? {
        started := started + {KeyOf(e)};
      } else if KeyOf(e) !in started && KeyOf(e) !in earlier {
        earlier := earlier + [KeyOf(e)];
      }
      i := i + 1;
    }
    assert joined[..|joined|] == joined;
  }

  lemma NoReplays(log: seq<Event>, state: seq<Event>, since: int)
    ensures state == state + Replays(log, [], since)
  {
  }

  lemma ReplaysNext(log: seq<Event>, state: seq<Event>, keys: seq<TurnKey>, j: nat, since: int)
    requires j < |keys|
    ensures state + Replays(log, keys[..j], since) + Filter(TurnEvents(log, keys[j].turn), Replayed(keys[j], since))
         == state + Replays(log, keys[..j + 1], since)
  {
    hide Filter, TurnEvents, Replayed;
    assert keys[..j + 1][..j] == keys[..j];
  }

  lemma JoinedAreJoined(log: seq<Event>, since: Option<int>)
    ensures forall e :: e in EventsOf(log, IS_JOINED, since, None) ==> JoinedType(e.payload)
  {
    FilterMembers(log, Reads(IS_JOINED, since, None));
  }

  /** Read the window: the state counted before it, the earlier events of the turns that began before it, and
      the events since. */
  method ReadMetricsEvents(log: seq<Event>, since: Option<int>) returns (events: seq<Event>)
    ensures events == MetricsEvents(log, since)
  {
    if since.None? {
      return EventsOf(log, IS_METRIC, None, None);
    }
    hide Filter, EarlierTurns, EventsOf, TurnEvents, Replayed, Replays;
    events := EventsOf(log, IS_STATE, None, since);
    var joined := EventsOf(log, IS_JOINED, since, None);
    JoinedAreJoined(log, since);
    var earlier := ReadEarlierTurns(joined);
    ghost var state := events;
    NoReplays(log, state, since.value);
    var j := 0;
    while j < |earlier|
      invariant 0 <= j <= |earlier|
      invariant events == state + Replays(log, earlier[..j], since.value)
    {
      ReplaysNext(log, state, earlier, j, since.value);
      events := events + Filter(TurnEvents(log, earlier[j].turn), Replayed(earlier[j], since.value));
      j := j + 1;
    }
    assert earlier[..|earlier|] == earlier;
    events := events + EventsOf(log, IS_METRIC, since, None);
  }

  // ---------------------------------------------------------------- what a range of time reports

  datatype TimeRange = TimeRange(since: Option<int>, until: Option<int>) {
    predicate Includes(time: int) {
      (since.None? || time >= since.value) && (until.None? || time <= until.value)
    }
  }

  function ClosedWithin(range: TimeRange): Record -> bool {
    (r: Record) => range.Includes(r.closedAt)
  }

  function ReportedWithin(range: TimeRange): ReportedRun -> bool {
    (r: ReportedRun) => range.Includes(r.time)
  }

  function StepWithin(range: TimeRange): StepRun -> bool {
    (r: StepRun) => range.Includes(r.reported.time)
  }

  function RecapWithin(range: TimeRange): RunRecap -> bool {
    (r: RunRecap) => range.Includes(r.time)
  }

  function RecallWithin(range: TimeRange): RunRecall -> bool {
    (r: RunRecall) => range.Includes(r.time)
  }

  datatype TurnRun = TurnRun(origin: Option<Origin>, reported: ReportedRun)

  function RunsOf(r: Record, reported: seq<ReportedRun>): seq<TurnRun> {
    seq(|reported|, i requires 0 <= i < |reported| => TurnRun(r.origin, reported[i]))
  }

  /** The delegated runs of every record, whenever its turn closed, that were recorded in the range. */
  function TurnRuns(records: seq<Record>, range: TimeRange): seq<TurnRun> {
    if records == [] then []
    else
      var r := records[|records| - 1];
      TurnRuns(records[..|records| - 1], range) + RunsOf(r, Filter(r.delegated, ReportedWithin(range)))
  }

  function KeysOf(records: seq<Record>): set<TurnKey> {
    set r | r in records :: r.key
  }

  function Among(keys: set<TurnKey>): TurnKey -> bool {
    (key: TurnKey) => key in keys
  }

  function UnpricedOf(unpriced: map<TurnKey, set<string>>, key: TurnKey): set<string> {
    if key in unpriced then unpriced[key] else {}
  }

  function UnpricedModels(records: seq<Record>, unpriced: map<TurnKey, set<string>>): set<string> {
    if records == [] then {}
    else UnpricedModels(records[..|records| - 1], unpriced) + UnpricedOf(unpriced, records[|records| - 1].key)
  }

  /** Everything a range's statistics are made from. */
  datatype Report = Report(
    records: seq<Record>,
    runs: seq<TurnRun>,
    stepRuns: seq<StepRun>,
    runRecaps: seq<RunRecap>,
    runRecalls: seq<RunRecall>,
    unpriced: set<string>,
    warnings: seq<TurnKey>)

  function ReportOf(m: MetricsResult, range: TimeRange): Report {
    var records := Filter(m.records, ClosedWithin(range));
    Report(records,
           TurnRuns(m.records, range),
           Filter(m.stepRuns, StepWithin(range)),
           Filter(m.runRecaps, RecapWithin(range)),
           Filter(m.runRecalls, RecallWithin(range)),
           UnpricedModels(records, m.unpriced),
           Filter(m.mismatches, Among(KeysOf(records))))
  }

  // ---------------------------------------------------------------- what a report holds

  /** A moment of a range, both ends of which belong to it. */
  predicate Within(time: int, range: TimeRange) {
    && (match range.since case None => true case Some(since) => since <= time)
    && (match range.until case None => true case Some(until) => time <= until)
  }

  ghost predicate HasRun(m: MetricsResult, run: TurnRun) {
    exists r :: r in m.records && r.origin == run.origin && run.reported in r.delegated
  }

  ghost predicate ClosedIn(m: MetricsResult, key: TurnKey, range: TimeRange) {
    exists r :: r in m.records && r.key == key && Within(r.closedAt, range)
  }

  lemma {:induction false} TurnRunsAre(records: seq<Record>, range: TimeRange, run: TurnRun)
    ensures run in TurnRuns(records, range)
       <==> Within(run.reported.time, range) && exists r :: r in records && r.origin == run.origin && run.reported in r.delegated
  {
    if records != [] {
      var n := |records| - 1;
      var r := records[n];
      var kept := Filter(r.delegated, ReportedWithin(range));
      TurnRunsAre(records[..n], range, run);
      FilterMembers(r.delegated, ReportedWithin(range));
      assert records == records[..n] + [r];
      assert run in RunsOf(r, kept) <==> run.origin == r.origin && run.reported in kept by {
        if run.origin == r.origin && run.reported in kept {
          var i :| 0 <= i < |kept| && kept[i] == run.reported;
          assert RunsOf(r, kept)[i] == run;
        }
      }
    }
  }

  /** A range reports the records of the turns that closed in it, the runs, recaps and recalls of its moments
      whenever their turns closed, and the warnings of the turns that closed in it. */
  lemma ReportHolds(m: MetricsResult, range: TimeRange)
    ensures var report := ReportOf(m, range);
            && (forall r :: r in report.records <==> r in m.records && Within(r.closedAt, range))
            && (forall run :: run in report.runs <==> HasRun(m, run) && Within(run.reported.time, range))
            && (forall r :: r in report.stepRuns <==> r in m.stepRuns && Within(r.reported.time, range))
            && (forall r :: r in report.runRecaps <==> r in m.runRecaps && Within(r.time, range))
            && (forall r :: r in report.runRecalls <==> r in m.runRecalls && Within(r.time, range))
            && (forall key :: key in report.warnings <==> key in m.mismatches && ClosedIn(m, key, range))
  {
    var records := Filter(m.records, ClosedWithin(range));
    FilterMembers(m.records, ClosedWithin(range));
    FilterMembers(m.stepRuns, StepWithin(range));
    FilterMembers(m.runRecaps, RecapWithin(range));
    FilterMembers(m.runRecalls, RecallWithin(range));
    FilterMembers(m.mismatches, Among(KeysOf(records)));
    hide Filter, TurnRuns;
    forall run ensures run in TurnRuns(m.records, range) <==> HasRun(m, run) && Within(run.reported.time, range) {
      TurnRunsAre(m.records, range, run);
    }
    forall key ensures key in KeysOf(records) <==> ClosedIn(m, key, range) {
    }
  }
}
