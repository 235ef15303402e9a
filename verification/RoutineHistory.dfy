/** Routine firings, their failures and the deliveries that wait, folded from the log. A run is known by its
    turn: a history names its last run and the runs hold what became of each. */
module RoutineHistory {
  import opened Events

  datatype RunOutcome = RunIsOpen | RunParked | RunWorked | RunHadNoWork | RunFailed | RunInterrupted

  datatype RunRecord = RunRecord(name: string, startedAt: int, outcome: RunOutcome, text: string, firstLine: string)

  datatype Pending = Pending(key: TurnKey, receipt: nat, name: string, trigger: Trigger, delivery: Arrival)

  datatype History = History(
    lastRun: Option<TurnKey>,
    failureCount: nat,
    lastFailure: Option<string>,
    notices: seq<Notice>,
    disableNotice: Option<Notice>,
    pending: seq<Pending>)

  const NEW_HISTORY := History(None, 0, None, [], None, [])

  datatype Failure = Failure(key: TurnKey, name: string, count: nat, reason: string)

  datatype Histories = Histories(
    routines: map<string, History>,
    runs: map<TurnKey, RunRecord>,
    closed: set<TurnKey>,
    handled: set<TurnKey>,
    failures: seq<Failure>,
    queued: map<TurnKey, string>)

  const NOTHING := Histories(map[], map[], {}, {}, [], map[])

  function HistoryOf(routines: map<string, History>, name: string): History {
    if name in routines then routines[name] else NEW_HISTORY
  }

  function IsNotFor(key: TurnKey): Pending -> bool {
    (p: Pending) => p.key != key
  }

  function IsNotOf(name: string): Failure -> bool {
    (f: Failure) => f.name != name
  }

  function IsUnhandled(handled: set<TurnKey>): Failure -> bool {
    (f: Failure) => f.key !in handled
  }

  /** The text up to the first line break. */
  function FirstLine(text: string): string {
    if text == [] || text[0] == '\n' then [] else [text[0]] + FirstLine(text[1..])
  }

  /** The routine whose open run an event belongs to. */
  function OpenRun(s: Histories, e: Event): Option<string> {
    if KeyOf(e) in s.runs && KeyOf(e) !in s.closed then Some(s.runs[KeyOf(e)].name) else None
  }

  predicate IsDelivery(p: Payload) {
    p.SignalReceived? && p.signal.RoutineOrigin?
  }

  predicate IsFiring(p: Payload) {
    p.TurnStarted? && p.origin.RoutineOrigin?
  }

  /** The routine whose failures an event clears: one reset, or one whose run completed with work. */
  function Clears(s: Histories, e: Event): Option<string> {
    if e.payload.RoutineFailuresReset? then Some(e.payload.routine)
    else if e.payload.TurnCompleted? && e.payload.outcome == Work then OpenRun(s, e)
    else None
  }

  /** The routine whose run an event fails. */
  function Fails(s: Histories, e: Event): Option<string> {
    if e.payload.TurnFailed? then OpenRun(s, e) else None
  }

  // ---------------------------------------------------------------- one event

  function Cleared(h: History): History {
    h.(failureCount := 0, disableNotice := None)
  }

  function WithNotice(h: History, notice: Notice): History {
    h.(notices := h.notices + [notice], disableNotice := if notice.kind == Disabled then Some(notice) else h.disableNotice)
  }

  /** The delivery leaves the routine it waits for. */
  function Dequeued(routines: map<string, History>, queued: map<TurnKey, string>, key: TurnKey): map<string, History> {
    if key in queued && queued[key] in routines
    then routines[queued[key] := routines[queued[key]].(pending := Filter(routines[queued[key]].pending, IsNotFor(key)))]
    else routines
  }

  function RoutinesStep(s: Histories, receipt: nat, e: Event): map<string, History> {
    var key, p := KeyOf(e), e.payload;
    if IsDelivery(p) then
      if key in s.queued then s.routines
      else
        var h := HistoryOf(s.routines, p.signal.name);
        s.routines[p.signal.name :=
          h.(pending := h.pending + [Pending(key, receipt, p.signal.name, p.signal.trigger, p.delivery)])]
    else if p.RoutineFailureHandled? then
      if key !in s.handled && p.notice.Some?
      then s.routines[p.routine := WithNotice(HistoryOf(s.routines, p.routine), p.notice.value)] else s.routines
    else if IsFiring(p) then
      var routines := Dequeued(s.routines, s.queued, key);
      if key in s.runs then routines
      else routines[p.origin.name := HistoryOf(routines, p.origin.name).(lastRun := Some(key))]
    else if Clears(s, e).Some? then
      var name := Clears(s, e).value;
      s.routines[name := Cleared(HistoryOf(s.routines, name))]
    else if Fails(s, e).Some? then
      var name := Fails(s, e).value;
      var h := HistoryOf(s.routines, name);
      s.routines[name := h.(failureCount := h.failureCount + 1, lastFailure := Some(p.message))]
    else s.routines
  }

  function RunStep(run: RunRecord, p: Payload): RunRecord {
    match p
    case MessageDelta(text) => run.(text := run.text + text, firstLine := FirstLine(run.text + text))
    case ToolCall(_, _, _, _) => run.(text := "", firstLine := "")
    case ApprovalRequested(_, _) => run.(outcome := RunParked)
    case TurnCompleted(_, outcome) => run.(outcome := if outcome == Work then RunWorked else RunHadNoWork)
    case TurnFailed(_, _) => run.(outcome := RunFailed)
    case TurnInterrupted(_) => run.(outcome := RunInterrupted)
    case _ => run
  }

  function RunsStep(s: Histories, e: Event): map<TurnKey, RunRecord> {
    var key, p := KeyOf(e), e.payload;
    if IsFiring(p) then
      if key in s.runs then s.runs else s.runs[key := RunRecord(p.origin.name, e.time, RunIsOpen, "", "")]
    else if OpenRun(s, e).Some? then s.runs[key := RunStep(s.runs[key], p)]
    else s.runs
  }

  function ClosedStep(s: Histories, e: Event): set<TurnKey> {
    if IsClosing(e.payload) && OpenRun(s, e).Some? then s.closed + {KeyOf(e)} else s.closed
  }

  function HandledStep(handled: set<TurnKey>, e: Event): set<TurnKey> {
    if e.payload.RoutineFailureHandled? then handled + {KeyOf(e)} else handled
  }

  /** A routine's failures leave when they are cleared, and a run's failure joins them with its count. */
  function FailuresStep(s: Histories, e: Event): seq<Failure> {
    if Clears(s, e).Some? then Filter(s.failures, IsNotOf(Clears(s, e).value))
    else if Fails(s, e).Some? then
      var name := Fails(s, e).value;
      s.failures + [Failure(KeyOf(e), name, HistoryOf(s.routines, name).failureCount + 1, e.payload.message)]
    else s.failures
  }

  function QueuedStep(queued: map<TurnKey, string>, e: Event): map<TurnKey, string> {
    if IsDelivery(e.payload) then
      if KeyOf(e) in queued then queued else queued[KeyOf(e) := e.payload.signal.name]
    else if IsFiring(e.payload) then queued - {KeyOf(e)}
    else queued
  }

  function Step(s: Histories, receipt: nat, e: Event): Histories {
    Histories(RoutinesStep(s, receipt, e), RunsStep(s, e), ClosedStep(s, e), HandledStep(s.handled, e),
              FailuresStep(s, e), QueuedStep(s.queued, e))
  }

  function Fold(events: seq<Event>): Histories {
    if events == [] then NOTHING
    else
      var n := |events| - 1;
      Step(Fold(events[..n]), n, events[n])
  }

  function Unhandled(s: Histories): seq<Failure> {
    Filter(s.failures, IsUnhandled(s.handled))
  }

  // ---------------------------------------------------------------- the pass

  /** Every open run and every failure is of a run of a routine that has a history. */
  ghost predicate Known(s: Histories) {
    && (forall key :: key in s.runs ==> s.runs[key].name in s.routines)
    && (forall key :: key in s.queued ==> s.queued[key] in s.routines)
    && s.closed <= s.runs.Keys
  }

  lemma StepKnown(s: Histories, receipt: nat, e: Event)
    requires Known(s)
    ensures Known(Step(s, receipt, e))
  {
    hide RoutinesStep, FailuresStep, HandledStep;
    KnownRoutines(s, receipt, e);
    var after := Step(s, receipt, e);
    assert forall key :: key in after.runs && key != KeyOf(e) ==> key in s.runs && after.runs[key] == s.runs[key];
  }

  /** A routine keeps having a history, and the event's own has one. */
  lemma KnownRoutines(s: Histories, receipt: nat, e: Event)
    requires Known(s)
    ensures s.routines.Keys <= RoutinesStep(s, receipt, e).Keys
    ensures IsDelivery(e.payload) && KeyOf(e) !in s.queued ==> e.payload.signal.name in RoutinesStep(s, receipt, e)
    ensures IsFiring(e.payload) && KeyOf(e) !in s.runs ==> e.payload.origin.name in RoutinesStep(s, receipt, e)
  {
    hide HistoryOf, Cleared, WithNotice, Filter;
  }

  lemma {:induction false} FoldKnown(events: seq<Event>)
    ensures Known(Fold(events))
  {
    hide Step, Known;
    if events == [] {
      NothingKnown();
    } else {
      var n := |events| - 1;
      FoldKnown(events[..n]);
      StepKnown(Fold(events[..n]), n, events[n]);
    }
  }

  lemma NothingKnown()
    ensures Known(NOTHING)
  {
  }

  /** The histories with a routine's failures cleared. */
  function Clear(s: Histories, name: string): Histories {
    s.(routines := s.routines[name := Cleared(HistoryOf(s.routines, name))], failures := Filter(s.failures, IsNotOf(name)))
  }

  /** An event of an open run. */
  method TakeOpenRun(s: Histories, receipt: nat, e: Event) returns (after: Histories)
    requires Known(s) && OpenRun(s, e).Some?
    requires !IsDelivery(e.payload) && !IsFiring(e.payload) && !e.payload.RoutineFailureHandled? && !e.payload.RoutineFailuresReset?
    ensures after == Step(s, receipt, e)
  {
    var key, p := KeyOf(e), e.payload;
    var run := s.runs[key];
    after := s.(runs := s.runs[key := RunStep(run, p)]);
    if p.TurnCompleted? && p.outcome == Work {
      after := Clear(after, run.name);
    } else if p.TurnFailed? {
      var h := s.routines[run.name];
      h := h.(failureCount := h.failureCount + 1, lastFailure := Some(p.message));
      after := after.(routines := s.routines[run.name := h], failures := s.failures + [Failure(key, run.name, h.failureCount, p.message)]);
    }
    if IsClosing(p) {
      after := after.(closed := s.closed + {key});
    }
  }

  /** A run of a routine starts, and the delivery that waited for its turn waits no longer. */
  method TakeFiring(s: Histories, receipt: nat, e: Event) returns (after: Histories)
    requires IsFiring(e.payload)
    ensures after == Step(s, receipt, e)
  {
    var key, p := KeyOf(e), e.payload;
    after := s.(routines := Dequeued(s.routines, s.queued, key), queued := s.queued - {key});
    if key !in s.runs {
      after := after.(runs := s.runs[key := RunRecord(p.origin.name, e.time, RunIsOpen, "", "")],
                      routines := after.routines[p.origin.name := HistoryOf(after.routines, p.origin.name).(lastRun := Some(key))]);
    }
  }

  /** A delivery arrives, unless one waits for its turn already. */
  method TakeDelivery(s: Histories, receipt: nat, e: Event) returns (after: Histories)
    requires IsDelivery(e.payload)
    ensures after == Step(s, receipt, e)
  {
    var key, p := KeyOf(e), e.payload;
    after := s;
    if key !in s.queued {
      var h := HistoryOf(s.routines, p.signal.name);
      h := h.(pending := h.pending + [Pending(key, receipt, p.signal.name, p.signal.trigger, p.delivery)]);
      after := s.(routines := s.routines[p.signal.name := h], queued := s.queued[key := p.signal.name]);
    }
  }

  /** A failure's marker, or a reset. */
  method TakeMarker(s: Histories, receipt: nat, e: Event) returns (after: Histories)
    requires e.payload.RoutineFailureHandled? || e.payload.RoutineFailuresReset?
    ensures after == Step(s, receipt, e)
  {
    var key, p := KeyOf(e), e.payload;
    after := s;
    if p.RoutineFailuresReset? {
      return Clear(s, p.routine);
    }
    if key !in s.handled && p.notice.Some? {
      after := after.(routines := s.routines[p.routine := WithNotice(HistoryOf(s.routines, p.routine), p.notice.value)]);
    }
    after := after.(handled := s.handled + {key});
  }

  /** An event of no routine and no open run of one changes nothing. */
  lemma OthersChangeNothing(s: Histories, receipt: nat, e: Event)
    requires OpenRun(s, e).None? && !IsDelivery(e.payload) && !IsFiring(e.payload)
    requires !e.payload.RoutineFailureHandled? && !e.payload.RoutineFailuresReset?
    ensures Step(s, receipt, e) == s
  {
  }

  /** Read the events once, updating the histories in place. */
  method RoutineHistoryOf(events: seq<Event>) returns (s: Histories, unhandled: seq<Failure>)
    ensures s == Fold(events) && unhandled == Unhandled(s)
  {
    hide Step, Known;
    s := NOTHING;
    var receipt := 0;
    while receipt < |events|
      invariant 0 <= receipt <= |events|
      invariant s == Fold(events[..receipt])
    {
      var e := events[receipt];
      FoldKnown(events[..receipt]);
      assert events[..receipt + 1][..receipt] == events[..receipt];
      if IsDelivery(e.payload) {
        s := TakeDelivery(s, receipt, e);
      } else if e.payload.RoutineFailureHandled? || e.payload.RoutineFailuresReset? {
        s := TakeMarker(s, receipt, e);
      } else if IsFiring(e.payload) {
        s := TakeFiring(s, receipt, e);
      } else if KeyOf(e) in s.runs && KeyOf(e) !in s.closed {
        s := TakeOpenRun(s, receipt, e);
      } else {
        OthersChangeNothing(s, receipt, e);
      }
      receipt := receipt + 1;
    }
    assert events[..|events|] == events;
    unhandled := Filter(s.failures, IsUnhandled(s.handled));
  }
}
