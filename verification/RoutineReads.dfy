/** The scheduler reads the routine events alone, and a run's first line from its own turn. Both give what
    the whole log gives. */
module RoutineReads {
  import opened Events
  import opened RoutineHistory

  predicate RoutineType(p: Payload) {
    p.SignalReceived? || p.RoutineFailureHandled? || p.RoutineFailuresReset? || p.TurnStarted? || p.ApprovalRequested? || IsClosing(p)
  }

  const IS_ROUTINE: Payload -> bool := (p: Payload) => RoutineType(p)

  function RoutineOnly(): Event -> bool {
    (e: Event) => RoutineType(e.payload)
  }

  function RoutineEvents(log: seq<Event>): seq<Event> {
    EventsOf(log, IS_ROUTINE, None, None)
  }

  // ---------------------------------------------------------------- what the routine events tell

  function WithoutText(run: RunRecord): RunRecord {
    run.(text := "", firstLine := "")
  }

  function TextsErased(runs: map<TurnKey, RunRecord>): map<TurnKey, RunRecord> {
    map key | key in runs :: WithoutText(runs[key])
  }

  function Renumbered(pending: seq<Pending>, rank: nat -> nat): seq<Pending> {
    if pending == [] then []
    else
      var last := pending[|pending| - 1];
      Renumbered(pending[..|pending| - 1], rank) + [last.(receipt := rank(last.receipt))]
  }

  function HistoryRenumbered(h: History, rank: nat -> nat): History {
    h.(pending := Renumbered(h.pending, rank))
  }

  function AllRenumbered(routines: map<string, History>, rank: nat -> nat): map<string, History> {
    map name | name in routines :: HistoryRenumbered(routines[name], rank)
  }

  /** The histories without the runs' texts, and with the deliveries' receipts numbered anew. */
  function Projected(s: Histories, rank: nat -> nat): Histories {
    Histories(AllRenumbered(s.routines, rank), TextsErased(s.runs), s.closed, s.handled, s.failures, s.queued)
  }

  lemma {:induction false} RenumberedFilter(pending: seq<Pending>, key: TurnKey, rank: nat -> nat)
    ensures Renumbered(Filter(pending, IsNotFor(key)), rank) == Filter(Renumbered(pending, rank), IsNotFor(key))
  {
    if pending != [] {
      var n := |pending| - 1;
      RenumberedFilter(pending[..n], key, rank);
      var last := pending[n].(receipt := rank(pending[n].receipt));
      FilterSnoc(Renumbered(pending[..n], rank), last, IsNotFor(key));
      if IsNotFor(key)(pending[n]) {
        RenumberedSnoc(Filter(pending[..n], IsNotFor(key)), pending[n], rank);
      }
    }
  }

  lemma RenumberedSnoc(pending: seq<Pending>, p: Pending, rank: nat -> nat)
    ensures Renumbered(pending + [p], rank) == Renumbered(pending, rank) + [p.(receipt := rank(p.receipt))]
  {
    assert (pending + [p])[..|pending|] == pending;
  }

  lemma RenumberedUpdate(routines: map<string, History>, name: string, h: History, rank: nat -> nat)
    ensures AllRenumbered(routines[name := h], rank) == AllRenumbered(routines, rank)[name := HistoryRenumbered(h, rank)]
  {
  }

  lemma RenumberedOf(routines: map<string, History>, name: string, rank: nat -> nat)
    ensures HistoryOf(AllRenumbered(routines, rank), name) == HistoryRenumbered(HistoryOf(routines, name), rank)
  {
  }

  lemma SameRun(s: Histories, rank: nat -> nat, e: Event)
    ensures OpenRun(Projected(s, rank), e) == OpenRun(s, e)
    ensures Clears(Projected(s, rank), e) == Clears(s, e)
    ensures Fails(Projected(s, rank), e) == Fails(s, e)
  {
  }

  lemma DequeuedProjects(routines: map<string, History>, queued: map<TurnKey, string>, key: TurnKey, rank: nat -> nat)
    ensures AllRenumbered(Dequeued(routines, queued, key), rank) == Dequeued(AllRenumbered(routines, rank), queued, key)
  {
    hide Filter;
    if key in queued && queued[key] in routines {
      var h := routines[queued[key]];
      RenumberedFilter(h.pending, key, rank);
      RenumberedUpdate(routines, queued[key], h.(pending := Filter(h.pending, IsNotFor(key))), rank);
    }
  }

  lemma FiringProjects(s: Histories, receipt: nat, e: Event, rank: nat -> nat)
    requires IsFiring(e.payload)
    ensures AllRenumbered(RoutinesStep(s, receipt, e), rank) == RoutinesStep(Projected(s, rank), rank(receipt), e)
  {
    hide AllRenumbered, Dequeued, HistoryOf, Filter;
    var key, name := KeyOf(e), e.payload.origin.name;
    var routines := Dequeued(s.routines, s.queued, key);
    DequeuedProjects(s.routines, s.queued, key, rank);
    RenumberedOf(routines, name, rank);
    RenumberedUpdate(routines, name, HistoryOf(routines, name).(lastRun := Some(key)), rank);
    KeysErased(s.runs);
  }

  lemma KeysErased(runs: map<TurnKey, RunRecord>)
    ensures TextsErased(runs).Keys == runs.Keys
  {
  }

  lemma DeliveryProjects(s: Histories, receipt: nat, e: Event, rank: nat -> nat)
    requires IsDelivery(e.payload)
    ensures AllRenumbered(RoutinesStep(s, receipt, e), rank) == RoutinesStep(Projected(s, rank), rank(receipt), e)
  {
    hide AllRenumbered, HistoryOf;
    var p := e.payload;
    var h := HistoryOf(s.routines, p.signal.name);
    var item := Pending(KeyOf(e), receipt, p.signal.name, p.signal.trigger, p.delivery);
    RenumberedSnoc(h.pending, item, rank);
    RenumberedOf(s.routines, p.signal.name, rank);
    RenumberedUpdate(s.routines, p.signal.name, h.(pending := h.pending + [item]), rank);
  }

  lemma RoutinesProject(s: Histories, receipt: nat, e: Event, rank: nat -> nat)
    ensures AllRenumbered(RoutinesStep(s, receipt, e), rank) == RoutinesStep(Projected(s, rank), rank(receipt), e)
  {
    var p := e.payload;
    if IsDelivery(p) {
      DeliveryProjects(s, receipt, e, rank);
    } else if IsFiring(p) {
      FiringProjects(s, receipt, e, rank);
    } else {
      OtherRoutinesProject(s, receipt, e, rank);
    }
  }

  lemma OtherRoutinesProject(s: Histories, receipt: nat, e: Event, rank: nat -> nat)
    requires !IsDelivery(e.payload) && !IsFiring(e.payload)
    ensures AllRenumbered(RoutinesStep(s, receipt, e), rank) == RoutinesStep(Projected(s, rank), rank(receipt), e)
  {
    hide AllRenumbered, HistoryOf, OpenRun;
    var p := e.payload;
    SameRun(s, rank, e);
    if p.RoutineFailureHandled? {
      RenumberedOf(s.routines, p.routine, rank);
      if p.notice.Some? {
        RenumberedUpdate(s.routines, p.routine, WithNotice(HistoryOf(s.routines, p.routine), p.notice.value), rank);
      }
    } else if Clears(s, e).Some? {
      var name := Clears(s, e).value;
      RenumberedOf(s.routines, name, rank);
      RenumberedUpdate(s.routines, name, Cleared(HistoryOf(s.routines, name)), rank);
    } else if Fails(s, e).Some? {
      var name := Fails(s, e).value;
      var h := HistoryOf(s.routines, name);
      RenumberedOf(s.routines, name, rank);
      RenumberedUpdate(s.routines, name, h.(failureCount := h.failureCount + 1, lastFailure := Some(p.message)), rank);
    }
  }

  lemma RunsProject(s: Histories, e: Event, rank: nat -> nat)
    ensures RoutineType(e.payload) ==> TextsErased(RunsStep(s, e)) == RunsStep(Projected(s, rank), e)
    ensures !RoutineType(e.payload) ==> TextsErased(RunsStep(s, e)) == TextsErased(s.runs)
  {
  }

  lemma FailuresProject(s: Histories, e: Event, rank: nat -> nat)
    ensures FailuresStep(s, e) == FailuresStep(Projected(s, rank), e)
  {
    SameRun(s, rank, e);
    if Fails(s, e).Some? {
      RenumberedOf(s.routines, Fails(s, e).value, rank);
    }
  }

  /** A routine event does the same to the histories as to what the routine events tell of them. */
  lemma StepProjects(s: Histories, receipt: nat, e: Event, rank: nat -> nat)
    requires RoutineType(e.payload)
    ensures Projected(Step(s, receipt, e), rank) == Step(Projected(s, rank), rank(receipt), e)
  {
    hide RoutinesStep, RunsStep, FailuresStep, AllRenumbered, TextsErased, OpenRun;
    RoutinesProject(s, receipt, e, rank);
    RunsProject(s, e, rank);
    FailuresProject(s, e, rank);
    SameRun(s, rank, e);
  }

  /** Any other event changes at most a run's text. */
  lemma OtherProjects(s: Histories, receipt: nat, e: Event, rank: nat -> nat)
    requires !RoutineType(e.payload)
    ensures Projected(Step(s, receipt, e), rank) == Projected(s, rank)
  {
    hide AllRenumbered, TextsErased;
    RunsProject(s, e, rank);
  }

  /** An event's place among the routine events of a log. */
  function Rank(log: seq<Event>): nat -> nat {
    (i: nat) => if i <= |log| then |Filter(log[..i], RoutineOnly())| else 0
  }

  lemma FoldNext(events: seq<Event>, e: Event)
    ensures Fold(events + [e]) == Step(Fold(events), |events|, e)
  {
    assert (events + [e])[..|events|] == events;
  }

  /** One more event of the log, and of the routine events when it is one. */
  lemma NextProjects(prefix: seq<Event>, kept: seq<Event>, e: Event, rank: nat -> nat)
    requires Fold(kept) == Projected(Fold(prefix), rank) && rank(|prefix|) == |kept|
    ensures Fold(if RoutineType(e.payload) then kept + [e] else kept) == Projected(Fold(prefix + [e]), rank)
  {
    FoldNext(prefix, e);
    FoldNext(kept, e);
    hide Fold, Step, Projected;
    if RoutineType(e.payload) {
      StepProjects(Fold(prefix), |prefix|, e, rank);
    } else {
      OtherProjects(Fold(prefix), |prefix|, e, rank);
    }
  }

  lemma RankAt(log: seq<Event>, i: nat)
    requires i <= |log|
    ensures Rank(log)(i) == |Filter(log[..i], RoutineOnly())|
  {
  }

  lemma NoEventProjects(rank: nat -> nat)
    ensures Fold(Filter([], RoutineOnly())) == Projected(Fold([]), rank)
  {
  }

  lemma PrefixNext(prefix: seq<Event>, e: Event, rank: nat -> nat)
    requires Fold(Filter(prefix, RoutineOnly())) == Projected(Fold(prefix), rank)
    requires rank(|prefix|) == |Filter(prefix, RoutineOnly())|
    ensures Fold(Filter(prefix + [e], RoutineOnly())) == Projected(Fold(prefix + [e]), rank)
  {
    hide Fold, Projected, Filter, RoutineType;
    var kept := Filter(prefix, RoutineOnly());
    FilterSnoc(prefix, e, RoutineOnly());
    assert Filter(prefix + [e], RoutineOnly()) == if RoutineType(e.payload) then kept + [e] else kept;
    NextProjects(prefix, kept, e, rank);
  }

  lemma {:induction false} PrefixProjects(log: seq<Event>, i: nat)
    requires i <= |log|
    ensures Fold(Filter(log[..i], RoutineOnly())) == Projected(Fold(log[..i]), Rank(log))
  {
    hide Fold, Projected, Filter, Rank, RoutineType;
    if i == 0 {
      assert log[..0] == [];
      NoEventProjects(Rank(log));
    } else {
      PrefixProjects(log, i - 1);
      RankAt(log, i - 1);
      assert log[..i] == log[..i - 1] + [log[i - 1]];
      PrefixNext(log[..i - 1], log[i - 1], Rank(log));
    }
  }

  lemma RoutineOnlyIsTheRead(log: seq<Event>)
    ensures RoutineEvents(log) == Filter(log, RoutineOnly())
  {
    FilterAgree(log, RoutineOnly(), Reads(IS_ROUTINE, None, None));
  }

  /** Folding the routine events alone gives every history, failure and outcome the whole log gives: only the
      first lines are missing, and the receipts are counted among the routine events. */
  lemma {:induction false} RoutineEventsTell(log: seq<Event>)
    ensures Fold(RoutineEvents(log)) == Projected(Fold(log), Rank(log))
    ensures Unhandled(Fold(RoutineEvents(log))) == Unhandled(Fold(log))
  {
    PrefixProjects(log, |log|);
    assert log[..|log|] == log;
    RoutineOnlyIsTheRead(log);
  }

  lemma {:induction false} RankGrows(log: seq<Event>, i: nat, j: nat)
    requires i <= j <= |log|
    ensures Rank(log)(i) <= Rank(log)(j)
  {
    if i < j {
      RankGrows(log, i, j - 1);
      assert log[..j][..j - 1] == log[..j - 1];
    }
  }

  /** The new numbers keep the order of the old, so the delivery received first stays the first. */
  lemma RankKeepsOrder(log: seq<Event>, i: nat, j: nat)
    requires i < j <= |log| && RoutineType(log[i].payload)
    ensures Rank(log)(i) < Rank(log)(j)
  {
    assert log[..i + 1][..i] == log[..i];
    RankGrows(log, i + 1, j);
  }

  // ---------------------------------------------------------------- the delivery that starts next

  ghost predicate IsPending(s: Histories, p: Pending) {
    exists name :: name in s.routines && p in s.routines[name].pending
  }

  /** A disabled routine's deliveries wait, but for those run by hand. */
  predicate MayStart(p: Pending, disabled: set<string>) {
    p.name !in disabled || p.trigger == Manual
  }

  /** The delivery received first, of those that may start. */
  ghost predicate StartsNext(s: Histories, disabled: set<string>, p: Pending) {
    && IsPending(s, p) && MayStart(p, disabled)
    && forall q :: IsPending(s, q) && MayStart(q, disabled) ==> p.receipt <= q.receipt
  }

  /** A delivery that waits has the receipt of an arrival. */
  ghost predicate HasReceipt(log: seq<Event>, p: Pending) {
    p.receipt < |log| && IsDelivery(log[p.receipt].payload) && KeyOf(log[p.receipt]) == p.key
  }

  lemma StepPending(s: Histories, receipt: nat, e: Event, p: Pending)
    requires IsPending(Step(s, receipt, e), p)
    ensures IsPending(s, p) || (p.receipt == receipt && IsDelivery(e.payload) && KeyOf(e) == p.key)
  {
    hide RunsStep, FailuresStep, OpenRun, Filter;
    var name :| name in Step(s, receipt, e).routines && p in Step(s, receipt, e).routines[name].pending;
    if IsFiring(e.payload) && KeyOf(e) in s.queued && s.queued[KeyOf(e)] in s.routines {
      FilterMembers(s.routines[s.queued[KeyOf(e)]].pending, IsNotFor(KeyOf(e)));
    }
    if name in s.routines && p in s.routines[name].pending {
      assert IsPending(s, p);
    }
  }

  lemma {:induction false} PendingHasReceipt(log: seq<Event>, p: Pending)
    requires IsPending(Fold(log), p)
    ensures HasReceipt(log, p)
  {
    hide Step, IsPending;
    if log == [] {
      NonePending(p);
    } else {
      var n := |log| - 1;
      StepPending(Fold(log[..n]), n, log[n], p);
      if IsPending(Fold(log[..n]), p) {
        PendingHasReceipt(log[..n], p);
      }
    }
  }

  lemma NonePending(p: Pending)
    ensures !IsPending(NOTHING, p)
  {
  }

  function RenumberedOne(p: Pending, rank: nat -> nat): Pending {
    p.(receipt := rank(p.receipt))
  }

  lemma {:induction false} RenumberedAt(pending: seq<Pending>, rank: nat -> nat)
    ensures |Renumbered(pending, rank)| == |pending|
    ensures forall i :: 0 <= i < |pending| ==> Renumbered(pending, rank)[i] == RenumberedOne(pending[i], rank)
  {
    if pending != [] {
      RenumberedAt(pending[..|pending| - 1], rank);
    }
  }

  lemma RenumberedMembers(pending: seq<Pending>, rank: nat -> nat, q: Pending)
    ensures q in Renumbered(pending, rank) <==> exists p :: p in pending && q == RenumberedOne(p, rank)
  {
    RenumberedAt(pending, rank);
    hide Renumbered, RenumberedOne;
    if q in Renumbered(pending, rank) {
      var i :| 0 <= i < |pending| && Renumbered(pending, rank)[i] == q;
      assert pending[i] in pending;
    }
    if p :| p in pending && q == RenumberedOne(p, rank) {
      var i :| 0 <= i < |pending| && pending[i] == p;
      assert Renumbered(pending, rank)[i] == q;
    }
  }

  lemma ProjectedPending(s: Histories, rank: nat -> nat, q: Pending)
    ensures IsPending(Projected(s, rank), q) <==> exists p :: IsPending(s, p) && q == RenumberedOne(p, rank)
  {
    hide TextsErased;
    if IsPending(Projected(s, rank), q) {
      var name :| name in s.routines && q in Projected(s, rank).routines[name].pending;
      RenumberedMembers(s.routines[name].pending, rank, q);
      var p :| p in s.routines[name].pending && q == RenumberedOne(p, rank);
      assert IsPending(s, p);
    }
    if p :| IsPending(s, p) && q == RenumberedOne(p, rank) {
      var name :| name in s.routines && p in s.routines[name].pending;
      RenumberedMembers(s.routines[name].pending, rank, q);
      assert q in Projected(s, rank).routines[name].pending;
    }
  }

  /** The renumbering keeps the order of the deliveries that wait. */
  ghost predicate KeepsOrder(s: Histories, rank: nat -> nat) {
    forall a, b :: IsPending(s, a) && IsPending(s, b) ==> (a.receipt <= b.receipt <==> rank(a.receipt) <= rank(b.receipt))
  }

  lemma ReceiptsKeepOrder(log: seq<Event>)
    ensures KeepsOrder(Fold(log), Rank(log))
  {
    hide Fold, IsPending;
    forall a, b | IsPending(Fold(log), a) && IsPending(Fold(log), b)
      ensures a.receipt <= b.receipt <==> Rank(log)(a.receipt) <= Rank(log)(b.receipt)
    {
      PendingHasReceipt(log, a);
      PendingHasReceipt(log, b);
      if a.receipt <= b.receipt {
        RankGrows(log, a.receipt, b.receipt);
      } else {
        RankKeepsOrder(log, b.receipt, a.receipt);
      }
    }
  }

  lemma RenumberedStartsNext(s: Histories, rank: nat -> nat, disabled: set<string>, p: Pending)
    requires KeepsOrder(s, rank) && IsPending(s, p)
    ensures StartsNext(s, disabled, p) <==> StartsNext(Projected(s, rank), disabled, RenumberedOne(p, rank))
  {
    hide IsPending, Projected;
    var t, renumbered := Projected(s, rank), RenumberedOne(p, rank);
    ProjectedPending(s, rank, renumbered);
    if StartsNext(s, disabled, p) {
      forall q | IsPending(t, q) && MayStart(q, disabled) ensures renumbered.receipt <= q.receipt {
        ProjectedPending(s, rank, q);
        var x :| IsPending(s, x) && q == RenumberedOne(x, rank);
        assert MayStart(x, disabled);
      }
    }
    if StartsNext(t, disabled, renumbered) {
      forall q | IsPending(s, q) && MayStart(q, disabled) ensures p.receipt <= q.receipt {
        var y := RenumberedOne(q, rank);
        ProjectedPending(s, rank, y);
        assert MayStart(y, disabled);
      }
    }
  }

  /** The delivery the routine events say starts next is the one the whole log says. */
  lemma {:induction false} SameDeliveryStarts(log: seq<Event>, disabled: set<string>, p: Pending)
    requires IsPending(Fold(log), p)
    ensures StartsNext(Fold(log), disabled, p)
       <==> StartsNext(Fold(RoutineEvents(log)), disabled, RenumberedOne(p, Rank(log)))
  {
    hide Fold, IsPending, Projected, StartsNext, KeepsOrder, Rank;
    RoutineEventsTell(log);
    ReceiptsKeepOrder(log);
    RenumberedStartsNext(Fold(log), Rank(log), disabled, p);
  }

  // ---------------------------------------------------------------- a run's own turn

  function OwnKey(key: TurnKey): Event -> bool {
    (e: Event) => KeyOf(e) == key
  }

  function RunOf(s: Histories, key: TurnKey): (Option<RunRecord>, bool) {
    (if key in s.runs then Some(s.runs[key]) else None, key in s.closed)
  }

  lemma RunStepIsLocal(s: Histories, t: Histories, i: nat, j: nat, e: Event, key: TurnKey)
    requires RunOf(s, key) == RunOf(t, key)
    ensures KeyOf(e) == key ==> RunOf(Step(s, i, e), key) == RunOf(Step(t, j, e), key)
    ensures KeyOf(e) != key ==> RunOf(Step(s, i, e), key) == RunOf(s, key)
  {
    hide RoutinesStep, FailuresStep, QueuedStep;
  }

  /** What became of a run depends on its own events alone. */
  lemma {:induction false} RunIsLocal(events: seq<Event>, key: TurnKey)
    ensures RunOf(Fold(events), key) == RunOf(Fold(Filter(events, OwnKey(key))), key)
  {
    hide Step, RunOf;
    if events != [] {
      var n := |events| - 1;
      RunIsLocal(events[..n], key);
      var kept := Filter(events[..n], OwnKey(key));
      RunStepIsLocal(Fold(events[..n]), Fold(kept), n, |kept|, events[n], key);
      assert (kept + [events[n]])[..|kept|] == kept;
    }
  }

  /** A history's last run is a run of that routine. */
  ghost predicate LastRunsOwn(s: Histories) {
    forall name :: name in s.routines && s.routines[name].lastRun.Some? ==>
      var key := s.routines[name].lastRun.value; key in s.runs && s.runs[key].name == name
  }

  /** A history's last run changes only when a run of its routine starts. */
  lemma LastRunStep(s: Histories, receipt: nat, e: Event, name: string)
    ensures HistoryOf(RoutinesStep(s, receipt, e), name).lastRun
         == if IsFiring(e.payload) && KeyOf(e) !in s.runs && e.payload.origin.name == name then Some(KeyOf(e))
            else HistoryOf(s.routines, name).lastRun
  {
    hide Filter, OpenRun;
  }

  /** A run keeps its routine, and a new one is of the routine that starts it. */
  lemma RunNameStep(s: Histories, e: Event, key: TurnKey)
    ensures key in s.runs ==> key in RunsStep(s, e) && RunsStep(s, e)[key].name == s.runs[key].name
    ensures IsFiring(e.payload) && KeyOf(e) !in s.runs ==> KeyOf(e) in RunsStep(s, e) && RunsStep(s, e)[KeyOf(e)].name == e.payload.origin.name
  {
  }

  lemma StepLastRuns(s: Histories, receipt: nat, e: Event)
    requires LastRunsOwn(s)
    ensures LastRunsOwn(Step(s, receipt, e))
  {
    hide RoutinesStep, RunsStep, FailuresStep, QueuedStep;
    var after := Step(s, receipt, e);
    forall name | name in after.routines && after.routines[name].lastRun.Some?
      ensures var key := after.routines[name].lastRun.value; key in after.runs && after.runs[key].name == name
    {
      LastRunStep(s, receipt, e, name);
      RunNameStep(s, e, after.routines[name].lastRun.value);
    }
  }

  lemma {:induction false} FoldLastRuns(events: seq<Event>)
    ensures LastRunsOwn(Fold(events))
  {
    hide Step, LastRunsOwn;
    if events == [] {
      NoLastRuns();
    } else {
      FoldLastRuns(events[..|events| - 1]);
      StepLastRuns(Fold(events[..|events| - 1]), |events| - 1, events[|events| - 1]);
    }
  }

  lemma NoLastRuns()
    ensures LastRunsOwn(NOTHING)
  {
  }

  /** Among one turn's events, the run they hold is the last run of its routine. */
  ghost predicate OnlyRun(s: Histories, key: TurnKey) {
    && s.runs.Keys <= {key}
    && (key in s.runs ==> s.runs[key].name in s.routines && s.routines[s.runs[key].name].lastRun == Some(key))
  }

  lemma StepOnlyRun(s: Histories, receipt: nat, e: Event, key: TurnKey)
    requires OnlyRun(s, key) && KeyOf(e) == key
    ensures OnlyRun(Step(s, receipt, e), key)
  {
    hide FailuresStep, QueuedStep, Filter;
  }

  lemma {:induction false} FoldOnlyRun(events: seq<Event>, key: TurnKey)
    requires forall e :: e in events ==> KeyOf(e) == key
    ensures OnlyRun(Fold(events), key)
  {
    if events != [] {
      var n := |events| - 1;
      assert events[n] in events;
      FoldOnlyRun(events[..n], key);
      hide Step;
      StepOnlyRun(Fold(events[..n]), n, events[n], key);
    }
  }

  lemma {:induction false} RunHasEvent(events: seq<Event>, key: TurnKey)
    requires key in Fold(events).runs
    ensures exists e :: e in events && KeyOf(e) == key
  {
    var n := |events| - 1;
    var s := Fold(events[..n]);
    if KeyOf(events[n]) == key {
      assert events[n] in events;
    } else {
      RunStepIsLocal(s, s, n, n, events[n], key);
      RunHasEvent(events[..n], key);
      var e :| e in events[..n] && KeyOf(e) == key;
      assert e in events;
    }
  }

  lemma TurnIsOneRun(log: seq<Event>, key: TurnKey)
    requires OneThreadEach(log) && exists e :: e in log && KeyOf(e) == key
    ensures forall e :: e in TurnEvents(log, key.turn) ==> KeyOf(e) == key
  {
    var own :| own in log && KeyOf(own) == key;
    var i :| 0 <= i < |log| && log[i] == own;
    FilterMembers(log, InTurn(key.turn));
    forall e | e in TurnEvents(log, key.turn) ensures KeyOf(e) == key {
      var j :| 0 <= j < |log| && log[j] == e;
    }
  }

  /** A routine's last run, first line included, is the one its own turn's events give: the scheduler's list
      finds the run among the routine events, and reads the rest from its turn. */
  lemma {:induction false} LastRunFromItsTurn(log: seq<Event>, name: string)
    requires OneThreadEach(log) && name in Fold(log).routines && Fold(log).routines[name].lastRun.Some?
    ensures var key := Fold(log).routines[name].lastRun.value;
            var turn := Fold(TurnEvents(log, key.turn));
            && key in Fold(log).runs && Fold(log).runs[key].name == name
            && name in turn.routines && turn.routines[name].lastRun == Some(key)
            && key in turn.runs && turn.runs[key] == Fold(log).runs[key]
    ensures name in Fold(RoutineEvents(log)).routines
         && Fold(RoutineEvents(log)).routines[name].lastRun == Fold(log).routines[name].lastRun
  {
    hide Fold, Step;
    var key := Fold(log).routines[name].lastRun.value;
    FoldLastRuns(log);
    RunHasEvent(log, key);
    TurnIsOneRun(log, key);
    FoldOnlyRun(TurnEvents(log, key.turn), key);
    RunIsLocal(log, key);
    RunIsLocal(TurnEvents(log, key.turn), key);
    assert key == TurnKey(key.thread, key.turn);
    FilterTwice(log, InTurn(key.turn), OwnKey(key), OwnKey(key));
    RoutineEventsTell(log);
  }
}
