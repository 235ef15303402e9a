/** The deliveries a signal brings: each is recorded once with its body, waits for its turn to start, and is
    started from what was recorded. A start stores the turn's first event and then drops the body, and the
    process may stop between the two. */
module Deliveries {
  import opened Events
  import opened RoutineHistory
  import opened EventStore
  import RoutineRuns

  predicate ArrivedAs(e: Event, name: string, id: string) {
    IsDelivery(e.payload) && e.payload.signal.name == name && e.payload.delivery.deliveryId == Some(id)
  }

  /** The first arrival a provider sent a routine under an id. */
  function FirstArrival(log: seq<Event>, name: string, id: string): (found: Option<Event>)
    ensures found.Some? ==> found.value in log && ArrivedAs(found.value, name, id)
    ensures found.None? ==> forall e :: e in log ==> !ArrivedAs(e, name, id)
  {
    if log == [] then None
    else
      var n := |log| - 1;
      var earlier := FirstArrival(log[..n], name, id);
      if earlier.Some? then earlier else if ArrivedAs(log[n], name, id) then Some(log[n]) else None
  }

  /** A delivery as it came: its routine, how it fires it, what the log keeps of it, and its body. */
  datatype Incoming = Incoming(name: string, trigger: Trigger, arrival: Arrival, body: string)

  /** The ids and the moment an arrival is stored with. */
  datatype Place = Place(thread: Id, turn: Id, time: int)

  /** What an arrival is answered with: its stored event, and whether it had been stored before. */
  datatype Receipt = Receipt(event: Event, repeated: bool)

  /** The log, the bodies kept for turns to start, and the turn whose body is about to be dropped. The last
      field is no part of the instance: it records the body each turn was accepted with. */
  datatype System = System(log: seq<Event>, waiting: map<Id, string>, waking: Option<Id>, accepted: map<Id, string>)

  function Known(log: seq<Event>, d: Incoming): Option<Event> {
    if d.arrival.deliveryId.Some? then FirstArrival(log, d.name, d.arrival.deliveryId.value) else None
  }

  function ArrivalEvent(log: seq<Event>, d: Incoming, at: Place): Event {
    Event(|ThreadEvents(log, at.thread)| + 1, at.thread, at.turn, at.time,
          SignalReceived(RoutineOrigin(d.name, d.trigger, d.arrival.deliveryId), d.arrival))
  }

  /** Record a delivery, unless it was recorded before. No receipt is given when its body could not be kept. */
  function Received(s: System, d: Incoming, at: Place): (System, Option<Receipt>) {
    if Known(s.log, d).Some? then (s, Some(Receipt(Known(s.log, d).value, true)))
    else if at.turn in s.waiting then (s, None)
    else
      var e := ArrivalEvent(s.log, d, at);
      (System(s.log + [e], s.waiting[at.turn := d.body], s.waking, s.accepted[at.turn := d.body]), Some(Receipt(e, false)))
  }

  /** What a turn starts with. */
  datatype Start = Start(model: string, promptVersion: Option<string>, profileVersion: Option<string>)

  /** A delivery's turn starts for a signal, whatever brought the delivery, and under its id. */
  function StartOrigin(p: Pending): Origin {
    RoutineOrigin(p.name, Signal, p.delivery.deliveryId)
  }

  function StartEvent(log: seq<Event>, p: Pending, start: Start, time: int): Event {
    Event(|ThreadEvents(log, p.key.thread)| + 1, p.key.thread, p.key.turn, time,
          TurnStarted(start.model, start.promptVersion, start.profileVersion, StartOrigin(p)))
  }

  function Woken(s: System, p: Pending, start: Start, time: int): System {
    System(s.log + [StartEvent(s.log, p, start, time)], s.waiting, Some(p.key.turn), s.accepted)
  }

  function IsFor(key: TurnKey): Pending -> bool {
    (p: Pending) => p.key == key
  }

  /** The delivery that waits for a turn. */
  function PendingOf(h: Histories, key: TurnKey): Option<Pending> {
    if key !in h.queued then None
    else
      var items := Filter(HistoryOf(h.routines, h.queued[key]).pending, IsFor(key));
      if items == [] then None else Some(items[0])
  }

  datatype Action =
    | Receive(delivery: Incoming, place: Place)
    | Wake(key: TurnKey, start: Start, time: int)
    | DropBody
    | StoreOther(event: Event)
    | Crash

  /** No event is stored under the turn yet: a delivery takes an id of its own. */
  predicate IsNewTurn(log: seq<Event>, turn: Id) {
    forall e :: e in log ==> e.turn != turn
  }

  /** Other work starts turns of its own, and no delivery's. */
  predicate IsOther(log: seq<Event>, e: Event) {
    !IsDelivery(e.payload) && (IsFiring(e.payload) ==> forall d :: d in log && IsDelivery(d.payload) ==> KeyOf(d) != KeyOf(e))
  }

  function Advance(s: System, a: Action): System {
    match a
    case Receive(d, at) => if IsNewTurn(s.log, at.turn) then Received(s, d, at).0 else s
    case Wake(key, start, time) =>
      var pending := PendingOf(Fold(s.log), key);
      if s.waking.None? && pending.Some? then Woken(s, pending.value, start, time) else s
    case DropBody =>
      if s.waking.Some? then System(s.log, s.waiting - {s.waking.value}, None, s.accepted) else s
    case StoreOther(e) => if IsOther(s.log, e) then s.(log := s.log + [e]) else s
    case Crash => s.(waking := None)
  }

  const NO_DELIVERIES := System([], map[], None, map[])

  function Run(actions: seq<Action>): System {
    if actions == [] then NO_DELIVERIES else Advance(Run(actions[..|actions| - 1]), actions[|actions| - 1])
  }

  /** The scheduler's own steps, on the event log. */
  class Deliverer {
    const log: EventLog

    constructor (log: EventLog)
      ensures this.log == log
    {
      this.log := log;
    }

    /** The arrival a provider sent a routine under an id, if one was recorded. */
    method Find(name: string, id: string) returns (found: Option<Event>)
      ensures found == FirstArrival(log.events, name, id)
    {
      var i := 0;
      while i < |log.events|
        invariant 0 <= i <= |log.events|
        invariant FirstArrival(log.events[..i], name, id) == None
      {
        assert log.events[..i + 1][..i] == log.events[..i];
        if ArrivedAs(log.events[i], name, id) {
          FoundStays(log.events, i + 1, name, id);
          return Some(log.events[i]);
        }
        i := i + 1;
      }
      assert log.events[..|log.events|] == log.events;
      return None;
    }

    method ReceiveDelivery(d: Incoming, at: Place) returns (receipt: Option<Receipt>)
      requires log.Valid()
      modifies log, log.Subscribers(at.thread)
      ensures log.Valid()
      ensures var (after, answer) := Received(System(old(log.events), old(log.waiting), None, map[]), d, at);
              log.events == after.log && log.waiting == after.waiting && receipt == answer
    {
      if d.arrival.deliveryId.Some? {
        var found := Find(d.name, d.arrival.deliveryId.value);
        if found.Some? {
          return Some(Receipt(found.value, true));
        }
      }
      var stored := log.Append(at.thread, at.turn, at.time,
                               SignalReceived(RoutineOrigin(d.name, d.trigger, d.arrival.deliveryId), d.arrival), Some(d.body));
      receipt := if stored.Some? then Some(Receipt(stored.value, false)) else None;
    }

    /** Start a delivery's turn with its body, which is not kept after. A start that is refused stores nothing
        and keeps the body. */
    method StartDelivery(p: Pending, start: Option<Start>, time: int) returns (body: Option<string>)
      requires log.Valid()
      modifies log, log.Subscribers(p.key.thread)
      ensures log.Valid()
      ensures body == if p.key.turn in old(log.waiting) then Some(old(log.waiting)[p.key.turn]) else None
      ensures start.None? ==> log.events == old(log.events) && log.waiting == old(log.waiting)
      ensures start.Some? ==>
        var woken := Woken(System(old(log.events), old(log.waiting), None, map[]), p, start.value, time);
        log.events == woken.log && log.waiting == Advance(woken, DropBody).waiting
    {
      body := log.WaitingBody(p.key.turn);
      if start.None? {
        return;
      }
      var begun := TurnStarted(start.value.model, start.value.promptVersion, start.value.profileVersion, StartOrigin(p));
      var stored := log.Append(p.key.thread, p.key.turn, time, begun, None);
      log.DropWaitingBody(p.key.turn);
    }
  }

  lemma {:induction false} FoundStays(log: seq<Event>, i: nat, name: string, id: string)
    requires i <= |log| && FirstArrival(log[..i], name, id).Some?
    ensures FirstArrival(log, name, id) == FirstArrival(log[..i], name, id)
  {
    if i == |log| {
      assert log[..i] == log;
    } else {
      var n := |log| - 1;
      assert log[..n][..i] == log[..i];
      FoundStays(log[..n], i, name, id);
    }
  }

  // ---------------------------------------------------------------- what the fold holds pending

  /** How often a delivery waits in a routine's history. */
  function Waits(s: Histories, name: string, key: TurnKey): nat {
    |Filter(HistoryOf(s.routines, name).pending, IsFor(key))|
  }

  lemma {:induction false} FilterApart(pending: seq<Pending>, key: TurnKey, other: TurnKey)
    ensures Filter(Filter(pending, IsNotFor(other)), IsFor(key)) == if key == other then [] else Filter(pending, IsFor(key))
  {
    if pending != [] {
      var n := |pending| - 1;
      FilterApart(pending[..n], key, other);
      if IsNotFor(other)(pending[n]) {
        FilterSnoc(Filter(pending[..n], IsNotFor(other)), pending[n], IsFor(key));
      }
    }
  }

  /** A delivery waits once in the history of its own routine while it is queued, and nowhere else. */
  ghost predicate WaitsOnce(s: Histories, key: TurnKey) {
    forall name :: Waits(s, name, key) == if key in s.queued && s.queued[key] == name then 1 else 0
  }

  lemma StepWaits(s: Histories, receipt: nat, e: Event, name: string, key: TurnKey)
    requires WaitsOnce(s, key) && (KeyOf(e) in s.queued ==> s.queued[KeyOf(e)] in s.routines)
    ensures var after := Step(s, receipt, e);
            Waits(after, name, key) == if key in after.queued && after.queued[key] == name then 1 else 0
  {
    hide RunsStep, FailuresStep, Filter, OpenRun;
    var e_key, p := KeyOf(e), e.payload;
    assert Waits(s, name, key) == if key in s.queued && s.queued[key] == name then 1 else 0;
    if IsDelivery(p) && e_key !in s.queued && p.signal.name == name {
      var item := Pending(e_key, receipt, name, p.signal.trigger, p.delivery);
      FilterSnoc(HistoryOf(s.routines, name).pending, item, IsFor(key));
    } else if IsFiring(p) && e_key in s.queued {
      FilterApart(HistoryOf(s.routines, name).pending, key, e_key);
    }
  }

  lemma {:induction false} FoldWaits(events: seq<Event>, key: TurnKey)
    ensures WaitsOnce(Fold(events), key)
  {
    hide Step, Waits, RoutineHistory.Known;
    if events == [] {
      NothingWaits(key);
    } else {
      var n := |events| - 1;
      FoldWaits(events[..n], key);
      QueuedHasHistory(events[..n], KeyOf(events[n]));
      forall name ensures Waits(Fold(events), name, key)
                       == if key in Fold(events).queued && Fold(events).queued[key] == name then 1 else 0 {
        StepWaits(Fold(events[..n]), n, events[n], name, key);
      }
    }
  }

  lemma NothingWaits(key: TurnKey)
    ensures WaitsOnce(NOTHING, key)
  {
  }

  lemma QueuedHasHistory(events: seq<Event>, key: TurnKey)
    ensures key in Fold(events).queued ==> Fold(events).queued[key] in Fold(events).routines
  {
    FoldKnown(events);
  }

  /** A queued delivery can be found to start, under its own turn and in its own routine's history. */
  lemma QueuedIsPending(log: seq<Event>, key: TurnKey)
    requires key in Fold(log).queued
    ensures PendingOf(Fold(log), key).Some? && PendingOf(Fold(log), key).value.key == key
  {
    FoldWaits(log, key);
    var h := Fold(log);
    hide Fold;
    var name := h.queued[key];
    assert Waits(h, name, key) == 1;
    FilterMembers(HistoryOf(h.routines, name).pending, IsFor(key));
    assert Filter(HistoryOf(h.routines, name).pending, IsFor(key))[0] in Filter(HistoryOf(h.routines, name).pending, IsFor(key));
  }

  // ---------------------------------------------------------------- the invariant

  ghost predicate Accepted(log: seq<Event>, key: TurnKey) {
    exists e :: e in log && IsDelivery(e.payload) && KeyOf(e) == key
  }

  ghost predicate Started(log: seq<Event>, key: TurnKey) {
    exists e :: e in log && IsFiring(e.payload) && KeyOf(e) == key
  }

  /** An accepted delivery is queued until it started, and only an accepted one is queued. */
  ghost predicate QueuedUntilStarted(log: seq<Event>) {
    && (forall key :: key in Fold(log).queued ==> Accepted(log, key))
    && (forall key :: Accepted(log, key) ==> (key in Fold(log).queued <==> !Started(log, key)))
  }

  /** A routine has one arrival under each delivery id. */
  ghost predicate OneArrivalEach(log: seq<Event>) {
    forall i, j, name, id :: 0 <= i < j < |log| && ArrivedAs(log[i], name, id) ==> !ArrivedAs(log[j], name, id)
  }

  /** A delivered turn starts once. */
  ghost predicate DeliveredStartOnce(log: seq<Event>) {
    forall i, j :: 0 <= i < j < |log| && IsFiring(log[i].payload) && IsFiring(log[j].payload) && Accepted(log, KeyOf(log[j]))
      ==> KeyOf(log[i]) != KeyOf(log[j])
  }

  /** Every delivery that still has to start has its body. */
  ghost predicate BodiesKept(s: System) {
    && (forall key :: key in Fold(s.log).queued ==>
          && key.turn in s.waiting && key.turn in s.accepted && s.waiting[key.turn] == s.accepted[key.turn]
          && s.waking != Some(key.turn))
    && (forall turn :: turn in s.waiting || s.waking == Some(turn) ==> !IsNewTurn(s.log, turn))
  }

  /** Two queued deliveries are of different turns. */
  ghost predicate QueuedApart(log: seq<Event>) {
    forall a, b :: a in Fold(log).queued && b in Fold(log).queued && a.turn == b.turn ==> a == b
  }

  ghost predicate Invariant(s: System) {
    QueuedUntilStarted(s.log) && OneArrivalEach(s.log) && DeliveredStartOnce(s.log) && BodiesKept(s) && QueuedApart(s.log)
  }

  lemma AcceptedSnoc(log: seq<Event>, e: Event, key: TurnKey)
    ensures Accepted(log + [e], key) <==> Accepted(log, key) || (IsDelivery(e.payload) && KeyOf(e) == key)
    ensures Started(log + [e], key) <==> Started(log, key) || (IsFiring(e.payload) && KeyOf(e) == key)
  {
    assert e in log + [e];
    if Accepted(log, key) {
      var x :| x in log && IsDelivery(x.payload) && KeyOf(x) == key;
      assert x in log + [e];
    }
    if Started(log, key) {
      var x :| x in log && IsFiring(x.payload) && KeyOf(x) == key;
      assert x in log + [e];
    }
  }

  lemma QueuedSnoc(log: seq<Event>, e: Event)
    ensures Fold(log + [e]).queued == QueuedStep(Fold(log).queued, e)
  {
    assert (log + [e])[..|log|] == log;
  }

  /** Of a new turn, nothing was accepted and nothing started. */
  lemma NewIsNeither(log: seq<Event>, key: TurnKey)
    requires IsNewTurn(log, key.turn)
    ensures !Accepted(log, key) && !Started(log, key)
  {
  }

  /** An arrival of a new turn, a start of a queued delivery, or an event of other work. */
  ghost predicate Orderly(log: seq<Event>, e: Event) {
    if IsDelivery(e.payload) then IsNewTurn(log, e.turn)
    else IsFiring(e.payload) ==> KeyOf(e) in Fold(log).queued || !Accepted(log, KeyOf(e))
  }

  lemma QueuedUntilStartedStays(log: seq<Event>, e: Event)
    requires QueuedUntilStarted(log) && Orderly(log, e)
    ensures QueuedUntilStarted(log + [e])
  {
    hide Fold, Accepted, Started;
    QueuedSnoc(log, e);
    if IsDelivery(e.payload) {
      NewIsNeither(log, KeyOf(e));
    }
    forall key
      ensures key in Fold(log + [e]).queued ==> Accepted(log + [e], key)
      ensures Accepted(log + [e], key) ==> (key in Fold(log + [e]).queued <==> !Started(log + [e], key))
    {
      AcceptedSnoc(log, e, key);
    }
  }

  lemma NewTurnApart(log: seq<Event>, e: Event, j: nat)
    requires j < |log| && IsNewTurn(log, e.turn)
    ensures KeyOf(log[j]) != KeyOf(e)
  {
    assert log[j] in log;
  }

  /** A delivery that is started had not started. */
  lemma FirstStart(log: seq<Event>, e: Event, i: nat)
    requires QueuedUntilStarted(log) && Orderly(log, e) && IsFiring(e.payload) && Accepted(log, KeyOf(e))
    requires i < |log| && IsFiring(log[i].payload)
    ensures KeyOf(log[i]) != KeyOf(e)
  {
    assert log[i] in log;
  }

  lemma DeliveredStartOnceStays(log: seq<Event>, e: Event)
    requires QueuedUntilStarted(log) && DeliveredStartOnce(log) && Orderly(log, e)
    ensures DeliveredStartOnce(log + [e])
  {
    hide Fold, Accepted, QueuedUntilStarted;
    var longer := log + [e];
    forall i, j | 0 <= i < j < |longer| && IsFiring(longer[i].payload) && IsFiring(longer[j].payload) && Accepted(longer, KeyOf(longer[j]))
      ensures KeyOf(longer[i]) != KeyOf(longer[j])
    {
      AcceptedSnoc(log, e, KeyOf(longer[j]));
      if IsDelivery(e.payload) {
        NewTurnApart(log, e, j);
      } else if j == |log| {
        FirstStart(log, e, i);
      }
    }
  }

  lemma QueuedApartStays(log: seq<Event>, e: Event)
    requires QueuedUntilStarted(log) && QueuedApart(log) && Orderly(log, e)
    ensures QueuedApart(log + [e])
  {
    hide Fold;
    QueuedSnoc(log, e);
    if IsDelivery(e.payload) {
      forall key | key in Fold(log).queued ensures key.turn != e.turn {
        assert Accepted(log, key);
      }
    }
  }

  lemma NewTurnStays(log: seq<Event>, e: Event, turn: Id)
    ensures IsNewTurn(log + [e], turn) <==> IsNewTurn(log, turn) && e.turn != turn
  {
    assert e in log + [e];
    if IsNewTurn(log + [e], turn) {
      forall x | x in log ensures x.turn != turn {
        assert x in log + [e];
      }
    }
  }

  /** What the log's own laws need of a new event. */
  lemma LawsStay(s: System, e: Event)
    requires Invariant(s) && Orderly(s.log, e)
    requires forall name, id :: ArrivedAs(e, name, id) ==> forall x :: x in s.log ==> !ArrivedAs(x, name, id)
    ensures QueuedUntilStarted(s.log + [e]) && OneArrivalEach(s.log + [e]) && DeliveredStartOnce(s.log + [e]) && QueuedApart(s.log + [e])
  {
    hide QueuedUntilStarted, DeliveredStartOnce, QueuedApart, Orderly, BodiesKept;
    QueuedUntilStartedStays(s.log, e);
    DeliveredStartOnceStays(s.log, e);
    QueuedApartStays(s.log, e);
  }

  lemma ReceiveBodies(s: System, d: Incoming, at: Place)
    requires BodiesKept(s) && QueuedUntilStarted(s.log) && IsNewTurn(s.log, at.turn) && Known(s.log, d).None?
    ensures BodiesKept(Received(s, d, at).0) && at.turn !in s.waiting
  {
    hide Fold, Known, IsNewTurn;
    var e := ArrivalEvent(s.log, d, at);
    QueuedSnoc(s.log, e);
    forall turn ensures IsNewTurn(s.log + [e], turn) <==> IsNewTurn(s.log, turn) && e.turn != turn {
      NewTurnStays(s.log, e, turn);
    }
    forall key | key in Fold(s.log).queued ensures key.turn != at.turn {
      if key.turn == at.turn {
        NewIsNeither(s.log, key);
        assert false;
      }
    }
  }

  lemma ReceiveInvariant(s: System, d: Incoming, at: Place)
    requires Invariant(s) && IsNewTurn(s.log, at.turn)
    ensures Invariant(Received(s, d, at).0)
    ensures Received(s, d, at).1.Some?
  {
    hide Fold, BodiesKept, QueuedUntilStarted, OneArrivalEach, DeliveredStartOnce, QueuedApart;
    if Known(s.log, d).None? {
      LawsStay(s, ArrivalEvent(s.log, d, at));
      ReceiveBodies(s, d, at);
    }
  }

  lemma WakeBodies(s: System, p: Pending, start: Start, time: int)
    requires BodiesKept(s) && QueuedApart(s.log) && s.waking.None? && p.key in Fold(s.log).queued
    ensures BodiesKept(Woken(s, p, start, time))
  {
    hide Fold, IsNewTurn;
    var e := StartEvent(s.log, p, start, time);
    QueuedSnoc(s.log, e);
    forall turn ensures IsNewTurn(s.log + [e], turn) <==> IsNewTurn(s.log, turn) && e.turn != turn {
      NewTurnStays(s.log, e, turn);
    }
    assert KeyOf(e) == p.key;
  }

  lemma WakeInvariant(s: System, p: Pending, start: Start, time: int)
    requires Invariant(s) && s.waking.None? && p.key in Fold(s.log).queued
    ensures Invariant(Woken(s, p, start, time))
  {
    hide Fold, BodiesKept, QueuedUntilStarted, OneArrivalEach, DeliveredStartOnce, QueuedApart;
    assert KeyOf(StartEvent(s.log, p, start, time)) == p.key;
    LawsStay(s, StartEvent(s.log, p, start, time));
    WakeBodies(s, p, start, time);
  }

  lemma StoreInvariant(s: System, e: Event)
    requires Invariant(s) && IsOther(s.log, e)
    ensures Invariant(s.(log := s.log + [e]))
  {
    LawsStay(s, e);
    QueuedSnoc(s.log, e);
    forall turn ensures IsNewTurn(s.log + [e], turn) <==> IsNewTurn(s.log, turn) && e.turn != turn {
      NewTurnStays(s.log, e, turn);
    }
    hide Fold;
  }

  /** Dropping a started turn's body, or forgetting to, takes none that is still needed. */
  lemma DropInvariant(s: System)
    requires Invariant(s)
    ensures Invariant(Advance(s, DropBody)) && Invariant(Advance(s, Crash))
  {
    hide QueuedUntilStarted, DeliveredStartOnce, QueuedApart, OneArrivalEach, Fold, IsNewTurn;
  }

  lemma AdvanceInvariant(s: System, a: Action)
    requires Invariant(s)
    ensures Invariant(Advance(s, a))
  {
    hide QueuedUntilStarted, DeliveredStartOnce, QueuedApart, OneArrivalEach, BodiesKept, Fold;
    match a
    case Receive(d, at) => if IsNewTurn(s.log, at.turn) { ReceiveInvariant(s, d, at); }
    case Wake(key, start, time) =>
      if s.waking.None? && key in Fold(s.log).queued {
        QueuedIsPending(s.log, key);
        WakeInvariant(s, PendingOf(Fold(s.log), key).value, start, time);
      }
    case DropBody => DropInvariant(s);
    case StoreOther(e) => if IsOther(s.log, e) { StoreInvariant(s, e); }
    case Crash => DropInvariant(s);
  }

  lemma {:induction false} RunInvariant(actions: seq<Action>)
    ensures Invariant(Run(actions))
  {
    if actions != [] {
      RunInvariant(actions[..|actions| - 1]);
      AdvanceInvariant(Run(actions[..|actions| - 1]), actions[|actions| - 1]);
    }
  }

  // ---------------------------------------------------------------- the theorems

  /** In every reachable state an accepted delivery either waits, once and in its own routine's history, or
      has started, never both and never neither; and one that waits has the body it was accepted with. */
  lemma {:induction false} WaitsOrStarted(actions: seq<Action>, key: TurnKey)
    requires Accepted(Run(actions).log, key)
    ensures var s := Run(actions);
            var h := Fold(s.log);
            && (key in h.queued <==> !Started(s.log, key))
            && (forall name :: Waits(h, name, key) == if key in h.queued && h.queued[key] == name then 1 else 0)
            && (!Started(s.log, key) ==>
                  key.turn in s.waiting && key.turn in s.accepted && s.waiting[key.turn] == s.accepted[key.turn])
  {
    RunInvariant(actions);
    FoldWaits(Run(actions).log, key);
    hide Fold, Waits;
  }

  /** A delivered turn starts at most once, and a routine has at most one arrival under a delivery id. */
  lemma {:induction false} StoredOnce(actions: seq<Action>)
    ensures OneArrivalEach(Run(actions).log) && DeliveredStartOnce(Run(actions).log)
  {
    RunInvariant(actions);
  }

  /** A repeated delivery is answered with its first arrival, and changes nothing. */
  lemma {:induction false} RepeatsReturnTheArrival(actions: seq<Action>, d: Incoming, at: Place, e: Event)
    requires d.arrival.deliveryId.Some? && e in Run(actions).log && ArrivedAs(e, d.name, d.arrival.deliveryId.value)
    ensures Received(Run(actions), d, at) == (Run(actions), Some(Receipt(e, true)))
  {
    RunInvariant(actions);
    var log, found := Run(actions).log, Known(Run(actions).log, d);
    assert found.Some?;
    var i :| 0 <= i < |log| && log[i] == e;
    var j :| 0 <= j < |log| && log[j] == found.value;
  }

  // ---------------------------------------------------------------- what is stored

  /** An arrival that was not recorded before, and whose body can be kept, is stored as it came, and its body
      kept for its turn. */
  lemma ArrivalIsStored(s: System, d: Incoming, at: Place)
    requires at.turn !in s.waiting
    requires d.arrival.deliveryId.Some? ==> forall e :: e in s.log ==> !ArrivedAs(e, d.name, d.arrival.deliveryId.value)
    ensures var (after, receipt) := Received(s, d, at);
            && |after.log| == |s.log| + 1 && after.log[..|s.log|] == s.log
            && after.waiting == s.waiting[at.turn := d.body]
            && var e := after.log[|s.log|];
               && e.thread == at.thread && e.turn == at.turn && e.time == at.time
               && e.payload.SignalReceived? && e.payload.delivery == d.arrival
               && e.payload.signal == RoutineOrigin(d.name, d.trigger, d.arrival.deliveryId)
               && receipt == Some(Receipt(e, false))
  {
  }

  /** The start of a delivery that waits is the delivery's own: of its turn, for its routine, for a signal
      whatever brought it, and under the id it arrived with; and until its body is dropped that stays. */
  ghost predicate StartsAs(before: System, after: System, key: TurnKey, start: Start, time: int) {
    && |after.log| == |before.log| + 1 && after.log[..|before.log|] == before.log && after.waiting == before.waiting
    && var e := after.log[|before.log|];
       && KeyOf(e) == key && e.time == time && e.payload.TurnStarted? && e.payload.model == start.model
       && e.payload.promptVersion == start.promptVersion && e.payload.profileVersion == start.profileVersion
       && exists a :: a in before.log && KeyOf(a) == key && a.payload.SignalReceived? && a.payload.signal.RoutineOrigin?
                      && e.payload.origin == RoutineOrigin(a.payload.signal.name, Signal, a.payload.delivery.deliveryId)
  }

  lemma {:induction false} StartsWhatArrived(actions: seq<Action>, key: TurnKey, start: Start, time: int)
    requires var s := Run(actions); s.waking.None? && key in Fold(s.log).queued
    ensures StartsAs(Run(actions), Run(actions + [Wake(key, start, time)]), key, start, time)
  {
    hide Fold, Run, RoutineRuns.PendingTold;
    var s := Run(actions);
    RunNext(actions, Wake(key, start, time));
    QueuedIsPending(s.log, key);
    var p := PendingOf(Fold(s.log), key).value;
    PendingIsOf(Fold(s.log), key);
    RoutineRuns.PendingIsTold(s.log, Fold(s.log).queued[key], p);
    PendingArrival(s.log, p, Fold(s.log).queued[key]);
  }

  lemma PendingArrival(log: seq<Event>, p: Pending, name: string)
    requires RoutineRuns.PendingTold(log, p, name)
    ensures p.name == name
    ensures exists a :: a in log && KeyOf(a) == p.key && a.payload.SignalReceived? && a.payload.signal.RoutineOrigin?
                        && a.payload.signal.name == name && a.payload.delivery == p.delivery
  {
    assert log[p.receipt] in log;
  }

  lemma RunNext(actions: seq<Action>, a: Action)
    ensures Run(actions + [a]) == Advance(Run(actions), a)
  {
    hide Advance;
    assert (actions + [a])[..|actions|] == actions;
  }

  lemma PendingIsOf(h: Histories, key: TurnKey)
    requires PendingOf(h, key).Some?
    ensures key in h.queued && PendingOf(h, key).value in HistoryOf(h.routines, h.queued[key]).pending && PendingOf(h, key).value.key == key
  {
    FilterMembers(HistoryOf(h.routines, h.queued[key]).pending, IsFor(key));
    assert PendingOf(h, key).value in Filter(HistoryOf(h.routines, h.queued[key]).pending, IsFor(key));
  }
}
