/** The thread list: a summary of each thread from its events, and pages of it by cursor. */
module Threads {
  import opened Events
  import opened EventStore

  datatype ThreadRecord = ThreadRecord(id: Id, title: Option<string>, createdAt: int, archived: bool)

  datatype Status = Idle | AwaitingApproval | AwaitingTakeover | TurnRuns | TurnHasFailed | AwaitingReply

  datatype Parked = OnApproval(event: Event) | OnTakeover(event: Event)

  datatype Cursor = Cursor(lastActivityAt: int, id: Id)

  datatype Summary = Summary(
    key: Cursor,
    title: Option<string>,
    createdAt: int,
    status: Status,
    mode: Mode,
    modePinned: bool,
    archived: bool,
    origin: Origin,
    approval: Option<Event>)

  datatype ThreadFilter = Sidebar | Archived | AllThreads

  datatype ListCommand = ListCommand(filter: ThreadFilter, routine: Option<string>, cursor: Option<Cursor>, limit: Option<nat>)

  datatype ListResult = ListResult(threads: seq<Summary>, ceiling: Mode, cursor: Option<Cursor>)

  datatype ModePolicy = ModePolicy(mode: Mode, ceiling: Mode)

  // ---------------------------------------------------------------- what a thread's events say

  predicate Parking(p: Payload) {
    p.ApprovalRequested? || p.TakeoverRequested?
  }

  predicate Notifying(p: Payload) {
    p.NotificationRaised? || p.NotificationAccepted? || p.NotificationRefused?
  }

  /** The last place whose payload satisfies a test. */
  function LastPlace(events: seq<Event>, test: Payload -> bool): (i: Option<nat>)
    ensures i.Some? ==> i.value < |events| && test(events[i.value].payload)
    ensures i.Some? ==> forall j :: i.value < j < |events| ==> !test(events[j].payload)
    ensures i.None? ==> forall j :: 0 <= j < |events| ==> !test(events[j].payload)
  {
    if events == [] then None
    else if test(events[|events| - 1].payload) then Some(|events| - 1)
    else LastPlace(events[..|events| - 1], test)
  }

  function Last(events: seq<Event>, test: Payload -> bool): Option<Event> {
    if LastPlace(events, test).Some? then Some(events[LastPlace(events, test).value]) else None
  }

  function First(events: seq<Event>, test: Event -> bool): Option<Event> {
    var kept := Filter(events, test);
    if kept == [] then None else Some(kept[0])
  }

  const IS_PARKING: Payload -> bool := (p: Payload) => Parking(p)
  const IS_START: Payload -> bool := (p: Payload) => p.TurnStarted?
  const IS_PIN: Payload -> bool := (p: Payload) => p.ModePinned?

  /** A later event of the same turn ends a park, unless it is a notification's. */
  predicate Resumes(park: Event, later: Event) {
    later.turn == park.turn && !Notifying(later.payload)
  }

  predicate AnyResumes(park: Event, later: seq<Event>) {
    exists e :: e in later && Resumes(park, e)
  }

  /** The approval or the takeover the thread's turn is parked on. */
  function ParkedOn(events: seq<Event>): Option<Parked> {
    var i := LastPlace(events, IS_PARKING);
    if i.None? || AnyResumes(events[i.value], events[i.value + 1..]) then None
    else if events[i.value].payload.TakeoverRequested? then Some(OnTakeover(events[i.value]))
    else Some(OnApproval(events[i.value]))
  }

  function ClosesTurn(turn: Id): Event -> bool {
    (e: Event) => e.turn == turn && IsClosing(e.payload)
  }

  function Offers(turn: Id): Event -> bool {
    (e: Event) => e.turn == turn && e.payload.NotificationRaised? && e.payload.hasOptions && !e.payload.answersApproval
  }

  function RefusedIn(events: seq<Event>): set<nat> {
    set e | e in events && e.payload.NotificationRefused? :: e.payload.raised
  }

  /** The turn raised a notification with options that the hub did not refuse. */
  predicate OffersOptions(events: seq<Event>, turn: Id) {
    exists e :: e in Filter(events, Offers(turn)) && e.sequence !in RefusedIn(events)
  }

  /** What the thread's latest turn is doing. */
  function StatusOf(events: seq<Event>): Status {
    var started := Last(events, IS_START);
    if started.None? then Idle
    else
      var parked := ParkedOn(events);
      if parked.Some? then (if parked.value.OnApproval? then AwaitingApproval else AwaitingTakeover)
      else
        var closing := First(events, ClosesTurn(started.value.turn));
        if closing.None? then TurnRuns
        else if closing.value.payload.TurnFailed? then TurnHasFailed
        else if OffersOptions(events, started.value.turn) then AwaitingReply
        else Idle
  }

  predicate HasOrigin(p: Payload) {
    p.TurnStarted? || p.SignalReceived?
  }

  function WithOrigin(): Event -> bool {
    (e: Event) => HasOrigin(e.payload)
  }

  function OriginOf(events: seq<Event>): Origin {
    var first := First(events, WithOrigin());
    if first.Some? && first.value.payload.TurnStarted? then first.value.payload.origin
    else if first.Some? && first.value.payload.SignalReceived? then first.value.payload.signal
    else UserOrigin
  }

  function StartedByUser(): Event -> bool {
    (e: Event) => e.payload.TurnStarted? && e.payload.origin.UserOrigin?
  }

  predicate UserStartedATurn(events: seq<Event>) {
    Filter(events, StartedByUser()) != []
  }

  function PinnedMode(events: seq<Event>): Option<Mode> {
    var pin := Last(events, IS_PIN);
    if pin.Some? && pin.value.payload.ModePinned? then Some(pin.value.payload.mode) else None
  }

  function ModeRank(mode: Mode): nat {
    match mode
    case ReadOnly => 0
    case Ask => 1
    case Auto => 2
    case FullAccess => 3
  }

  function Constrained(mode: Mode, ceiling: Mode): Mode {
    if ModeRank(mode) > ModeRank(ceiling) then ceiling else mode
  }

  function SummaryOf(thread: ThreadRecord, events: seq<Event>, lastActivity: Option<int>, policy: ModePolicy): Summary {
    var pinned, parked := PinnedMode(events), ParkedOn(events);
    Summary(Cursor(if lastActivity.Some? then lastActivity.value else thread.createdAt, thread.id),
            thread.title, thread.createdAt, StatusOf(events),
            Constrained(if pinned.Some? then pinned.value else policy.mode, policy.ceiling), pinned.Some?,
            thread.archived, OriginOf(events),
            if parked.Some? && parked.value.OnApproval? then Some(parked.value.event) else None)
  }

  /** Archiving never hides a thread that waits on the user. */
  predicate IsIn(s: Summary, events: seq<Event>, filter: ThreadFilter) {
    match filter
    case Sidebar =>
      || s.status.AwaitingApproval? || s.status.AwaitingTakeover?
      || (!s.archived && (s.origin.UserOrigin? || s.status.TurnHasFailed? || s.status.AwaitingReply? || UserStartedATurn(events)))
    case Archived => s.archived
    case AllThreads => true
  }

  predicate IsRunOf(s: Summary, routine: string) {
    s.origin.RoutineOrigin? && s.origin.name == routine
  }

  // ---------------------------------------------------------------- the list and its pages

  predicate Below(a: Cursor, b: Cursor) {
    a.lastActivityAt < b.lastActivityAt || (a.lastActivityAt == b.lastActivityAt && a.id < b.id)
  }

  /** Put an item after those that do not sort below it. */
  function Inserted(sorted: seq<Summary>, x: Summary): seq<Summary> {
    if sorted == [] then [x]
    else
      var n := |sorted| - 1;
      if Below(sorted[n].key, x.key) then Inserted(sorted[..n], x) + [sorted[n]] else sorted + [x]
  }

  /** The most recently active first. */
  function Sorted(items: seq<Summary>): seq<Summary> {
    if items == [] then [] else Inserted(Sorted(items[..|items| - 1]), items[|items| - 1])
  }

  predicate Takes(s: Summary, events: seq<Event>, command: ListCommand) {
    && IsIn(s, events, command.filter)
    && (command.routine.None? || IsRunOf(s, command.routine.value))
    && (command.cursor.None? || Below(s.key, command.cursor.value))
  }

  function LastActivity(heads: map<Id, Head>, thread: Id): Option<int> {
    if thread in heads then Some(heads[thread].lastActivity) else None
  }

  /** The summaries a command takes, in the order the threads were given. */
  function Taken(threads: seq<ThreadRecord>, grouped: map<Id, seq<Event>>, heads: map<Id, Head>, policy: ModePolicy,
                 command: ListCommand): seq<Summary>
  {
    if threads == [] then []
    else
      var thread := threads[|threads| - 1];
      var before := Taken(threads[..|threads| - 1], grouped, heads, policy, command);
      var events := if thread.id in grouped then grouped[thread.id] else [];
      var s := SummaryOf(thread, events, LastActivity(heads, thread.id), policy);
      if Takes(s, events, command) then before + [s] else before
  }

  /** The first page, and the cursor of its last thread when others follow. */
  function PageOf(summaries: seq<Summary>, policy: ModePolicy, limit: Option<nat>): ListResult {
    var page := if limit.Some? && limit.value <= |summaries| then summaries[..limit.value] else summaries;
    ListResult(page, policy.ceiling, if page != [] && |summaries| > |page| then Some(page[|page| - 1].key) else None)
  }

  function Listed(threads: seq<ThreadRecord>, grouped: map<Id, seq<Event>>, heads: map<Id, Head>, policy: ModePolicy,
                  command: ListCommand): ListResult
  {
    PageOf(Sorted(Taken(threads, grouped, heads, policy, command)), policy, command.limit)
  }

  // ---------------------------------------------------------------- what is read for it

  predicate SummaryType(p: Payload) {
    p.ModePinned? || p.SignalReceived? || p.TurnStarted? || IsClosing(p) || Parking(p) || p.NotificationRaised? || p.NotificationRefused?
  }

  const IS_SUMMARY: Payload -> bool := (p: Payload) => SummaryType(p)

  function IdsOf(threads: seq<ThreadRecord>): set<Id> {
    set t | t in threads :: t.id
  }

  /** Each thread's events of those given. */
  function Grouped(threads: seq<ThreadRecord>, events: seq<Event>): map<Id, seq<Event>> {
    map id | id in IdsOf(threads) :: ThreadEvents(events, id)
  }

  predicate TurnCloses(log: seq<Event>, turn: Id) {
    exists e :: e in log && e.turn == turn && IsClosing(e.payload)
  }

  /** Each thread's latest parking event, when its turn has not closed. */
  function ParkedOpen(log: seq<Event>): Event -> bool {
    (e: Event) => Last(ThreadEvents(log, e.thread), IS_PARKING) == Some(e) && !TurnCloses(log, e.turn)
  }

  function LatestInOpenTurns(log: seq<Event>): seq<Event> {
    Filter(log, ParkedOpen(log))
  }

  /** The groups with the threads of the events given read whole. */
  function ReadWhole(grouped: map<Id, seq<Event>>, log: seq<Event>, parkings: seq<Event>): map<Id, seq<Event>> {
    if parkings == [] then grouped
    else
      var before := ReadWhole(grouped, log, parkings[..|parkings| - 1]);
      var id := parkings[|parkings| - 1].thread;
      if id in before then before[id := ThreadEvents(log, id)] else before
  }

  function ReadForList(threads: seq<ThreadRecord>, log: seq<Event>): map<Id, seq<Event>> {
    ReadWhole(Grouped(threads, EventsOf(log, IS_SUMMARY, None, None)), log, LatestInOpenTurns(log))
  }

  method EventsByThread(threads: seq<ThreadRecord>, events: seq<Event>) returns (grouped: map<Id, seq<Event>>)
    ensures grouped == Grouped(threads, events)
  {
    grouped := map id | id in IdsOf(threads) :: [];
    var i := 0;
    while i < |events|
      invariant 0 <= i <= |events|
      invariant grouped == Grouped(threads, events[..i])
    {
      var e := events[i];
      assert events[..i + 1] == events[..i] + [e];
      forall id ensures ThreadEvents(events[..i + 1], id) == ThreadEvents(events[..i], id) + (if e.thread == id then [e] else []) {
        FilterSnoc(events[..i], e, InThread(id));
      }
      if e.thread in grouped {
        grouped := grouped[e.thread := grouped[e.thread] + [e]];
      }
      i := i + 1;
    }
    assert events[..|events|] == events;
  }

  /** Summarize each thread the command takes, reading whole only the threads whose turn may be parked. */
  method ThreadList(threads: seq<ThreadRecord>, log: seq<Event>, heads: map<Id, Head>, policy: ModePolicy, command: ListCommand)
    returns (result: ListResult)
    ensures result == Listed(threads, ReadForList(threads, log), heads, policy, command)
  {
    hide SummaryOf, Takes, Sorted, PageOf, Grouped, LatestInOpenTurns;
    var grouped := EventsByThread(threads, EventsOf(log, IS_SUMMARY, None, None));
    var parkings := LatestInOpenTurns(log);
    ghost var first := grouped;
    var i := 0;
    while i < |parkings|
      invariant 0 <= i <= |parkings|
      invariant grouped == ReadWhole(first, log, parkings[..i])
    {
      assert parkings[..i + 1][..i] == parkings[..i];
      if parkings[i].thread in grouped {
        grouped := grouped[parkings[i].thread := ThreadEvents(log, parkings[i].thread)];
      }
      i := i + 1;
    }
    assert parkings[..|parkings|] == parkings;
    var summaries: seq<Summary> := [];
    i := 0;
    while i < |threads|
      invariant 0 <= i <= |threads|
      invariant summaries == Taken(threads[..i], grouped, heads, policy, command)
    {
      assert threads[..i + 1][..i] == threads[..i];
      var events := if threads[i].id in grouped then grouped[threads[i].id] else [];
      var summary := SummaryOf(threads[i], events, LastActivity(heads, threads[i].id), policy);
      if Takes(summary, events, command) {
        summaries := summaries + [summary];
      }
      i := i + 1;
    }
    assert threads[..|threads|] == threads;
    result := PageOf(Sorted(summaries), policy, command.limit);
  }
}
