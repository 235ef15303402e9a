/** What a thread's line in the list says, told from the thread's events: each status, the mode under the
    ceiling, the origin, the approval that waits, and which threads each list holds. */
module ThreadSummaries {
  import opened Events
  import opened EventStore
  import opened Threads
  import opened ThreadsTheorem

  // ---------------------------------------------------------------- what the events say

  predicate StartsLast(events: seq<Event>, i: nat) {
    && i < |events| && events[i].payload.TurnStarted?
    && forall j :: i < j < |events| ==> !events[j].payload.TurnStarted?
  }

  predicate Waits(p: Payload) {
    p.ApprovalRequested? || p.TakeoverRequested?
  }

  /** The last approval or takeover asked for, which no later event of its turn ended. What is recorded of a
      notification ends no wait. */
  predicate WaitsAt(events: seq<Event>, p: nat) {
    && p < |events| && Waits(events[p].payload)
    && (forall j :: p < j < |events| ==> !Waits(events[j].payload))
    && forall j :: p < j < |events| && events[j].turn == events[p].turn ==>
         var later := events[j].payload; later.NotificationRaised? || later.NotificationAccepted? || later.NotificationRefused?
  }

  predicate Ends(p: Payload) {
    p.TurnCompleted? || p.TurnFailed? || p.TurnInterrupted?
  }

  predicate ClosesAt(events: seq<Event>, turn: Id, c: nat) {
    c < |events| && events[c].turn == turn && Ends(events[c].payload)
  }

  predicate ClosesFirst(events: seq<Event>, turn: Id, c: nat) {
    ClosesAt(events, turn, c) && forall j :: 0 <= j < c ==> !ClosesAt(events, turn, j)
  }

  /** The turn raised a notification with options of its own, which was not refused. */
  predicate OffersAt(events: seq<Event>, turn: Id, k: nat) {
    && k < |events| && events[k].turn == turn && events[k].payload.NotificationRaised?
    && events[k].payload.hasOptions && !events[k].payload.answersApproval
    && forall j :: 0 <= j < |events| ==> !(events[j].payload.NotificationRefused? && events[j].payload.raised == events[k].sequence)
  }

  ghost predicate HasStart(events: seq<Event>) {
    exists i: nat :: StartsLast(events, i)
  }

  ghost predicate IsWaiting(events: seq<Event>) {
    exists p: nat :: WaitsAt(events, p)
  }

  /** The turn started last has closed. */
  ghost predicate HasClosed(events: seq<Event>) {
    exists i: nat, c: nat :: StartsLast(events, i) && ClosesFirst(events, events[i].turn, c)
  }

  /** Its first closing was a failure. */
  ghost predicate HasFailed(events: seq<Event>) {
    exists i: nat, c: nat :: StartsLast(events, i) && ClosesFirst(events, events[i].turn, c) && events[c].payload.TurnFailed?
  }

  ghost predicate Offering(events: seq<Event>) {
    exists i: nat, k: nat :: StartsLast(events, i) && OffersAt(events, events[i].turn, k)
  }

  // ---------------------------------------------------------------- the functions the summary is made with

  lemma LastStart(events: seq<Event>)
    ensures Last(events, IS_START).Some? <==> HasStart(events)
    ensures forall i: nat :: StartsLast(events, i) ==> Last(events, IS_START) == Some(events[i])
  {
    var i := LastPlace(events, IS_START);
    if i.Some? {
      assert StartsLast(events, i.value);
    }
    if j: nat :| StartsLast(events, j) {
      assert IS_START(events[j].payload);
    }
  }

  lemma ParkedIsWaiting(events: seq<Event>)
    ensures ParkedOn(events).Some? <==> IsWaiting(events)
    ensures forall p: nat :: WaitsAt(events, p) ==>
      ParkedOn(events) == Some(if events[p].payload.ApprovalRequested? then OnApproval(events[p]) else OnTakeover(events[p]))
  {
    var i := LastPlace(events, IS_PARKING);
    forall p: nat | WaitsAt(events, p)
      ensures ParkedOn(events) == Some(if events[p].payload.ApprovalRequested? then OnApproval(events[p]) else OnTakeover(events[p]))
    {
      assert IS_PARKING(events[p].payload);
      assert i == Some(p);
      NoneResume(events, p);
    }
    if ParkedOn(events).Some? {
      NoneResume(events, i.value);
      assert WaitsAt(events, i.value);
    }
  }

  lemma ParkedOnEither(events: seq<Event>)
    ensures var parked := ParkedOn(events);
            && (parked.Some? <==> IsWaiting(events))
            && (parked.Some? && parked.value.OnApproval? <==> exists p: nat :: WaitsAt(events, p) && events[p].payload.ApprovalRequested?)
            && (parked.Some? && parked.value.OnTakeover? <==> exists p: nat :: WaitsAt(events, p) && events[p].payload.TakeoverRequested?)
  {
    ParkedIsWaiting(events);
    hide ParkedOn;
    if p: nat :| WaitsAt(events, p) {
      assert Waits(events[p].payload);
    }
  }

  lemma NoneResume(events: seq<Event>, p: nat)
    requires p < |events|
    ensures AnyResumes(events[p], events[p + 1..]) <==> exists j :: p < j < |events| && Resumes(events[p], events[j])
  {
    if e :| e in events[p + 1..] && Resumes(events[p], e) {
      var j :| 0 <= j < |events[p + 1..]| && events[p + 1..][j] == e;
      assert Resumes(events[p], events[p + 1 + j]);
    }
    if j :| p < j < |events| && Resumes(events[p], events[j]) {
      assert events[p + 1..][j - p - 1] == events[j];
    }
  }

  lemma {:induction false} FirstPlace(events: seq<Event>, test: Event -> bool)
    ensures First(events, test).None? <==> forall j :: 0 <= j < |events| ==> !test(events[j])
    ensures forall c :: 0 <= c < |events| && test(events[c]) && (forall j :: 0 <= j < c ==> !test(events[j])) ==>
              First(events, test) == Some(events[c])
  {
    if events != [] {
      var n := |events| - 1;
      FirstPlace(events[..n], test);
      assert forall j :: 0 <= j < n ==> events[..n][j] == events[j];
    }
  }

  lemma {:induction false} LeastPlace(events: seq<Event>, test: Event -> bool) returns (c: nat)
    requires exists j :: 0 <= j < |events| && test(events[j])
    ensures c < |events| && test(events[c]) && forall j :: 0 <= j < c ==> !test(events[j])
  {
    var n := |events| - 1;
    if j :| 0 <= j < n && test(events[j]) {
      assert test(events[..n][j]);
      c := LeastPlace(events[..n], test);
      assert events[..n][c] == events[c] && forall i :: 0 <= i < c ==> events[..n][i] == events[i];
    } else {
      c := n;
    }
  }

  lemma ClosingIsFirst(events: seq<Event>, turn: Id)
    ensures First(events, ClosesTurn(turn)).None? <==> forall c: nat :: !ClosesAt(events, turn, c)
    ensures forall c: nat :: ClosesFirst(events, turn, c) ==> First(events, ClosesTurn(turn)) == Some(events[c])
    ensures First(events, ClosesTurn(turn)).Some? ==> exists c: nat :: ClosesFirst(events, turn, c)
  {
    var test := ClosesTurn(turn);
    FirstPlace(events, test);
    assert forall j: nat :: j < |events| ==> (test(events[j]) <==> ClosesAt(events, turn, j));
    hide First;
    if First(events, test).Some? {
      var c := LeastPlace(events, test);
      assert ClosesFirst(events, turn, c);
    }
  }

  lemma OffersAreTold(events: seq<Event>, turn: Id)
    ensures OffersOptions(events, turn) <==> exists k: nat :: OffersAt(events, turn, k)
  {
    FilterMembers(events, Offers(turn));
    hide Filter;
    if e :| e in Filter(events, Offers(turn)) && e.sequence !in RefusedIn(events) {
      var k :| 0 <= k < |events| && events[k] == e;
      forall j | 0 <= j < |events| ensures !(events[j].payload.NotificationRefused? && events[j].payload.raised == e.sequence) {
        assert events[j] in events;
      }
      assert OffersAt(events, turn, k);
    }
    if k: nat :| OffersAt(events, turn, k) {
      assert events[k] in events && events[k].sequence !in RefusedIn(events);
      assert events[k] in Filter(events, Offers(turn));
    }
  }

  // ---------------------------------------------------------------- the status

  /** A thread's status, each told from its events. A wait comes before all else once a turn started; then the
      first closing of the turn started last decides, and the options it left. */
  ghost predicate StatusTold(status: Status, events: seq<Event>) {
    match status
    case AwaitingApproval => HasStart(events) && exists p: nat :: WaitsAt(events, p) && events[p].payload.ApprovalRequested?
    case AwaitingTakeover => HasStart(events) && exists p: nat :: WaitsAt(events, p) && events[p].payload.TakeoverRequested?
    case TurnRuns => HasStart(events) && !IsWaiting(events) && !HasClosed(events)
    case TurnHasFailed => !IsWaiting(events) && HasFailed(events)
    case AwaitingReply => !IsWaiting(events) && HasClosed(events) && !HasFailed(events) && Offering(events)
    case Idle => !HasStart(events) || (!IsWaiting(events) && HasClosed(events) && !HasFailed(events) && !Offering(events))
  }

  lemma ClosedIs(events: seq<Event>, i: nat)
    requires StartsLast(events, i)
    ensures var closing := First(events, ClosesTurn(events[i].turn));
            && (HasClosed(events) <==> closing.Some?)
            && (HasFailed(events) <==> closing.Some? && closing.value.payload.TurnFailed?)
  {
    ClosingIsFirst(events, events[i].turn);
    hide First;
    if First(events, ClosesTurn(events[i].turn)).Some? {
      var c: nat :| ClosesFirst(events, events[i].turn, c);
      assert HasClosed(events);
    }
    if i': nat, c: nat :| StartsLast(events, i') && ClosesFirst(events, events[i'].turn, c) {
      assert i' == i;
    }
  }

  lemma OfferingIs(events: seq<Event>, i: nat)
    requires StartsLast(events, i)
    ensures Offering(events) <==> OffersOptions(events, events[i].turn)
  {
    OffersAreTold(events, events[i].turn);
    hide OffersOptions;
    if k: nat :| OffersAt(events, events[i].turn, k) {
      assert Offering(events);
    }
    if i': nat, k: nat :| StartsLast(events, i') && OffersAt(events, events[i'].turn, k) {
      assert i' == i;
    }
  }

  /** A thread has the status its events tell, and no other. */
  lemma StatusIsTold(events: seq<Event>, status: Status)
    ensures StatusOf(events) == status <==> StatusTold(status, events)
  {
    LastStart(events);
    ParkedOnEither(events);
    hide Last, ParkedOn, First, OffersOptions, HasClosed, HasFailed, Offering, WaitsAt, IsWaiting;
    if HasStart(events) {
      var i: nat :| StartsLast(events, i);
      ClosedIs(events, i);
      OfferingIs(events, i);
    } else {
      NoStartNoClosing(events);
    }
  }

  lemma NoStartNoClosing(events: seq<Event>)
    requires !HasStart(events)
    ensures !HasClosed(events) && !HasFailed(events) && !Offering(events)
  {
  }

  // ---------------------------------------------------------------- the rest of the summary

  /** A mode that allows no more than another. */
  predicate NoFreerThan(mode: Mode, ceiling: Mode) {
    match ceiling
    case FullAccess => true
    case Auto => !mode.FullAccess?
    case Ask => mode.Ask? || mode.ReadOnly?
    case ReadOnly => mode.ReadOnly?
  }

  predicate PinsLast(events: seq<Event>, i: nat) {
    i < |events| && events[i].payload.ModePinned? && forall j :: i < j < |events| ==> !events[j].payload.ModePinned?
  }

  /** A thread runs in the mode it pinned last, or the policy's, but for one freer than the ceiling, which it runs in then. */
  ghost predicate ModeTold(mode: Mode, pinned: bool, events: seq<Event>, policy: ModePolicy) {
    && (pinned <==> exists i: nat :: PinsLast(events, i))
    && (forall i: nat :: PinsLast(events, i) ==>
          mode == if NoFreerThan(events[i].payload.mode, policy.ceiling) then events[i].payload.mode else policy.ceiling)
    && (!pinned ==> mode == if NoFreerThan(policy.mode, policy.ceiling) then policy.mode else policy.ceiling)
  }

  lemma ModeIsTold(thread: ThreadRecord, events: seq<Event>, lastActivity: Option<int>, policy: ModePolicy)
    ensures var s := SummaryOf(thread, events, lastActivity, policy);
            ModeTold(s.mode, s.modePinned, events, policy) && NoFreerThan(s.mode, policy.ceiling)
  {
    hide StatusOf, OriginOf, ParkedOn;
    var i := LastPlace(events, IS_PIN);
    if i.Some? {
      assert PinsLast(events, i.value);
    }
    forall j: nat | PinsLast(events, j) ensures i == Some(j) {
      assert IS_PIN(events[j].payload);
    }
  }

  /** The origin of the first turn started or delivery received, or the user's while there is neither. */
  ghost predicate OriginTold(origin: Origin, events: seq<Event>) {
    if exists j :: 0 <= j < |events| && (events[j].payload.TurnStarted? || events[j].payload.SignalReceived?) then
      exists c :: 0 <= c < |events| && OriginAt(events, c, origin)
    else origin == UserOrigin
  }

  predicate OriginAt(events: seq<Event>, c: nat, origin: Origin)
    requires c < |events|
  {
    && (forall j :: 0 <= j < c ==> !events[j].payload.TurnStarted? && !events[j].payload.SignalReceived?)
    && var p := events[c].payload; (p.TurnStarted? && p.origin == origin) || (p.SignalReceived? && p.signal == origin)
  }

  lemma OriginIsTold(events: seq<Event>)
    ensures OriginTold(OriginOf(events), events)
  {
    FirstPlace(events, WithOrigin());
    hide First;
    if j :| 0 <= j < |events| && (events[j].payload.TurnStarted? || events[j].payload.SignalReceived?) {
      assert WithOrigin()(events[j]);
      var c := LeastPlace(events, WithOrigin());
      assert OriginAt(events, c, OriginOf(events));
    }
  }

  /** A line of the list that says what its thread's record and events do. */
  ghost predicate Says(s: Summary, thread: ThreadRecord, events: seq<Event>, lastActivity: Option<int>, policy: ModePolicy) {
    && s.key == Cursor(if lastActivity.Some? then lastActivity.value else thread.createdAt, thread.id)
    && s.title == thread.title && s.createdAt == thread.createdAt && s.archived == thread.archived
    && StatusTold(s.status, events)
    && ModeTold(s.mode, s.modePinned, events, policy)
    && OriginTold(s.origin, events)
    && (s.approval.Some? <==> exists p: nat :: WaitsAt(events, p) && events[p].payload.ApprovalRequested?)
    && (forall p: nat :: WaitsAt(events, p) && events[p].payload.ApprovalRequested? ==> s.approval == Some(events[p]))
  }

  lemma ApprovalIsTold(events: seq<Event>)
    ensures var parked := ParkedOn(events);
            var approval := if parked.Some? && parked.value.OnApproval? then Some(parked.value.event) else None;
            && (approval.Some? <==> exists p: nat :: WaitsAt(events, p) && events[p].payload.ApprovalRequested?)
            && (forall p: nat :: WaitsAt(events, p) && events[p].payload.ApprovalRequested? ==> approval == Some(events[p]))
  {
    ParkedIsWaiting(events);
    hide ParkedOn, WaitsAt;
  }

  /** What is told fixes the line: a summary says it, and nothing else does. */
  lemma SummaryIsTold(s: Summary, thread: ThreadRecord, events: seq<Event>, lastActivity: Option<int>, policy: ModePolicy)
    ensures Says(s, thread, events, lastActivity, policy) <==> s == SummaryOf(thread, events, lastActivity, policy)
  {
    var t := SummaryOf(thread, events, lastActivity, policy);
    StatusIsTold(events, StatusOf(events));
    StatusIsTold(events, s.status);
    ModeIsTold(thread, events, lastActivity, policy);
    OriginIsTold(events);
    ApprovalIsTold(events);
    hide StatusOf, StatusTold, OriginOf, ParkedOn, PinnedMode, Constrained, WaitsAt;
    if Says(s, thread, events, lastActivity, policy) {
      OneMode(s, t, events, policy);
      OneOrigin(s.origin, t.origin, events);
    }
  }

  lemma OneMode(s: Summary, t: Summary, events: seq<Event>, policy: ModePolicy)
    requires ModeTold(s.mode, s.modePinned, events, policy) && ModeTold(t.mode, t.modePinned, events, policy)
    ensures s.mode == t.mode && s.modePinned == t.modePinned
  {
  }

  lemma OneOrigin(a: Origin, b: Origin, events: seq<Event>)
    requires OriginTold(a, events) && OriginTold(b, events)
    ensures a == b
  {
    if c, d :| 0 <= c < |events| && OriginAt(events, c, a) && 0 <= d < |events| && OriginAt(events, d, b) {
      assert c == d;
    }
  }

  // ---------------------------------------------------------------- the lists

  /** The sidebar has what waits on the user, archived or not; and of what is not archived, the user's own
      threads, those a user started a turn in, and those that failed or wait for a reply. */
  ghost predicate BelongsIn(s: Summary, events: seq<Event>, filter: ThreadFilter) {
    match filter
    case AllThreads => true
    case Archived => s.archived
    case Sidebar =>
      || (s.status in {AwaitingApproval, AwaitingTakeover})
      || (!s.archived && (s.status in {TurnHasFailed, AwaitingReply} || s.origin == UserOrigin
                          || exists j :: 0 <= j < |events| && events[j].payload.TurnStarted? && events[j].payload.origin == UserOrigin))
  }

  lemma BelongsWhereItIs(s: Summary, events: seq<Event>, filter: ThreadFilter)
    ensures IsIn(s, events, filter) <==> BelongsIn(s, events, filter)
  {
    FilterMembers(events, StartedByUser());
    if j :| 0 <= j < |events| && events[j].payload.TurnStarted? && events[j].payload.origin == UserOrigin {
      assert events[j] in Filter(events, StartedByUser());
    }
    if Filter(events, StartedByUser()) != [] {
      assert Filter(events, StartedByUser())[0] in Filter(events, StartedByUser());
      var j :| 0 <= j < |events| && events[j] == Filter(events, StartedByUser())[0];
    }
  }

  /** A thread's line is in a whole list when the thread belongs there and is of the routine asked for. */
  ghost predicate IsListed(s: Summary, threads: seq<ThreadRecord>, log: seq<Event>, heads: map<Id, Head>, policy: ModePolicy,
                           command: ListCommand)
  {
    exists thread :: thread in threads && ListedAs(s, thread, ThreadEvents(log, thread.id), heads, policy, command)
  }

  ghost predicate ListedAs(s: Summary, thread: ThreadRecord, own: seq<Event>, heads: map<Id, Head>, policy: ModePolicy, command: ListCommand) {
    && Says(s, thread, own, if thread.id in heads then Some(heads[thread.id].lastActivity) else None, policy)
    && BelongsIn(s, own, command.filter)
    && (command.routine.Some? ==> s.origin.RoutineOrigin? && s.origin.name == command.routine.value)
  }

  lemma {:induction false} TakenAreListed(threads: seq<ThreadRecord>, all: seq<ThreadRecord>, log: seq<Event>, heads: map<Id, Head>,
                                          policy: ModePolicy, command: ListCommand, s: Summary)
    requires command.cursor.None? && forall t :: t in threads ==> t in all
    ensures s in Taken(threads, Grouped(all, log), heads, policy, command) <==> IsListed(s, threads, log, heads, policy, command)
  {
    hide Says, BelongsIn, SummaryOf, IsIn, ThreadEvents;
    if threads != [] {
      var n := |threads| - 1;
      var thread := threads[n];
      TakenAreListed(threads[..n], all, log, heads, policy, command, s);
      assert threads == threads[..n] + [thread];
      assert thread in all;
      var own, lastActivity := ThreadEvents(log, thread.id), LastActivity(heads, thread.id);
      assert Grouped(all, log)[thread.id] == own;
      SummaryIsTold(s, thread, own, lastActivity, policy);
      BelongsWhereItIs(s, own, command.filter);
      assert s == SummaryOf(thread, own, lastActivity, policy) && Takes(s, own, command)
        <==> ListedAs(s, thread, own, heads, policy, command);
    }
  }

  /** The list read from the summary events holds, when it is asked for whole, exactly the lines of the threads
      that belong in it, each told from its thread's own events. */
  lemma {:induction false} ListHoldsWhatBelongs(threads: seq<ThreadRecord>, log: seq<Event>, heads: map<Id, Head>, policy: ModePolicy,
                                               command: ListCommand, s: Summary)
    requires OneThreadEach(log) && ParksBeforeClosing(log) && command.cursor.None? && command.limit.None?
    ensures s in Listed(threads, ReadForList(threads, log), heads, policy, command).threads
       <==> IsListed(s, threads, log, heads, policy, command)
  {
    hide Taken, ReadForList, IsListed, Sorted, OneThreadEach, ParksBeforeClosing, Grouped;
    ListsWhatTheLogGives(threads, log, heads, policy, command);
    TakenAreListed(threads, threads, log, heads, policy, command, s);
    SortedMembers(Taken(threads, Grouped(threads, log), heads, policy, command));
  }
}
