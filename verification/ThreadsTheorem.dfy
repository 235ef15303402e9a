/** The thread list, read from few events, is the one every event of every thread gives; and following its
    cursors visits it once, in order. */
module ThreadsTheorem {
  import opened Events
  import opened EventStore
  import opened Threads

  // ---------------------------------------------------------------- what the summary events tell

  function SummaryOnly(): Event -> bool {
    (e: Event) => SummaryType(e.payload)
  }

  lemma FilterKept(events: seq<Event>, test: Event -> bool)
    requires forall e :: e in events && test(e) ==> SummaryType(e.payload)
    ensures Filter(Filter(events, SummaryOnly()), test) == Filter(events, test)
  {
    FilterTwice(events, SummaryOnly(), test, test);
  }

  lemma {:induction false} LastKept(events: seq<Event>, test: Payload -> bool)
    requires forall p :: test(p) ==> SummaryType(p)
    ensures Last(Filter(events, SummaryOnly()), test) == Last(events, test)
  {
    if events != [] {
      var n := |events| - 1;
      LastKept(events[..n], test);
      var kept := Filter(events[..n], SummaryOnly());
      FilterSnoc(events[..n], events[n], SummaryOnly());
      assert events[..n] + [events[n]] == events;
      LastOfSnoc(events[..n], events[n], test);
      LastOfSnoc(kept, events[n], test);
    }
  }

  lemma LastOfSnoc(events: seq<Event>, e: Event, test: Payload -> bool)
    ensures Last(events + [e], test) == if test(e.payload) then Some(e) else Last(events, test)
  {
    assert (events + [e])[..|events|] == events;
  }

  /** Whatever a summary says, but for the park, the summary events say alone. */
  lemma OffersKept(events: seq<Event>, turn: Id)
    ensures OffersOptions(Filter(events, SummaryOnly()), turn) == OffersOptions(events, turn)
  {
    FilterKept(events, Offers(turn));
    FilterMembers(events, SummaryOnly());
    assert RefusedIn(Filter(events, SummaryOnly())) == RefusedIn(events);
  }

  lemma StatusKept(events: seq<Event>)
    requires ParkedOn(Filter(events, SummaryOnly())) == ParkedOn(events)
    ensures StatusOf(Filter(events, SummaryOnly())) == StatusOf(events)
  {
    hide ParkedOn, OffersOptions;
    LastKept(events, IS_START);
    var started := Last(events, IS_START);
    if started.Some? {
      FilterKept(events, ClosesTurn(started.value.turn));
      OffersKept(events, started.value.turn);
    }
  }

  lemma SummaryKept(thread: ThreadRecord, events: seq<Event>, lastActivity: Option<int>, policy: ModePolicy)
    requires ParkedOn(Filter(events, SummaryOnly())) == ParkedOn(events)
    ensures SummaryOf(thread, Filter(events, SummaryOnly()), lastActivity, policy) == SummaryOf(thread, events, lastActivity, policy)
    ensures UserStartedATurn(Filter(events, SummaryOnly())) == UserStartedATurn(events)
  {
    hide ParkedOn, StatusOf, Last;
    StatusKept(events);
    LastKept(events, IS_PIN);
    FilterKept(events, WithOrigin());
    FilterKept(events, StartedByUser());
  }

  // ---------------------------------------------------------------- the park

  /** A turn parks before it closes. */
  ghost predicate ParksBeforeClosing(log: seq<Event>) {
    forall i, j :: 0 <= i < |log| && 0 <= j < |log| && log[i].turn == log[j].turn && Parking(log[i].payload) && IsClosing(log[j].payload)
      ==> i < j
  }

  /** The latest parking event has a later event of its turn that ends the park. */
  lemma EndedBy(events: seq<Event>, closing: Event)
    requires ParksBeforeClosing(events) && closing in events && IsClosing(closing.payload)
    requires Last(events, IS_PARKING).Some? && Last(events, IS_PARKING).value.turn == closing.turn
    ensures ParkedOn(events).None?
  {
    var i := LastPlace(events, IS_PARKING).value;
    var j :| 0 <= j < |events| && events[j] == closing;
    assert Parking(events[i].payload);
    assert i < j;
    assert events[i + 1..][j - i - 1] == closing;
    assert Resumes(events[i], closing) && closing in events[i + 1..];
    assert AnyResumes(events[i], events[i + 1..]);
  }

  /** A filtered log keeps the order of what it keeps. */
  lemma {:induction false} KeepsOrder(events: seq<Event>, keep: Event -> bool)
    requires ParksBeforeClosing(events)
    ensures ParksBeforeClosing(Filter(events, keep))
  {
    if events != [] {
      var n := |events| - 1;
      assert ParksBeforeClosing(events[..n]);
      KeepsOrder(events[..n], keep);
      var kept := Filter(events[..n], keep);
      FilterMembers(events[..n], keep);
      forall i | 0 <= i < |kept| && kept[i].turn == events[n].turn ensures !(IsClosing(kept[i].payload) && Parking(events[n].payload)) {
        assert kept[i] in events[..n];
        var k :| 0 <= k < n && events[..n][k] == kept[i];
        assert events[k] == kept[i];
      }
    }
  }

  lemma NoneParked(events: seq<Event>)
    requires Last(events, IS_PARKING).None?
    ensures ParkedOn(events).None?
  {
  }

  /** The turn of a thread's latest parking event has closed, in that thread, when no read names it. */
  lemma ParkHasClosed(log: seq<Event>, id: Id) returns (closing: Event)
    requires OneThreadEach(log) && forall e :: e in LatestInOpenTurns(log) ==> e.thread != id
    requires Last(ThreadEvents(log, id), IS_PARKING).Some?
    ensures closing in ThreadEvents(log, id) && IsClosing(closing.payload)
    ensures closing.turn == Last(ThreadEvents(log, id), IS_PARKING).value.turn
  {
    FilterMembers(log, InThread(id));
    FilterMembers(log, ParkedOpen(log));
    hide Filter;
    var park := Last(ThreadEvents(log, id), IS_PARKING).value;
    assert park in ThreadEvents(log, id);
    assert TurnCloses(log, park.turn);
    closing :| closing in log && closing.turn == park.turn && IsClosing(closing.payload);
    OfOneThread(log, closing, park);
  }

  /** A thread not read whole is parked on nothing, and its summary events say so. */
  lemma {:induction false} UnparkedIsKept(log: seq<Event>, id: Id)
    requires OneThreadEach(log) && ParksBeforeClosing(log)
    requires forall e :: e in LatestInOpenTurns(log) ==> e.thread != id
    ensures ParkedOn(ThreadEvents(log, id)).None? && ParkedOn(Filter(ThreadEvents(log, id), SummaryOnly())).None?
  {
    hide ParkedOn, Last, Filter, ParksBeforeClosing;
    var own := ThreadEvents(log, id);
    var kept := Filter(own, SummaryOnly());
    LastKept(own, IS_PARKING);
    if Last(own, IS_PARKING).None? {
      NoneParked(own);
      NoneParked(kept);
    } else {
      var closing := ParkHasClosed(log, id);
      FilterMembers(own, SummaryOnly());
      KeepsOrder(log, InThread(id));
      KeepsOrder(own, SummaryOnly());
      EndedBy(own, closing);
      EndedBy(kept, closing);
    }
  }

  lemma OfOneThread(log: seq<Event>, a: Event, b: Event)
    requires OneThreadEach(log) && a in log && b in log && a.turn == b.turn
    ensures a.thread == b.thread
  {
    var i :| 0 <= i < |log| && log[i] == a;
    var j :| 0 <= j < |log| && log[j] == b;
  }

  // ---------------------------------------------------------------- the list

  lemma {:induction false} ReadWholeOf(grouped: map<Id, seq<Event>>, log: seq<Event>, parkings: seq<Event>, id: Id)
    ensures ReadWhole(grouped, log, parkings).Keys == grouped.Keys
    ensures id in grouped ==>
      ReadWhole(grouped, log, parkings)[id] == if exists e :: e in parkings && e.thread == id then ThreadEvents(log, id) else grouped[id]
  {
    if parkings != [] {
      var n := |parkings| - 1;
      ReadWholeOf(grouped, log, parkings[..n], id);
      assert parkings == parkings[..n] + [parkings[n]];
      if e :| e in parkings[..n] && e.thread == id {
        assert e in parkings;
      }
    }
  }

  /** A thread is either read whole, or read as well as whole. */
  lemma ReadAsWhole(threads: seq<ThreadRecord>, log: seq<Event>, thread: ThreadRecord, lastActivity: Option<int>, policy: ModePolicy)
    requires OneThreadEach(log) && ParksBeforeClosing(log) && thread in threads
    ensures thread.id in ReadForList(threads, log)
    ensures var read, whole := ReadForList(threads, log)[thread.id], ThreadEvents(log, thread.id);
            && SummaryOf(thread, read, lastActivity, policy) == SummaryOf(thread, whole, lastActivity, policy)
            && UserStartedATurn(read) == UserStartedATurn(whole)
  {
    hide ParkedOn, SummaryOf, UserStartedATurn, Last;
    var id := thread.id;
    var summaries := EventsOf(log, IS_SUMMARY, None, None);
    var first := Grouped(threads, summaries);
    ReadWholeOf(first, log, LatestInOpenTurns(log), id);
    assert id in IdsOf(threads);
    if !exists e :: e in LatestInOpenTurns(log) && e.thread == id {
      UnparkedIsKept(log, id);
      SummaryKept(thread, ThreadEvents(log, id), lastActivity, policy);
      FilterTwice(log, Reads(IS_SUMMARY, None, None), InThread(id), Both(id));
      FilterTwice(log, InThread(id), SummaryOnly(), Both(id));
    }
  }

  function Both(id: Id): Event -> bool {
    (e: Event) => e.thread == id && SummaryType(e.payload)
  }

  lemma TakesAlike(s: Summary, events: seq<Event>, events': seq<Event>, command: ListCommand)
    requires UserStartedATurn(events) == UserStartedATurn(events')
    ensures Takes(s, events, command) == Takes(s, events', command)
  {
  }

  lemma {:induction false} TakenAlike(threads: seq<ThreadRecord>, all: seq<ThreadRecord>, log: seq<Event>, heads: map<Id, Head>,
                                      policy: ModePolicy, command: ListCommand)
    requires OneThreadEach(log) && ParksBeforeClosing(log) && forall t :: t in threads ==> t in all
    ensures Taken(threads, ReadForList(all, log), heads, policy, command) == Taken(threads, Grouped(all, log), heads, policy, command)
  {
    hide ReadForList, SummaryOf, Takes;
    if threads != [] {
      var n := |threads| - 1;
      var thread := threads[n];
      assert thread in threads;
      TakenAlike(threads[..n], all, log, heads, policy, command);
      ReadAsWhole(all, log, thread, LastActivity(heads, thread.id), policy);
      assert thread.id in IdsOf(all);
      TakesAlike(SummaryOf(thread, ThreadEvents(log, thread.id), LastActivity(heads, thread.id), policy),
                 ReadForList(all, log)[thread.id], ThreadEvents(log, thread.id), command);
    }
  }

  /** The list read from the summary events, and whole only for the threads that may be parked, is the list
      every event of every thread gives. */
  lemma {:induction false} ListsWhatTheLogGives(threads: seq<ThreadRecord>, log: seq<Event>, heads: map<Id, Head>, policy: ModePolicy, command: ListCommand)
    requires OneThreadEach(log) && ParksBeforeClosing(log)
    ensures Listed(threads, ReadForList(threads, log), heads, policy, command)
         == Listed(threads, Grouped(threads, log), heads, policy, command)
  {
    TakenAlike(threads, threads, log, heads, policy, command);
  }

  /** And a thread's last activity is its last event's time, or else when it was made. */
  lemma {:induction false} LastActivityIsLastEvent(log: seq<Event>, heads: map<Id, Head>, thread: ThreadRecord, policy: ModePolicy)
    requires Consistent(log, heads)
    ensures var own := ThreadEvents(log, thread.id);
            var summary := SummaryOf(thread, own, LastActivity(heads, thread.id), policy);
            summary.key.lastActivityAt == if own == [] then thread.createdAt else own[|own| - 1].time
  {
    hide StatusOf, ParkedOn, PinnedMode, OriginOf;
    assert ThreadConsistent(ThreadEvents(log, thread.id), HeadOf(heads, thread.id));
  }

  // ---------------------------------------------------------------- the order

  ghost predicate Descending(items: seq<Summary>) {
    forall i, j :: 0 <= i < j < |items| ==> !Below(items[i].key, items[j].key)
  }

  lemma {:induction false} InsertedMembers(items: seq<Summary>, x: Summary)
    ensures multiset(Inserted(items, x)) == multiset(items) + multiset{x}
    ensures forall y :: y in Inserted(items, x) <==> y in items || y == x
  {
    if items != [] {
      var n := |items| - 1;
      assert items == items[..n] + [items[n]];
      InsertedMembers(items[..n], x);
    }
  }

  lemma {:induction false} InsertedDescends(items: seq<Summary>, x: Summary)
    requires Descending(items)
    ensures Descending(Inserted(items, x))
  {
    if items != [] {
      var n := |items| - 1;
      if Below(items[n].key, x.key) {
        InsertedDescends(items[..n], x);
        InsertedMembers(items[..n], x);
        var before := Inserted(items[..n], x);
        forall i | 0 <= i < |before| ensures !Below(before[i].key, items[n].key) {
          assert before[i] in before;
        }
      } else {
        forall i | 0 <= i < n ensures !Below(items[i].key, x.key) {
          assert !Below(items[i].key, items[n].key);
        }
      }
    }
  }

  /** The list is a reordering of what it lists, the most recently active first. */
  lemma {:induction false} SortedIsOrdered(items: seq<Summary>)
    ensures Descending(Sorted(items)) && multiset(Sorted(items)) == multiset(items)
  {
    if items != [] {
      var n := |items| - 1;
      assert items == items[..n] + [items[n]];
      SortedIsOrdered(items[..n]);
      InsertedDescends(Sorted(items[..n]), items[n]);
      InsertedMembers(Sorted(items[..n]), items[n]);
    }
  }

  lemma {:induction false} FilterInserted(items: seq<Summary>, x: Summary, keep: Summary -> bool)
    requires Descending(items)
    ensures Filter(Inserted(items, x), keep) == if keep(x) then Inserted(Filter(items, keep), x) else Filter(items, keep)
  {
    if items == [] {
      FilterSnoc([], x, keep);
      assert [] + [x] == [x];
    } else {
      var n := |items| - 1;
      if Below(items[n].key, x.key) {
        FilterInserted(items[..n], x, keep);
        FilterSnoc(Inserted(items[..n], x), items[n], keep);
      } else {
        FilterSnoc(items, x, keep);
        var kept := Filter(items, keep);
        FilterMembers(items, keep);
        if kept != [] {
          assert kept[|kept| - 1] in items;
          var i :| 0 <= i < |items| && items[i] == kept[|kept| - 1];
          assert i < n ==> !Below(items[i].key, items[n].key);
        }
      }
    }
  }

  /** Sorting what is kept is keeping from what is sorted. */
  lemma {:induction false} FilterSorted(items: seq<Summary>, keep: Summary -> bool)
    ensures Sorted(Filter(items, keep)) == Filter(Sorted(items), keep)
  {
    if items != [] {
      var n := |items| - 1;
      FilterSorted(items[..n], keep);
      SortedIsOrdered(items[..n]);
      FilterInserted(Sorted(items[..n]), items[n], keep);
      if keep(items[n]) {
        var kept := Filter(items[..n], keep);
        assert (kept + [items[n]])[..|kept|] == kept;
      }
    }
  }

  // ---------------------------------------------------------------- the pages

  function BelowCursor(cursor: Option<Cursor>): Summary -> bool {
    (s: Summary) => cursor.None? || Below(s.key, cursor.value)
  }

  lemma {:induction false} TakenBelow(threads: seq<ThreadRecord>, grouped: map<Id, seq<Event>>, heads: map<Id, Head>, policy: ModePolicy,
                                      command: ListCommand, cursor: Option<Cursor>)
    ensures Taken(threads, grouped, heads, policy, command.(cursor := cursor))
         == Filter(Taken(threads, grouped, heads, policy, command.(cursor := None)), BelowCursor(cursor))
  {
    hide SummaryOf, IsIn;
    if threads != [] {
      var n := |threads| - 1;
      var thread := threads[n];
      TakenBelow(threads[..n], grouped, heads, policy, command, cursor);
      var events := if thread.id in grouped then grouped[thread.id] else [];
      FilterSnoc(Taken(threads[..n], grouped, heads, policy, command.(cursor := None)),
                 SummaryOf(thread, events, LastActivity(heads, thread.id), policy), BelowCursor(cursor));
    }
  }

  /** Every thread sorts strictly below the one before it. */
  ghost predicate StrictlyDescending(items: seq<Summary>) {
    forall i, j :: 0 <= i < j < |items| ==> Below(items[j].key, items[i].key)
  }

  lemma {:induction false} RestBelow(items: seq<Summary>, k: nat)
    requires StrictlyDescending(items) && 0 < k <= |items|
    ensures Filter(items, BelowCursor(Some(items[k - 1].key))) == items[k..]
  {
    var keep := BelowCursor(Some(items[k - 1].key));
    assert items == items[..k] + items[k..];
    FilterConcat(items[..k], items[k..], keep);
    forall s | s in items[..k] ensures !keep(s) {
      var i :| 0 <= i < k && items[..k][i] == s;
      assert i < k - 1 ==> Below(items[k - 1].key, items[i].key);
    }
    FilterNone(items[..k], keep);
    forall s | s in items[k..] ensures keep(s) {
      var i :| 0 <= i < |items| - k && items[k..][i] == s;
      assert items[k + i] == s;
    }
    FilterAll(items[k..], keep);
  }

  /** What a reader sees who follows the cursors, with limits of its own choice. */
  function Followed(threads: seq<ThreadRecord>, grouped: map<Id, seq<Event>>, heads: map<Id, Head>, policy: ModePolicy,
                    command: ListCommand, limits: seq<nat>): seq<Summary>
    decreases |limits|
  {
    if limits == [] then []
    else
      var result := Listed(threads, grouped, heads, policy, command.(limit := Some(limits[0])));
      result.threads
      + (if result.cursor.None? then []
         else Followed(threads, grouped, heads, policy, command.(cursor := result.cursor), limits[1..]))
  }

  ghost predicate DistinctThreads(threads: seq<ThreadRecord>) {
    forall i, j :: 0 <= i < j < |threads| ==> threads[i].id != threads[j].id
  }

  lemma SummaryIsOf(thread: ThreadRecord, events: seq<Event>, lastActivity: Option<int>, policy: ModePolicy)
    ensures SummaryOf(thread, events, lastActivity, policy).key.id == thread.id
  {
  }

  ghost predicate OfThreads(items: seq<Summary>, threads: seq<ThreadRecord>) {
    forall s :: s in items ==> exists i :: 0 <= i < |threads| && threads[i].id == s.key.id
  }

  lemma {:induction false} TakenDistinct(threads: seq<ThreadRecord>, grouped: map<Id, seq<Event>>, heads: map<Id, Head>,
                                         policy: ModePolicy, command: ListCommand)
    requires DistinctThreads(threads)
    ensures OfThreads(Taken(threads, grouped, heads, policy, command), threads)
    ensures DistinctIds(Taken(threads, grouped, heads, policy, command))
  {
    hide Takes, SummaryOf;
    if threads != [] {
      var n := |threads| - 1;
      TakenDistinct(threads[..n], grouped, heads, policy, command);
      var before := Taken(threads[..n], grouped, heads, policy, command);
      var events := if threads[n].id in grouped then grouped[threads[n].id] else [];
      SummaryIsOf(threads[n], events, LastActivity(heads, threads[n].id), policy);
      forall s | s in before ensures s.key.id != threads[n].id && exists i :: 0 <= i < |threads| && threads[i].id == s.key.id {
        var i :| 0 <= i < n && threads[..n][i].id == s.key.id;
        assert threads[i].id == s.key.id;
      }
      hide Taken;
    }
  }

  ghost predicate DistinctIds(items: seq<Summary>) {
    forall i, j :: 0 <= i < j < |items| ==> items[i].key.id != items[j].key.id
  }

  lemma {:induction false} InsertedDistinct(items: seq<Summary>, x: Summary)
    requires DistinctIds(items) && forall y :: y in items ==> y.key.id != x.key.id
    ensures DistinctIds(Inserted(items, x))
  {
    if items != [] {
      var n := |items| - 1;
      assert items == items[..n] + [items[n]];
      if Below(items[n].key, x.key) {
        InsertedDistinct(items[..n], x);
        InsertedMembers(items[..n], x);
        var before := Inserted(items[..n], x);
        forall i | 0 <= i < |before| ensures before[i].key.id != items[n].key.id {
          assert before[i] in before;
        }
      }
    }
  }

  lemma {:induction false} SortedStrictly(items: seq<Summary>)
    requires DistinctIds(items)
    ensures StrictlyDescending(Sorted(items)) && DistinctIds(Sorted(items))
  {
    SortedIsOrdered(items);
    if items != [] {
      var n := |items| - 1;
      SortedStrictly(items[..n]);
      SortedMembers(items[..n]);
      InsertedDistinct(Sorted(items[..n]), items[n]);
    }
  }

  lemma SortedMembers(items: seq<Summary>)
    ensures forall y :: y in Sorted(items) <==> y in items
  {
    SortedIsOrdered(items);
    forall y ensures y in Sorted(items) <==> y in items {
      assert y in multiset(Sorted(items)) <==> y in multiset(items);
    }
  }

  /** A page from a cursor is cut from the whole list, just past it. */
  lemma PageFrom(threads: seq<ThreadRecord>, grouped: map<Id, seq<Event>>, heads: map<Id, Head>, policy: ModePolicy,
                 command: ListCommand, whole: seq<Summary>, k: nat)
    requires DistinctThreads(threads)
    requires whole == Sorted(Taken(threads, grouped, heads, policy, command.(cursor := None))) && k <= |whole|
    requires command.cursor == if k == 0 then None else Some(whole[k - 1].key)
    ensures Sorted(Taken(threads, grouped, heads, policy, command)) == whole[k..]
  {
    var all := Taken(threads, grouped, heads, policy, command.(cursor := None));
    TakenBelow(threads, grouped, heads, policy, command, command.cursor);
    assert command == command.(cursor := command.cursor);
    FilterSorted(all, BelowCursor(command.cursor));
    TakenDistinct(threads, grouped, heads, policy, command.(cursor := None));
    SortedStrictly(all);
    if k == 0 {
      FilterAll(whole, BelowCursor(None));
    } else {
      RestBelow(whole, k);
    }
  }

  /** A limit below what is left cuts the page there, and its cursor is the last thread of it. */
  lemma PageCuts(rest: seq<Summary>, policy: ModePolicy, limit: nat)
    requires limit >= 1
    ensures var result := PageOf(rest, policy, Some(limit));
            && (limit < |rest| ==> result.threads == rest[..limit] && result.cursor == Some(rest[limit - 1].key))
            && (limit >= |rest| ==> result.threads == rest && result.cursor.None?)
  {
    assert limit == |rest| ==> rest[..limit] == rest;
  }

  /** The next page of the list, and the pages that follow its cursor. */
  lemma NextPage(threads: seq<ThreadRecord>, grouped: map<Id, seq<Event>>, heads: map<Id, Head>, policy: ModePolicy,
                 command: ListCommand, limits: seq<nat>, whole: seq<Summary>, k: nat)
    requires DistinctThreads(threads) && limits != [] && limits[0] >= 1
    requires whole == Sorted(Taken(threads, grouped, heads, policy, command.(cursor := None))) && k <= |whole|
    requires command.cursor == if k == 0 then None else Some(whole[k - 1].key)
    ensures Followed(threads, grouped, heads, policy, command, limits)
         == if limits[0] < |whole| - k then
              whole[k..][..limits[0]]
              + Followed(threads, grouped, heads, policy, command.(cursor := Some(whole[k + limits[0] - 1].key)), limits[1..])
            else whole[k..]
  {
    hide Sorted, Taken, PageOf, DistinctThreads;
    var limited := command.(limit := Some(limits[0]));
    SameTaken(threads, grouped, heads, policy, command, Some(limits[0]));
    PageFrom(threads, grouped, heads, policy, limited, whole, k);
    PageCuts(whole[k..], policy, limits[0]);
  }

  lemma {:induction false} FollowsFrom(threads: seq<ThreadRecord>, grouped: map<Id, seq<Event>>, heads: map<Id, Head>,
                                       policy: ModePolicy, command: ListCommand, limits: seq<nat>, whole: seq<Summary>, k: nat)
    requires DistinctThreads(threads) && forall l :: l in limits ==> l >= 1
    requires whole == Sorted(Taken(threads, grouped, heads, policy, command.(cursor := None))) && k <= |whole|
    requires command.cursor == if k == 0 then None else Some(whole[k - 1].key)
    requires k + |limits| > |whole|
    ensures Followed(threads, grouped, heads, policy, command, limits) == whole[k..]
    decreases |limits|
  {
    hide Followed, Sorted, Taken, DistinctThreads;
    var limit := limits[0];
    assert limit in limits;
    NextPage(threads, grouped, heads, policy, command, limits, whole, k);
    if limit < |whole| - k {
      forall l | l in limits[1..] ensures l >= 1 {
        assert l in limits;
      }
      FollowsFrom(threads, grouped, heads, policy, command.(cursor := Some(whole[k + limit - 1].key)), limits[1..], whole, k + limit);
      assert whole[k..][..limit] + whole[k + limit..] == whole[k..];
    }
  }

  lemma {:induction false} SameTaken(threads: seq<ThreadRecord>, grouped: map<Id, seq<Event>>, heads: map<Id, Head>,
                                     policy: ModePolicy, command: ListCommand, limit: Option<nat>)
    ensures Taken(threads, grouped, heads, policy, command.(limit := limit, cursor := None))
         == Taken(threads, grouped, heads, policy, command.(cursor := None))
  {
    hide SummaryOf, IsIn;
    if threads != [] {
      SameTaken(threads[..|threads| - 1], grouped, heads, policy, command, limit);
    }
  }

  /** On an unchanged log, following the cursors with any positive limits visits the unpaged list: each thread
      once, in order. */
  lemma {:induction false} CursorsVisitTheList(threads: seq<ThreadRecord>, grouped: map<Id, seq<Event>>, heads: map<Id, Head>, policy: ModePolicy,
                            command: ListCommand, limits: seq<nat>)
    requires DistinctThreads(threads) && (forall l :: l in limits ==> l >= 1) && |limits| > |threads|
    ensures Followed(threads, grouped, heads, policy, command.(cursor := None), limits)
         == Listed(threads, grouped, heads, policy, command.(cursor := None, limit := None)).threads
  {
    var whole := Sorted(Taken(threads, grouped, heads, policy, command.(cursor := None)));
    SortedIsOrdered(Taken(threads, grouped, heads, policy, command.(cursor := None)));
    assert |whole| == |multiset(whole)|;
    FewTaken(threads, grouped, heads, policy, command.(cursor := None));
    FollowsFrom(threads, grouped, heads, policy, command.(cursor := None), limits, whole, 0);
    SameTaken(threads, grouped, heads, policy, command, None);
  }

  lemma {:induction false} FewTaken(threads: seq<ThreadRecord>, grouped: map<Id, seq<Event>>, heads: map<Id, Head>,
                                    policy: ModePolicy, command: ListCommand)
    ensures |Taken(threads, grouped, heads, policy, command)| <= |threads|
  {
    hide SummaryOf, Takes;
    if threads != [] {
      FewTaken(threads[..|threads| - 1], grouped, heads, policy, command);
    }
  }
}
