/** One event at a time, side by side: the fold of the whole log and the fold of the window stay alike, and what
    was stored before the range no longer changes what the range reports. */
module WindowTheorem {
  import opened Events
  import opened Pricing
  import opened Metrics
  import opened MetricsWindow
  import opened WindowProof
  import opened WindowSimulation

  // ---------------------------------------------------------------- who closed, who stopped

  ghost predicate HasClosing(events: seq<Event>, key: TurnKey) {
    exists e :: e in events && IsClosing(e.payload) && KeyOf(e) == key
  }

  ghost predicate HasStop(events: seq<Event>, thread: Id) {
    exists e :: e in events && e.payload.RunStopped? && e.thread == thread
  }

  lemma {:induction false} ClosedAreClosings(events: seq<Event>, prices: Prices)
    ensures forall key :: key in Fold(events, prices).book.closed <==> HasClosing(events, key)
    ensures forall thread :: thread in Fold(events, prices).stopped <==> HasStop(events, thread)
  {
    if events != [] {
      var n := |events| - 1;
      ClosedAreClosings(events[..n], prices);
      assert events == events[..n] + [events[n]];
      var s := Fold(events[..n], prices);
      var e := events[n];
      StepCloses(s, e, prices);
      forall key ensures key in Fold(events, prices).book.closed <==> HasClosing(events, key) {
        if HasClosing(events[..n], key) {
          assert HasClosing(events, key);
        }
      }
      forall thread ensures thread in Fold(events, prices).stopped <==> HasStop(events, thread) {
        if HasStop(events[..n], thread) {
          assert HasStop(events, thread);
        }
      }
    }
  }

  lemma StepCloses(s: State, e: Event, prices: Prices)
    ensures Step(s, e, prices).book.closed.Keys == s.book.closed.Keys + (if IsClosing(e.payload) then {KeyOf(e)} else {})
  {
  }

  // ---------------------------------------------------------------- the book's own order

  /** A turn's place is that of its latest record, and a warning is of a turn that closed. */
  ghost predicate Latest(b: Book) {
    && (forall i :: 0 <= i < |b.records| ==> b.records[i].key in b.closed && i <= b.closed[b.records[i].key])
    && (forall i :: 0 <= i < |b.mismatches| ==> b.mismatches[i] in b.closed)
    && UnpricedAreClosed(b)
  }

  lemma ClosingLatest(b: Book, e: Event, turn: Option<Turn>, prices: Prices)
    requires Placed(b) && Latest(b) && IsClosing(e.payload)
    ensures Latest(BookClosing(b, e, turn, prices))
  {
    hide Closed, PriceOf, RecapCost;
    assert Closed(e, turn, prices).key == KeyOf(e);
  }

  lemma StepLatest(b: Book, e: Event, turn: Option<Turn>, prices: Prices)
    requires Placed(b) && Latest(b)
    ensures Latest(BookStep(b, e, turn, prices))
  {
    if IsClosing(e.payload) {
      ClosingLatest(b, e, turn, prices);
    }
  }

  lemma {:induction false} FoldLatest(events: seq<Event>, prices: Prices)
    ensures Latest(Fold(events, prices).book)
  {
    if events != [] {
      var n := |events| - 1;
      var s := Fold(events[..n], prices);
      FoldLatest(events[..n], prices);
      FoldPlaced(events[..n], prices);
      StepLatest(s.book, events[n], OpenTurn(s.open, KeyOf(events[n])), prices);
    }
  }

  // ---------------------------------------------------------------- the two folds side by side

  ghost predicate Apart(s: State) {
    forall key :: key in s.book.closed ==> key.thread !in s.stopped
  }

  /** Two states that will add the same records, warnings and runs, past their cuts. */
  ghost predicate Alike(s: State, c: Cut, s': State, c': Cut, known: set<TurnKey>) {
    && Placed(s.book) && Placed(s'.book) && SameBooks(s.book, c, s'.book, c')
    && SameTail(s.stepRuns, c.stepRuns, s'.stepRuns, c'.stepRuns)
    && SameTail(s.runRecaps, c.recaps, s'.runRecaps, c'.recaps)
    && SameTail(s.runRecalls, c.recalls, s'.runRecalls, c'.recalls)
    && s.stopped == s'.stopped && s.sizes == s'.sizes && Apart(s)
    && (forall key :: key in known ==> OpenTurn(s.open, key) == OpenTurn(s'.open, key))
  }

  /** An event the two states fold alike: its turn is known when that matters, and closes for the first time. */
  ghost predicate Fair(s: State, known: set<TurnKey>, e: Event) {
    && (JoinedType(e.payload) && !e.payload.TurnStarted? ==> KeyOf(e) in known)
    && (IsClosing(e.payload) ==> KeyOf(e) !in s.book.closed)
  }

  lemma StepBooksAlike(s: State, c: Cut, s': State, c': Cut, known: set<TurnKey>, e: Event, prices: Prices)
    requires Alike(s, c, s', c', known) && Fair(s, known, e)
    ensures SameBooks(Step(s, e, prices).book, c, Step(s', e, prices).book, c')
  {
    var turn := OpenTurn(s.open, KeyOf(e));
    if IsClosing(e.payload) {
      ClosingSameBooks(s.book, c, s'.book, c', e, turn, prices);
    } else if e.payload.MemoryRecapped? || e.payload.TurnRated? {
      RewritesSameBooks(s.book, c, s'.book, c', e, prices);
    }
  }

  lemma StepRunsAlike(s: State, c: Cut, s': State, c': Cut, known: set<TurnKey>, e: Event, prices: Prices)
    requires Alike(s, c, s', c', known) && Fair(s, known, e)
    ensures SameTail(Step(s, e, prices).stepRuns, c.stepRuns, Step(s', e, prices).stepRuns, c'.stepRuns)
    ensures SameTail(Step(s, e, prices).runRecalls, c.recalls, Step(s', e, prices).runRecalls, c'.recalls)
  {
    var p := e.payload;
    if p.RunDelegated? {
      TailSnoc(s.stepRuns, c.stepRuns, s'.stepRuns, c'.stepRuns, StepRun(e.thread, ReportedRun(e.time, p.run)));
    } else if p.MemoryRecalled? {
      TailSnoc(s.runRecalls, c.recalls, s'.runRecalls, c'.recalls, RunRecall(e.thread, e.time, p.nodes));
    }
  }

  lemma StepRecapsAlike(s: State, c: Cut, s': State, c': Cut, known: set<TurnKey>, e: Event, prices: Prices)
    requires Alike(s, c, s', c', known)
    ensures SameTail(Step(s, e, prices).runRecaps, c.recaps, Step(s', e, prices).runRecaps, c'.recaps)
  {
    var p := e.payload;
    if p.MemoryRecapped? && e.thread in s.stopped {
      assert KeyOf(e) !in s.book.closed;
      TailSnoc(s.runRecaps, c.recaps, s'.runRecaps, c'.recaps,
               RunRecap(e.thread, e.time, p.tokens, RecapCost(p.tokens, p.recapModel, prices)));
    }
  }

  lemma StepOpenAlike(s: State, s': State, known: set<TurnKey>, e: Event, key: TurnKey)
    requires key in known ==> OpenTurn(s.open, key) == OpenTurn(s'.open, key)
    requires key in known || (e.payload.TurnStarted? && key == KeyOf(e))
    ensures OpenTurn(OpenStep(s.open, e), key) == OpenTurn(OpenStep(s'.open, e), key)
  {
  }

  lemma StepAlike(s: State, c: Cut, s': State, c': Cut, known: set<TurnKey>, e: Event, prices: Prices)
    requires Alike(s, c, s', c', known) && Fair(s, known, e) && Apart(Step(s, e, prices))
    ensures Alike(Step(s, e, prices), c, Step(s', e, prices), c', known + (if e.payload.TurnStarted? then {KeyOf(e)} else {}))
  {
    StepPlaced(s.book, e, OpenTurn(s.open, KeyOf(e)), prices);
    StepPlaced(s'.book, e, OpenTurn(s'.open, KeyOf(e)), prices);
    StepBooksAlike(s, c, s', c', known, e, prices);
    StepRunsAlike(s, c, s', c', known, e, prices);
    StepRecapsAlike(s, c, s', c', known, e, prices);
    StateStep(s, s', e, prices);
    forall key | key in known + (if e.payload.TurnStarted? then {KeyOf(e)} else {})
      ensures OpenTurn(Step(s, e, prices).open, key) == OpenTurn(Step(s', e, prices).open, key)
    {
      StepOpenAlike(s, s', known, e, key);
    }
  }

  // ---------------------------------------------------------------- what was added before the window

  ghost predicate PastRecord(r: Record, since: int) {
    r.closedAt < since && forall run :: run in r.delegated ==> run.time < since
  }

  ghost predicate PastTurn(t: Turn, since: int) {
    forall run :: run in t.delegated ==> run.time < since
  }

  /** Everything a state holds was recorded before a moment. */
  ghost predicate AllPast(s: State, since: int) {
    && (forall r :: r in s.book.records ==> PastRecord(r, since))
    && (forall key :: key in s.open ==> PastTurn(s.open[key], since))
    && (forall r :: r in s.stepRuns ==> r.reported.time < since)
    && (forall r :: r in s.runRecaps ==> r.time < since)
    && (forall r :: r in s.runRecalls ==> r.time < since)
  }

  lemma GatherPast(t: Turn, e: Event, since: int)
    requires PastTurn(t, since) && e.time < since
    ensures PastTurn(Gather(t, e), since)
  {
  }

  lemma OpenPast(open: map<TurnKey, Turn>, e: Event, since: int)
    requires (forall key :: key in open ==> PastTurn(open[key], since)) && e.time < since
    ensures forall key :: key in OpenStep(open, e) ==> PastTurn(OpenStep(open, e)[key], since)
  {
    forall key | key in OpenStep(open, e) ensures PastTurn(OpenStep(open, e)[key], since) {
      if key == KeyOf(e) && key in open {
        GatherPast(open[key], e, since);
      }
    }
  }

  lemma ClosedPast(e: Event, turn: Option<Turn>, prices: Prices, since: int)
    requires IsClosing(e.payload) && e.time < since && (turn.Some? ==> PastTurn(turn.value, since))
    ensures PastRecord(Closed(e, turn, prices), since)
  {
  }

  lemma RecordsPast(b: Book, e: Event, turn: Option<Turn>, prices: Prices, since: int)
    requires (forall r :: r in b.records ==> PastRecord(r, since))
    requires IsClosing(e.payload) ==> PastRecord(Closed(e, turn, prices), since)
    ensures forall r :: r in BookStep(b, e, turn, prices).records ==> PastRecord(r, since)
  {
    if !IsClosing(e.payload) && IsBooked(b, KeyOf(e)) {
      assert PastRecord(b.records[b.closed[KeyOf(e)]], since);
    }
  }

  lemma {:induction false} FoldPast(events: seq<Event>, prices: Prices, since: int)
    requires forall e :: e in events ==> e.time < since
    ensures AllPast(Fold(events, prices), since)
  {
    if events != [] {
      var n := |events| - 1;
      var s, e := Fold(events[..n], prices), events[n];
      FoldPast(events[..n], prices, since);
      OpenPast(s.open, e, since);
      if IsClosing(e.payload) {
        ClosedPast(e, OpenTurn(s.open, KeyOf(e)), prices, since);
      }
      RecordsPast(s.book, e, OpenTurn(s.open, KeyOf(e)), prices, since);
      FoldPastRuns(s, e, prices, since);
    }
  }

  lemma FoldPastRuns(s: State, e: Event, prices: Prices, since: int)
    requires AllPast(s, since) && e.time < since
    ensures forall r :: r in Step(s, e, prices).stepRuns ==> r.reported.time < since
    ensures forall r :: r in Step(s, e, prices).runRecaps ==> r.time < since
    ensures forall r :: r in Step(s, e, prices).runRecalls ==> r.time < since
  {
  }

  /** Up to the cut everything was recorded before the window, of turns that closed before it, and past the
      cut every record is of a turn that had not closed before. */
  ghost predicate SettledBook(b: Book, c: Cut, since: int, before: set<TurnKey>) {
    && c.records <= |b.records| && c.mismatches <= |b.mismatches|
    && (forall i :: 0 <= i < c.records ==> PastRecord(b.records[i], since))
    && (forall i :: c.records <= i < |b.records| ==> b.records[i].key !in before)
    && (forall i :: 0 <= i < c.mismatches ==> b.mismatches[i] in before)
  }

  ghost predicate SettledRuns(s: State, c: Cut, since: int) {
    && c.stepRuns <= |s.stepRuns| && c.recaps <= |s.runRecaps| && c.recalls <= |s.runRecalls|
    && (forall i :: 0 <= i < c.stepRuns ==> s.stepRuns[i].reported.time < since)
    && (forall i :: 0 <= i < c.recaps ==> s.runRecaps[i].time < since)
    && (forall i :: 0 <= i < c.recalls ==> s.runRecalls[i].time < since)
  }

  lemma StepSettledBook(b: Book, c: Cut, since: int, before: set<TurnKey>, e: Event, turn: Option<Turn>, prices: Prices)
    requires SettledBook(b, c, since, before) && Placed(b)
    requires IsClosing(e.payload) ==> KeyOf(e) !in before
    ensures SettledBook(BookStep(b, e, turn, prices), c, since, before)
  {
    hide RecapCost, TokenCost, AddUnpriced, Closed;
    if !IsClosing(e.payload) && IsBooked(b, KeyOf(e)) {
      assert b.records[b.closed[KeyOf(e)]].key == KeyOf(e);
    }
  }

  lemma StepSettledRuns(s: State, c: Cut, since: int, e: Event, prices: Prices)
    requires SettledRuns(s, c, since)
    ensures SettledRuns(Step(s, e, prices), c, since)
  {
  }
}
