/** The daily cost read from part of the log is the one read from the whole of it. */
module BudgetTheorem {
  import opened Events
  import opened Pricing
  import opened Metrics
  import opened MetricsWindow
  import opened WindowProof
  import opened WindowSimulation
  import opened WindowTheorem
  import opened WindowReport
  import opened Budgets

  ghost predicate WellFormedTurns(log: seq<Event>) {
    Monotone(log) && ClosesOnce(log) && StartsOnce(log) && OneThreadEach(log)
  }

  /** The turns that close among the events. */
  function Closers(events: seq<Event>): set<TurnKey> {
    set e | e in events && IsClosing(e.payload) :: KeyOf(e)
  }

  // ---------------------------------------------------------------- one event

  lemma StepBookCosts(s: State, m: nat, s': State, known: set<TurnKey>, e: Event, prices: Prices)
    requires CostsAlike(s, m, s', known) && DailyType(e.payload)
    requires IsClosing(e.payload) ==> KeyOf(e) in known && KeyOf(e) !in s.book.closed
    ensures CostBooks(Step(s, e, prices).book, m, Step(s', e, prices).book)
  {
    hide CostBooks, BookClosing, BookRecap;
    if IsClosing(e.payload) {
      ClosingCostsAlike(s.book, m, s'.book, e, OpenTurn(s.open, KeyOf(e)), OpenTurn(s'.open, KeyOf(e)), prices);
    } else if e.payload.MemoryRecapped? {
      RecapCostsAlike(s.book, m, s'.book, e, prices);
    }
  }

  /** An event of a daily type keeps the two folds' costs alike. */
  lemma DailyStepAlike(s: State, m: nat, s': State, known: set<TurnKey>, e: Event, prices: Prices)
    requires CostsAlike(s, m, s', known) && DailyType(e.payload)
    requires IsClosing(e.payload) ==> KeyOf(e) in known && KeyOf(e) !in s.book.closed
    ensures CostsAlike(Step(s, e, prices), m, Step(s', e, prices), known)
  {
    StepPlaced(s.book, e, OpenTurn(s.open, KeyOf(e)), prices);
    StepPlaced(s'.book, e, OpenTurn(s'.open, KeyOf(e)), prices);
    StepBookCosts(s, m, s', known, e, prices);
    forall key | key in known
      ensures ModelOf(OpenTurn(Step(s, e, prices).open, key)) == ModelOf(OpenTurn(Step(s', e, prices).open, key))
    {
      OpenStepModel(s.open, s'.open, e, key);
    }
  }

  /** An event of any other type costs nothing, so the fold that skips it stays alike. */
  lemma OtherStepAlike(s: State, m: nat, s': State, known: set<TurnKey>, e: Event, prices: Prices)
    requires CostsAlike(s, m, s', known) && !DailyType(e.payload)
    ensures CostsAlike(Step(s, e, prices), m, s', known)
  {
    StepPlaced(s.book, e, OpenTurn(s.open, KeyOf(e)), prices);
    if e.payload.TurnRated? {
      RatingCostsAlike(s.book, m, s'.book, e, prices);
    }
    forall key | key in known ensures ModelOf(OpenTurn(Step(s, e, prices).open, key)) == ModelOf(OpenTurn(s'.open, key)) {
      OpenStepModel(s.open, s'.open, e, key);
    }
  }

  // ---------------------------------------------------------------- the rest of the day

  function DailyOnly(): Event -> bool {
    (e: Event) => DailyType(e.payload)
  }

  /** Folding on with the daily events among the first `i`. */
  function DailyFold(s0: State, post: seq<Event>, i: nat, prices: Prices): State
    requires i <= |post|
  {
    FoldFrom(s0, Filter(post[..i], DailyOnly()), prices)
  }

  lemma DailyFoldNext(s0: State, post: seq<Event>, i: nat, prices: Prices)
    requires i < |post|
    ensures DailyFold(s0, post, i + 1, prices)
         == if DailyType(post[i].payload) then Step(DailyFold(s0, post, i, prices), post[i], prices) else DailyFold(s0, post, i, prices)
  {
    hide Step, DailyType;
    var kept := Filter(post[..i], DailyOnly());
    assert post[..i + 1] == post[..i] + [post[i]];
    FilterSnoc(post[..i], post[i], DailyOnly());
    assert (kept + [post[i]])[..|kept|] == kept;
  }

  /** The next event keeps the costs alike, whether or not the bounded read has it. */
  lemma NextCostsAlike(pre: seq<Event>, post: seq<Event>, i: nat, m: nat, s0: State, prices: Prices)
    requires i < |post| && ClosesOnce(pre + post)
    requires CostsAlike(Fold(pre + post[..i], prices), m, DailyFold(s0, post, i, prices), Closers(post))
    ensures CostsAlike(Fold(pre + post[..i + 1], prices), m, DailyFold(s0, post, i + 1, prices), Closers(post))
  {
    hide CostsAlike, Step, Fold, FoldFrom, Filter, DailyFold, ClosesOnce, Closers;
    FoldNext(pre, post, i, prices);
    DailyFoldNext(s0, post, i, prices);
    var e, s, s' := post[i], Fold(pre + post[..i], prices), DailyFold(s0, post, i, prices);
    if DailyType(e.payload) {
      if IsClosing(e.payload) {
        ClosesFirst(pre, post, i, prices);
      }
      DailyStepAlike(s, m, s', Closers(post), e, prices);
    } else {
      OtherStepAlike(s, m, s', Closers(post), e, prices);
    }
  }

  lemma {:induction false} RunCostsAlike(pre: seq<Event>, post: seq<Event>, i: nat, m: nat, s0: State, prices: Prices)
    requires i <= |post| && ClosesOnce(pre + post) && CostsAlike(Fold(pre, prices), m, s0, Closers(post))
    ensures CostsAlike(Fold(pre + post[..i], prices), m, DailyFold(s0, post, i, prices), Closers(post))
  {
    hide CostsAlike, Step, Fold, ClosesOnce, Closers;
    if i == 0 {
      assert pre + post[..0] == pre;
    } else {
      RunCostsAlike(pre, post, i - 1, m, s0, prices);
      NextCostsAlike(pre, post, i - 1, m, s0, prices);
    }
  }

  lemma ClosesFirst(pre: seq<Event>, post: seq<Event>, i: nat, prices: Prices)
    requires i < |post| && ClosesOnce(pre + post) && IsClosing(post[i].payload)
    ensures KeyOf(post[i]) !in Fold(pre + post[..i], prices).book.closed && KeyOf(post[i]) in Closers(post)
  {
    assert (pre + post)[..|pre| + i] == pre + post[..i];
    FirstClosing(pre + post, |pre| + i, prices);
  }

  // ---------------------------------------------------------------- where the day begins

  /** Among events that do not close a turn, and start it with one model only, it is open with that model
      just when they start it. */
  lemma {:induction false} OpenModel(events: seq<Event>, key: TurnKey, model: string, prices: Prices)
    requires forall e :: e in events && KeyOf(e) == key ==> !IsClosing(e.payload)
    requires forall e :: e in events && KeyOf(e) == key && e.payload.TurnStarted? ==> e.payload.model == model
    ensures ModelOf(OpenTurn(Fold(events, prices).open, key)) == if Starts(events, key) then Some(model) else None
  {
    if events != [] {
      var n := |events| - 1;
      var e := events[n];
      assert events == events[..n] + [e];
      OpenModel(events[..n], key, model, prices);
      assert Starts(events, key) <==> Starts(events[..n], key) || (KeyOf(e) == key && e.payload.TurnStarted?) by {
        if Starts(events[..n], key) {
          var x :| x in events[..n] && x.payload.TurnStarted? && KeyOf(x) == key;
          assert x in events;
        }
      }
      OpenStepOf(Fold(events[..n], prices).open, e, key);
    }
  }

  lemma OpenStepOf(open: map<TurnKey, Turn>, e: Event, key: TurnKey)
    requires KeyOf(e) == key ==> !IsClosing(e.payload)
    ensures ModelOf(OpenTurn(OpenStep(open, e), key))
         == if KeyOf(e) == key && e.payload.TurnStarted? then Some(e.payload.model) else ModelOf(OpenTurn(open, key))
  {
  }

  ghost predicate Starts(events: seq<Event>, key: TurnKey) {
    exists e :: e in events && e.payload.TurnStarted? && KeyOf(e) == key
  }

  lemma {:induction false} EarlierMembers(log: seq<Event>, events: seq<Event>, started: set<Id>, e: Event)
    ensures e in EarlierStarts(log, events, started)
       <==> e in log && e.payload.TurnStarted? && e.turn !in started
            && exists c :: c in events && IsClosing(c.payload) && c.turn == e.turn
  {
    if events != [] {
      var n := |events| - 1;
      var last := events[n];
      assert events == events[..n] + [last];
      EarlierMembers(log, events[..n], started, e);
      FilterMembers(log, InTurn(last.turn));
      FilterMembers(TurnEvents(log, last.turn), IsStart());
    }
  }

  lemma UniqueStart(log: seq<Event>, a: Event, b: Event)
    requires StartsOnce(log) && a in log && b in log && a.payload.TurnStarted? && b.payload.TurnStarted? && KeyOf(a) == KeyOf(b)
    ensures a == b
  {
    var i :| 0 <= i < |log| && log[i] == a;
    var j :| 0 <= j < |log| && log[j] == b;
  }

  function StartOfDay(day: int): int {
    day * DAY
  }

  function DayEvents(log: seq<Event>, day: int): seq<Event> {
    EventsOf(log, IS_DAILY, Some(StartOfDay(day)), None)
  }

  function DayStarts(log: seq<Event>, day: int): seq<Event> {
    EarlierStarts(log, DayEvents(log, day), StartedTurns(DayEvents(log, day)))
  }

  lemma DayMembers(log: seq<Event>, day: int, e: Event)
    ensures e in DayEvents(log, day) <==> e in log && e.time >= StartOfDay(day) && DailyType(e.payload)
    ensures e in DayStarts(log, day) <==> e in log && e.payload.TurnStarted? && e.turn !in StartedTurns(DayEvents(log, day))
                                          && exists c :: c in DayEvents(log, day) && IsClosing(c.payload) && c.turn == e.turn
  {
    FilterMembers(log, Reads(IS_DAILY, Some(StartOfDay(day)), None));
    EarlierMembers(log, DayEvents(log, day), StartedTurns(DayEvents(log, day)), e);
  }

  /** A turn that closes from the day's beginning on was started before it just when the day's read finds
      that start. */
  lemma SameStarts(log: seq<Event>, day: int, c: Event)
    requires WellFormedTurns(log) && c in log && c.time >= StartOfDay(day) && IsClosing(c.payload)
    ensures Starts(Filter(log, Before(StartOfDay(day))), KeyOf(c)) <==> Starts(DayStarts(log, day), KeyOf(c))
  {
    var pre := Filter(log, Before(StartOfDay(day)));
    FilterMembers(log, Before(StartOfDay(day)));
    DayMembers(log, day, c);
    if Starts(pre, KeyOf(c)) {
      var e :| e in pre && e.payload.TurnStarted? && KeyOf(e) == KeyOf(c);
      forall x | x in DayEvents(log, day) && x.payload.TurnStarted? ensures x.turn != e.turn {
        DayMembers(log, day, x);
        StartedApart(log, e, x);
      }
      DayMembers(log, day, e);
      assert e in DayStarts(log, day);
    }
    if Starts(DayStarts(log, day), KeyOf(c)) {
      var e :| e in DayStarts(log, day) && e.payload.TurnStarted? && KeyOf(e) == KeyOf(c);
      DayMembers(log, day, e);
      assert e in pre;
    }
  }

  lemma SameThread(log: seq<Event>, a: Event, b: Event)
    requires OneThreadEach(log) && a in log && b in log && a.turn == b.turn
    ensures KeyOf(a) == KeyOf(b)
  {
    var i :| 0 <= i < |log| && log[i] == a;
    var j :| 0 <= j < |log| && log[j] == b;
  }

  /** Starts at different times are of different turns. */
  lemma StartedApart(log: seq<Event>, a: Event, b: Event)
    requires StartsOnce(log) && OneThreadEach(log) && a in log && b in log
    requires a.payload.TurnStarted? && b.payload.TurnStarted? && a.time < b.time
    ensures a.turn != b.turn
  {
    if a.turn == b.turn {
      SameThread(log, a, b);
      UniqueStart(log, a, b);
      assert false;
    }
  }

  lemma NoEarlierClosing(log: seq<Event>, c: Event, e: Event)
    requires ClosesOnce(log) && c in log && e in log && IsClosing(c.payload) && IsClosing(e.payload) && e.time < c.time
    ensures KeyOf(e) != KeyOf(c)
  {
    var i :| 0 <= i < |log| && log[i] == e;
    var j :| 0 <= j < |log| && log[j] == c;
    assert i != j;
  }

  lemma ModelsAtDayStart(log: seq<Event>, day: int, c: Event, prices: Prices)
    requires WellFormedTurns(log) && c in log && c.time >= StartOfDay(day) && IsClosing(c.payload)
    ensures ModelOf(OpenTurn(Fold(Filter(log, Before(StartOfDay(day))), prices).open, KeyOf(c)))
         == ModelOf(OpenTurn(Fold(DayStarts(log, day), prices).open, KeyOf(c)))
  {
    var pre, starts := Filter(log, Before(StartOfDay(day))), DayStarts(log, day);
    FilterMembers(log, Before(StartOfDay(day)));
    SameStarts(log, day, c);
    var model := "";
    if Starts(pre, KeyOf(c)) {
      var e :| e in pre && e.payload.TurnStarted? && KeyOf(e) == KeyOf(c);
      model := e.payload.model;
      forall x | x in log && x.payload.TurnStarted? && KeyOf(x) == KeyOf(c) ensures x.payload.model == model {
        UniqueStart(log, e, x);
      }
    }
    forall x | x in pre && KeyOf(x) == KeyOf(c) ensures !IsClosing(x.payload) {
      if IsClosing(x.payload) {
        NoEarlierClosing(log, c, x);
        assert false;
      }
    }
    forall x | x in starts ensures x in log && x.payload.TurnStarted? {
      DayMembers(log, day, x);
    }
    OpenModel(pre, KeyOf(c), model, prices);
    OpenModel(starts, KeyOf(c), model, prices);
  }

  lemma {:induction false} StartsBookNothing(events: seq<Event>, prices: Prices)
    requires forall e :: e in events ==> e.payload.TurnStarted?
    ensures Fold(events, prices).book == EMPTY.book
  {
    if events != [] {
      var n := |events| - 1;
      assert events == events[..n] + [events[n]];
      StartsBookNothing(events[..n], prices);
    }
  }

  lemma DayBegins(log: seq<Event>, day: int, prices: Prices)
    requires WellFormedTurns(log)
    ensures var s := Fold(Filter(log, Before(StartOfDay(day))), prices);
            CostsAlike(s, |s.book.records|, Fold(DayStarts(log, day), prices), Closers(Post(log, StartOfDay(day))))
  {
    var pre, starts := Filter(log, Before(StartOfDay(day))), DayStarts(log, day);
    var s, s' := Fold(pre, prices), Fold(starts, prices);
    forall x | x in starts ensures x.payload.TurnStarted? {
      DayMembers(log, day, x);
    }
    StartsBookNothing(starts, prices);
    FoldPlaced(pre, prices);
    FoldLatest(pre, prices);
    FilterMembers(log, From(StartOfDay(day)));
    forall key | key in Closers(Post(log, StartOfDay(day)))
      ensures ModelOf(OpenTurn(s.open, key)) == ModelOf(OpenTurn(s'.open, key))
    {
      var c :| c in Post(log, StartOfDay(day)) && IsClosing(c.payload) && KeyOf(c) == key;
      ModelsAtDayStart(log, day, c, prices);
    }
    forall key ensures SameClosing(s.book, |s.book.records|, s'.book, 0, key) {
    }
  }

  // ---------------------------------------------------------------- the day's cost

  /** Records that cost the same, item by item. */
  ghost predicate CostsMatch(a: seq<Record>, b: seq<Record>) {
    |a| == |b| && forall i :: 0 <= i < |a| ==> SameCost(a[i], b[i])
  }

  lemma {:induction false} MatchFiltered(a: seq<Record>, b: seq<Record>, day: int)
    requires CostsMatch(a, b)
    ensures CostsMatch(Filter(a, ClosedOnDay(day)), Filter(b, ClosedOnDay(day)))
  {
    if a != [] {
      var n := |a| - 1;
      MatchFiltered(a[..n], b[..n], day);
      assert SameCost(a[n], b[n]);
    }
  }

  lemma {:induction false} MatchTotals(a: seq<Record>, b: seq<Record>, u: map<TurnKey, set<string>>, u': map<TurnKey, set<string>>)
    requires CostsMatch(a, b)
    requires forall r :: r in a ==> UnpricedOf(u, r.key) == UnpricedOf(u', r.key)
    ensures TotalCost(a) == TotalCost(b) && UnpricedModels(a, u) == UnpricedModels(b, u')
  {
    if a != [] {
      var n := |a| - 1;
      assert SameCost(a[n], b[n]) && a[n] in a;
      MatchTotals(a[..n], b[..n], u, u');
    }
  }

  lemma SizedCosts(s: State, m: nat, s': State, known: set<TurnKey>)
    requires CostsAlike(s, m, s', known)
    ensures m <= |SizedRecords(s)| && CostsMatch(SizedRecords(s)[m..], SizedRecords(s'))
  {
    SizesKeep(s.book.records, s.book.profiled, s.sizes);
    SizesKeep(s'.book.records, s'.book.profiled, s'.sizes);
    forall i | 0 <= i < |SizedRecords(s')| ensures SameCost(SizedRecords(s)[m..][i], SizedRecords(s')[i]) {
      assert SameCost(s.book.records[m + i], s'.book.records[i]);
    }
  }

  /** Up to the cut every record is of a turn that closed before the day. */
  ghost predicate EarlierRecords(b: Book, m: nat, time: int) {
    SettledBook(b, Cut(m, 0, 0, 0, 0, 0), time, {})
  }

  lemma PreEarlier(pre: seq<Event>, time: int, prices: Prices)
    requires forall e :: e in pre ==> e.time < time
    ensures EarlierRecords(Fold(pre, prices).book, |Fold(pre, prices).book.records|, time)
  {
    FoldPast(pre, prices, time);
  }

  lemma {:induction false} RunEarlier(pre: seq<Event>, post: seq<Event>, i: nat, time: int, prices: Prices)
    requires i <= |post| && forall e :: e in pre ==> e.time < time
    ensures EarlierRecords(Fold(pre + post[..i], prices).book, |Fold(pre, prices).book.records|, time)
  {
    hide SettledBook, Placed, BookStep;
    if i == 0 {
      assert pre + post[..0] == pre;
      PreEarlier(pre, time, prices);
    } else {
      var m := |Fold(pre, prices).book.records|;
      RunEarlier(pre, post, i - 1, time, prices);
      FoldNext(pre, post, i - 1, prices);
      FoldPlaced(pre + post[..i - 1], prices);
      var s, e := Fold(pre + post[..i - 1], prices), post[i - 1];
      StepSettledBook(s.book, Cut(m, 0, 0, 0, 0, 0), time, {}, e, OpenTurn(s.open, KeyOf(e)), prices);
    }
  }

  lemma EarlierDay(time: int, day: int)
    requires time < StartOfDay(day)
    ensures DayOf(time) != day
  {
  }

  /** The day's records are those past the cut. */
  lemma DayPastCut(s: State, m: nat, day: int)
    requires EarlierRecords(s.book, m, StartOfDay(day))
    ensures |SizedRecords(s)| == |s.book.records|
    ensures Filter(SizedRecords(s), ClosedOnDay(day)) == Filter(SizedRecords(s)[m..], ClosedOnDay(day))
  {
    SizesKeep(s.book.records, s.book.profiled, s.sizes);
    forall i | 0 <= i < m ensures !ClosedOnDay(day)(SizedRecords(s)[i]) {
      assert SameButSize(s.book.records[i], SizedRecords(s)[i]);
      EarlierDay(s.book.records[i].closedAt, day);
    }
    FilterTail(SizedRecords(s), m, ClosedOnDay(day));
  }

  /** A record past the cut is of a turn with the same unpriced models in both folds. */
  lemma TailUnpriced(s: State, m: nat, s': State, known: set<TurnKey>, r: Record)
    requires CostsAlike(s, m, s', known) && Latest(s.book)
    requires m <= |SizedRecords(s)| && r in SizedRecords(s)[m..]
    ensures UnpricedOf(s.book.unpriced, r.key) == UnpricedOf(s'.book.unpriced, r.key)
  {
    SizesKeep(s.book.records, s.book.profiled, s.sizes);
    var i :| 0 <= i < |SizedRecords(s)| - m && SizedRecords(s)[m..][i] == r;
    assert SameButSize(s.book.records[m + i], SizedRecords(s)[m + i]);
    assert SameClosing(s.book, m, s'.book, 0, r.key);
  }

  lemma SameDayCost(s: State, m: nat, s': State, known: set<TurnKey>, day: int)
    requires CostsAlike(s, m, s', known) && Latest(s.book) && EarlierRecords(s.book, m, StartOfDay(day))
    ensures var a, b := Filter(SizedRecords(s), ClosedOnDay(day)), Filter(SizedRecords(s'), ClosedOnDay(day));
            TotalCost(a) == TotalCost(b) && UnpricedModels(a, s.book.unpriced) == UnpricedModels(b, s'.book.unpriced)
  {
    DayPastCut(s, m, day);
    SizedCosts(s, m, s', known);
    MatchFiltered(SizedRecords(s)[m..], SizedRecords(s'), day);
    var a, b := Filter(SizedRecords(s)[m..], ClosedOnDay(day)), Filter(SizedRecords(s'), ClosedOnDay(day));
    FilterMembers(SizedRecords(s)[m..], ClosedOnDay(day));
    forall r | r in a ensures UnpricedOf(s.book.unpriced, r.key) == UnpricedOf(s'.book.unpriced, r.key) {
      TailUnpriced(s, m, s', known, r);
    }
    MatchTotals(a, b, s.book.unpriced, s'.book.unpriced);
  }

  lemma DayEventsAreDaily(log: seq<Event>, day: int)
    ensures ClosedOn(log, day) == DayStarts(log, day) + Filter(Post(log, StartOfDay(day)), DailyOnly())
  {
    FilterTwice(log, From(StartOfDay(day)), DailyOnly(), Reads(IS_DAILY, Some(StartOfDay(day)), None));
  }

  lemma DayStates(log: seq<Event>, day: int, prices: Prices) returns (s: State, m: nat, s': State, known: set<TurnKey>)
    requires WellFormedTurns(log)
    ensures s == Fold(log, prices) && s' == Fold(ClosedOn(log, day), prices)
    ensures CostsAlike(s, m, s', known) && Latest(s.book) && EarlierRecords(s.book, m, StartOfDay(day))
  {
    hide CostsAlike, Latest, EarlierRecords;
    var time := StartOfDay(day);
    var pre, post, starts := Filter(log, Before(time)), Post(log, time), DayStarts(log, day);
    SplitAt(log, time);
    DayBegins(log, day, prices);
    m, known := |Fold(pre, prices).book.records|, Closers(post);
    s, s' := Fold(log, prices), DailyFold(Fold(starts, prices), post, |post|, prices);
    RunCostsAlike(pre, post, |post|, m, Fold(starts, prices), prices);
    assert post[..|post|] == post;
    DayEventsAreDaily(log, day);
    FoldSplits(starts, Filter(post, DailyOnly()), prices);
    FilterMembers(log, Before(time));
    RunEarlier(pre, post, |post|, time, prices);
    FoldLatest(log, prices);
  }

  /** The daily budget's bounded read costs a day as the whole log does: neither the event types it drops
      nor the earlier events it leaves out can matter. */
  lemma {:induction false} ClosedOnCosts(log: seq<Event>, day: int, prices: Prices)
    requires WellFormedTurns(log)
    ensures CostOn(ClosedOn(log, day), prices, day) == CostOn(log, prices, day)
  {
    hide CostsAlike, Latest, EarlierRecords;
    var s, m, s', known := DayStates(log, day, prices);
    SameDayCost(s, m, s', known, day);
  }
}
