/** The window theorem: a range's report folded from the window is the one folded from the whole log. */
module WindowReport {
  import opened Events
  import opened Pricing
  import opened Metrics
  import opened MetricsWindow
  import opened WindowProof
  import opened WindowSimulation
  import opened WindowTheorem

  // ---------------------------------------------------------------- running side by side

  ghost predicate WellFormed(log: seq<Event>) {
    Monotone(log) && ClosesOnce(log) && RunsApart(log)
  }

  ghost predicate InStep(s: State, c: Cut, s': State, c': Cut, known: set<TurnKey>, since: int, before: set<TurnKey>) {
    && Alike(s, c, s', c', known)
    && Latest(s.book)
    && before <= s.book.closed.Keys
    && SettledBook(s.book, c, since, before) && SettledBook(s'.book, c', since, before)
    && SettledRuns(s, c, since) && SettledRuns(s', c', since)
  }

  lemma StepInStep(s: State, c: Cut, s': State, c': Cut, known: set<TurnKey>, since: int, before: set<TurnKey>, e: Event, prices: Prices)
    requires InStep(s, c, s', c', known, since, before) && Fair(s, known, e) && Apart(Step(s, e, prices))
    ensures InStep(Step(s, e, prices), c, Step(s', e, prices), c', known + (if e.payload.TurnStarted? then {KeyOf(e)} else {}), since, before)
  {
    var turn, turn' := OpenTurn(s.open, KeyOf(e)), OpenTurn(s'.open, KeyOf(e));
    StepAlike(s, c, s', c', known, e, prices);
    StepLatest(s.book, e, turn, prices);
    StepCloses(s, e, prices);
    StepSettledBook(s.book, c, since, before, e, turn, prices);
    StepSettledBook(s'.book, c', since, before, e, turn', prices);
    StepSettledRuns(s, c, since, e, prices);
    StepSettledRuns(s', c', since, e, prices);
  }

  lemma FoldApart(events: seq<Event>, prices: Prices)
    requires RunsApart(events)
    ensures Apart(Fold(events, prices))
  {
    ClosedAreClosings(events, prices);
  }

  function EarlierSet(events: seq<Event>): set<TurnKey> {
    set key | key in EarlierTurns(events)
  }

  /** When a turn closes, no earlier event closed it. */
  lemma FirstClosing(log: seq<Event>, n: nat, prices: Prices)
    requires n < |log| && ClosesOnce(log) && IsClosing(log[n].payload)
    ensures KeyOf(log[n]) !in Fold(log[..n], prices).book.closed
  {
    ClosedAreClosings(log[..n], prices);
    forall e | e in log[..n] && IsClosing(e.payload) ensures KeyOf(e) != KeyOf(log[n]) {
      var j :| 0 <= j < n && log[..n][j] == e;
      assert log[j] == e;
    }
  }

  /** The next event is fair: a joined event's turn is known, and a turn closes for the first time. */
  lemma NextIsFair(pre: seq<Event>, post: seq<Event>, i: nat, prices: Prices)
    requires i < |post| && ClosesOnce(pre + post)
    ensures Fair(Fold(pre + post[..i], prices), KnownAfter(post, i), post[i])
  {
    hide Fold, ClosesOnce, EarlierTurns, StartedIn;
    var e := post[i];
    if JoinedType(e.payload) && !e.payload.TurnStarted? {
      JoinedIsKnown(post, i);
    }
    if IsClosing(e.payload) {
      assert (pre + post)[..|pre| + i] == pre + post[..i];
      FirstClosing(pre + post, |pre| + i, prices);
    }
  }

  lemma PrefixApart(pre: seq<Event>, post: seq<Event>, i: nat, prices: Prices)
    requires i <= |post| && RunsApart(pre + post)
    ensures Apart(Fold(pre + post[..i], prices))
  {
    var so := pre + post[..i];
    assert forall j :: 0 <= j < |so| ==> so[j] == (pre + post)[j];
    FoldApart(so, prices);
  }

  lemma StartedSnoc(events: seq<Event>, e: Event)
    ensures StartedIn(events + [e]) == StartedIn(events) + (if e.payload.TurnStarted? then {KeyOf(e)} else {})
  {
  }

  function KnownAfter(post: seq<Event>, i: nat): set<TurnKey>
    requires i <= |post|
  {
    EarlierSet(post) + StartedIn(post[..i])
  }

  lemma KnownGrows(post: seq<Event>, i: nat)
    requires i < |post|
    ensures KnownAfter(post, i + 1) == KnownAfter(post, i) + (if post[i].payload.TurnStarted? then {KeyOf(post[i])} else {})
  {
    assert post[..i + 1] == post[..i] + [post[i]];
    StartedSnoc(post[..i], post[i]);
  }

  lemma FoldNext(pre: seq<Event>, post: seq<Event>, i: nat, prices: Prices)
    requires i < |post|
    ensures Fold(pre + post[..i + 1], prices) == Step(Fold(pre + post[..i], prices), post[i], prices)
  {
    var longer := pre + post[..i + 1];
    assert longer[..|longer| - 1] == pre + post[..i];
  }

  lemma NextInStep(pre: seq<Event>, prelude: seq<Event>, post: seq<Event>, i: nat, s: State, c: Cut, s': State, c': Cut,
                   since: int, before: set<TurnKey>, prices: Prices) returns (next: State, next': State)
    requires i < |post| && ClosesOnce(pre + post) && RunsApart(pre + post)
    requires s == Fold(pre + post[..i], prices) && s' == Fold(prelude + post[..i], prices)
    requires InStep(s, c, s', c', KnownAfter(post, i), since, before)
    ensures next == Fold(pre + post[..i + 1], prices) && next' == Fold(prelude + post[..i + 1], prices)
    ensures InStep(next, c, next', c', KnownAfter(post, i + 1), since, before)
  {
    next, next' := Step(s, post[i], prices), Step(s', post[i], prices);
    FoldNext(pre, post, i, prices);
    FoldNext(prelude, post, i, prices);
    NextIsFair(pre, post, i, prices);
    PrefixApart(pre, post, i + 1, prices);
    KnownGrows(post, i);
    StepInStep(s, c, s', c', KnownAfter(post, i), since, before, post[i], prices);
  }

  lemma NothingYet(pre: seq<Event>, prelude: seq<Event>, post: seq<Event>, prices: Prices)
    ensures KnownAfter(post, 0) == EarlierSet(post)
    ensures Fold(pre + post[..0], prices) == Fold(pre, prices) && Fold(prelude + post[..0], prices) == Fold(prelude, prices)
  {
    assert pre + post[..0] == pre && prelude + post[..0] == prelude;
  }

  /** The states the two folds reach with the first `i` events of the window. */
  lemma {:induction false} RunInStep(pre: seq<Event>, prelude: seq<Event>, post: seq<Event>, i: nat, s0: State, c: Cut, s0': State, c': Cut,
                                     since: int, before: set<TurnKey>, prices: Prices) returns (s: State, s': State)
    requires i <= |post| && ClosesOnce(pre + post) && RunsApart(pre + post)
    requires s0 == Fold(pre, prices) && s0' == Fold(prelude, prices)
    requires InStep(s0, c, s0', c', EarlierSet(post), since, before)
    ensures s == Fold(pre + post[..i], prices) && s' == Fold(prelude + post[..i], prices)
    ensures InStep(s, c, s', c', KnownAfter(post, i), since, before)
  {
    hide InStep, KnownAfter;
    if i == 0 {
      NothingYet(pre, prelude, post, prices);
      s, s' := s0, s0';
    } else {
      s, s' := RunInStep(pre, prelude, post, i - 1, s0, c, s0', c', since, before, prices);
      s, s' := NextInStep(pre, prelude, post, i - 1, s, c, s', c', since, before, prices);
    }
  }

  // ---------------------------------------------------------------- where the window begins

  lemma AtTheCut(s: State, s': State, known: set<TurnKey>, since: int)
    requires Placed(s.book) && Placed(s'.book) && Latest(s.book) && Latest(s'.book)
    requires s'.book.closed.Keys <= s.book.closed.Keys
    requires s.stopped == s'.stopped && s.sizes == s'.sizes && Apart(s)
    requires forall key :: key in known ==> OpenTurn(s.open, key) == OpenTurn(s'.open, key)
    requires AllPast(s, since) && AllPast(s', since)
    ensures InStep(s, CutOf(s), s', CutOf(s'), known, since, s.book.closed.Keys)
  {
    hide PastRecord, PastTurn;
    var c, c' := CutOf(s), CutOf(s');
    forall key ensures SameClosing(s.book, c.records, s'.book, c'.records, key) {
    }
  }

  /** What the window holds from before its start. */
  function Prelude(log: seq<Event>, since: int): seq<Event> {
    EventsOf(log, IS_STATE, None, Some(since))
    + Replays(log, EarlierTurns(EventsOf(log, IS_JOINED, Some(since), None)), since)
  }

  function Post(log: seq<Event>, since: int): seq<Event> {
    Filter(log, From(since))
  }

  lemma EarlierOf(log: seq<Event>, since: int)
    ensures EarlierTurns(EventsOf(log, IS_JOINED, Some(since), None)) == EarlierTurns(Post(log, since))
  {
    FilterTwice(log, From(since), JoinedOnly(), Reads(IS_JOINED, Some(since), None));
    EarlierSkips(Post(log, since));
  }

  lemma PreludeIsPast(log: seq<Event>, since: int)
    ensures forall e :: e in Prelude(log, since) ==> e in log && e.time < since
  {
    forall e | e in Prelude(log, since) ensures e in log && e.time < since {
      if e in EventsOf(log, IS_STATE, None, Some(since)) {
        FilterMembers(log, Reads(IS_STATE, None, Some(since)));
      } else {
        ReplaysMembers(log, EarlierTurns(EventsOf(log, IS_JOINED, Some(since), None)), since, e);
      }
    }
  }

  lemma ReplaysHoldNoState(log: seq<Event>, keys: seq<TurnKey>, since: int)
    ensures Filter(Replays(log, keys, since), StateOnly()) == []
  {
    forall e | e in Replays(log, keys, since) ensures !StateOnly()(e) {
      ReplaysMembers(log, keys, since, e);
    }
    hide Replays;
    FilterNone(Replays(log, keys, since), StateOnly());
  }

  lemma StateReadIsState(log: seq<Event>, since: int)
    ensures Filter(EventsOf(log, IS_STATE, None, Some(since)), StateOnly()) == Filter(Filter(log, Before(since)), StateOnly())
  {
    FilterMembers(log, Reads(IS_STATE, None, Some(since)));
    hide Filter;
    FilterAll(EventsOf(log, IS_STATE, None, Some(since)), StateOnly());
    FilterTwice(log, Before(since), StateOnly(), Reads(IS_STATE, None, Some(since)));
  }

  lemma PreludeState(log: seq<Event>, since: int)
    ensures Filter(Prelude(log, since), StateOnly()) == Filter(Filter(log, Before(since)), StateOnly())
  {
    hide Filter, EventsOf, Replays, EarlierTurns, StateOnly;
    var state := EventsOf(log, IS_STATE, None, Some(since));
    var earlier := EarlierTurns(EventsOf(log, IS_JOINED, Some(since), None));
    FilterConcat(state, Replays(log, earlier, since), StateOnly());
    ReplaysHoldNoState(log, earlier, since);
    StateReadIsState(log, since);
  }

  lemma PreludeOwn(log: seq<Event>, since: int, key: TurnKey)
    requires key in EarlierTurns(Post(log, since))
    ensures Filter(Prelude(log, since), OwnEvents(key)) == Filter(Filter(log, Before(since)), OwnEvents(key))
  {
    var state := EventsOf(log, IS_STATE, None, Some(since));
    var earlier := EarlierTurns(EventsOf(log, IS_JOINED, Some(since), None));
    EarlierOf(log, since);
    EarlierAreDistinct(Post(log, since));
    FilterConcat(state, Replays(log, earlier, since), OwnEvents(key));
    FilterMembers(log, Reads(IS_STATE, None, Some(since)));
    FilterNone(state, OwnEvents(key));
    ReplaysOwn(log, earlier, key, since);
    FilterTwice(log, Before(since), OwnEvents(key), OwnBefore(key, since));
  }

  lemma WindowBegins(log: seq<Event>, since: int, prices: Prices)
    requires WellFormed(log)
    ensures var s, s' := Fold(Filter(log, Before(since)), prices), Fold(Prelude(log, since), prices);
            InStep(s, CutOf(s), s', CutOf(s'), EarlierSet(Post(log, since)), since, s.book.closed.Keys)
  {
    hide Placed, Latest, AllPast, Apart, Fold, InStep;
    var pre, prelude := Filter(log, Before(since)), Prelude(log, since);
    var s, s' := Fold(pre, prices), Fold(prelude, prices);
    FilterMembers(log, Before(since));
    PreludeIsPast(log, since);
    FoldPlaced(pre, prices);
    FoldPlaced(prelude, prices);
    FoldLatest(pre, prices);
    FoldLatest(prelude, prices);
    FoldPast(pre, prices, since);
    FoldPast(prelude, prices, since);
    ClosedAreClosings(pre, prices);
    ClosedAreClosings(prelude, prices);
    StateIsLocal(pre, prices);
    StateIsLocal(prelude, prices);
    PreludeState(log, since);
    forall key | key in EarlierTurns(Post(log, since)) ensures OpenTurn(s.open, key) == OpenTurn(s'.open, key) {
      OpenIsLocal(pre, key, prices);
      OpenIsLocal(prelude, key, prices);
      PreludeOwn(log, since, key);
    }
    forall key | key in s'.book.closed ensures key in s.book.closed {
      var e :| e in prelude && IsClosing(e.payload) && KeyOf(e) == key;
      assert e in pre;
    }
    SplitAt(log, since);
    assert pre + Post(log, since)[..0] == pre;
    PrefixApart(pre, Post(log, since), 0, prices);
    AtTheCut(s, s', EarlierSet(Post(log, since)), since);
  }

  // ---------------------------------------------------------------- from states to reports

  /** A record as the profile sizes left it: the same but for its memory count. */
  predicate SameButSize(r: Record, sized: Record) {
    sized == r.(memoryTokens := sized.memoryTokens, memoryMeasured := sized.memoryMeasured)
  }

  lemma {:induction false} SizesKeep(records: seq<Record>, profiled: seq<(nat, string)>, sizes: map<string, int>)
    ensures forall i :: 0 <= i < |records| ==> SameButSize(records[i], SizeAll(records, profiled, sizes)[i])
  {
    if profiled != [] {
      SizesKeep(records, profiled[..|profiled| - 1], sizes);
    }
  }

  /** Sizing places before the cut leaves the tail alone. */
  lemma {:induction false} SizesBeforeCut(records: seq<Record>, m: nat, profiled: seq<(nat, string)>, sizes: map<string, int>)
    requires m <= |records| && forall i :: 0 <= i < |profiled| ==> profiled[i].0 < m
    ensures SizeAll(records, profiled, sizes)[m..] == records[m..]
  {
    if profiled != [] {
      SizesBeforeCut(records, m, profiled[..|profiled| - 1], sizes);
    }
  }

  /** Sizing the same profiles at the same distance from the cuts sizes the same records. */
  lemma {:induction false} SizesAlike(r: seq<Record>, m: nat, p: seq<(nat, string)>, x: nat,
                                      r': seq<Record>, n: nat, p': seq<(nat, string)>, y: nat, sizes: map<string, int>)
    requires SameTail(r, m, r', n) && SameProfiles(p, x, m, p', y, n)
    requires forall i :: x <= i < |p| ==> p[i].0 < |r|
    ensures SameTail(SizeAll(r, p, sizes), m, SizeAll(r', p', sizes), n)
  {
    hide Sized;
    assert |r[m..]| == |r'[n..]|;
    if |p| == x {
      SizesBeforeCut(r, m, p, sizes);
      SizesBeforeCut(r', n, p', sizes);
    } else {
      var i, j := |p| - 1, |p'| - 1;
      SizesAlike(r, m, p[..i], x, r', n, p'[..j], y, sizes);
      var before, before' := SizeAll(r, p[..i], sizes), SizeAll(r', p'[..j], sizes);
      TailUpdate(before, m, before', n, p[i].0, p'[j].0, Sized(before[p[i].0], p[i].1, sizes));
    }
  }

  lemma {:induction false} FilterTail<T>(a: seq<T>, m: nat, keep: T -> bool)
    requires m <= |a| && forall i :: 0 <= i < m ==> !keep(a[i])
    ensures Filter(a, keep) == Filter(a[m..], keep)
  {
    assert a == a[..m] + a[m..];
    FilterConcat(a[..m], a[m..], keep);
    FilterNone(a[..m], keep);
  }

  lemma {:induction false} RunsNone(a: seq<Record>, range: TimeRange)
    requires forall i :: 0 <= i < |a| ==> forall run :: run in a[i].delegated ==> !range.Includes(run.time)
    ensures TurnRuns(a, range) == []
  {
    if a != [] {
      RunsNone(a[..|a| - 1], range);
      FilterNone(a[|a| - 1].delegated, ReportedWithin(range));
      hide Filter;
    }
  }

  lemma {:induction false} RunsTail(a: seq<Record>, m: nat, range: TimeRange)
    requires m <= |a| && forall i :: 0 <= i < m ==> forall run :: run in a[i].delegated ==> !range.Includes(run.time)
    ensures TurnRuns(a, range) == TurnRuns(a[m..], range)
  {
    hide Filter, RunsOf;
    if m == |a| {
      RunsNone(a, range);
    } else {
      var n := |a| - 1;
      RunsTail(a[..n], m, range);
      assert a[..n][m..] == a[m..][..n - m];
    }
  }

  lemma {:induction false} UnpricedAlike(records: seq<Record>, u: map<TurnKey, set<string>>, u': map<TurnKey, set<string>>)
    requires forall r :: r in records ==> UnpricedOf(u, r.key) == UnpricedOf(u', r.key)
    ensures UnpricedModels(records, u) == UnpricedModels(records, u')
  {
    if records != [] {
      UnpricedAlike(records[..|records| - 1], u, u');
    }
  }

  function SizedRecords(s: State): seq<Record> {
    SizeAll(s.book.records, s.book.profiled, s.sizes)
  }

  /** Sizing neither moves a record in time nor to another turn. */
  lemma SizedSettled(s: State, c: Cut, since: int, before: set<TurnKey>)
    requires SettledBook(s.book, c, since, before)
    ensures |SizedRecords(s)| == |s.book.records|
    ensures forall i :: 0 <= i < |s.book.records| ==> SizedRecords(s)[i].key == s.book.records[i].key
    ensures forall i :: 0 <= i < c.records ==> PastRecord(SizedRecords(s)[i], since)
  {
    SizesKeep(s.book.records, s.book.profiled, s.sizes);
    forall i | 0 <= i < c.records ensures PastRecord(SizedRecords(s)[i], since) {
      assert PastRecord(s.book.records[i], since) && SameButSize(s.book.records[i], SizedRecords(s)[i]);
    }
  }

  ghost predicate PastCut(s: State, c: Cut, key: TurnKey) {
    exists i :: c.records <= i < |s.book.records| && s.book.records[i].key == key
  }

  lemma ReportedPastCut(s: State, c: Cut, since: int, before: set<TurnKey>, range: TimeRange)
    requires SettledBook(s.book, c, since, before) && range.since == Some(since)
    ensures forall r :: r in Filter(SizedRecords(s), ClosedWithin(range)) ==> PastCut(s, c, r.key)
  {
    SizedSettled(s, c, since, before);
    FilterMembers(SizedRecords(s), ClosedWithin(range));
    forall r | r in Filter(SizedRecords(s), ClosedWithin(range)) ensures PastCut(s, c, r.key) {
      var i :| 0 <= i < |SizedRecords(s)| && SizedRecords(s)[i] == r;
      assert s.book.records[i].key == r.key;
    }
  }

  /** A range reports nothing from before the cut. */
  lemma ReportedFromCut(s: State, c: Cut, since: int, before: set<TurnKey>, range: TimeRange)
    requires SettledBook(s.book, c, since, before) && range.since == Some(since)
    ensures c.records <= |SizedRecords(s)|
    ensures Filter(SizedRecords(s), ClosedWithin(range)) == Filter(SizedRecords(s)[c.records..], ClosedWithin(range))
    ensures TurnRuns(SizedRecords(s), range) == TurnRuns(SizedRecords(s)[c.records..], range)
  {
    SizedSettled(s, c, since, before);
    hide SizedRecords, Filter, TurnRuns;
    FilterTail(SizedRecords(s), c.records, ClosedWithin(range));
    RunsTail(SizedRecords(s), c.records, range);
  }

  lemma RecordsReported(s: State, c: Cut, s': State, c': Cut, known: set<TurnKey>, since: int, before: set<TurnKey>, range: TimeRange)
    requires InStep(s, c, s', c', known, since, before) && range.since == Some(since)
    ensures Filter(SizedRecords(s), ClosedWithin(range)) == Filter(SizedRecords(s'), ClosedWithin(range))
    ensures TurnRuns(SizedRecords(s), range) == TurnRuns(SizedRecords(s'), range)
  {
    SizesAlike(s.book.records, c.records, s.book.profiled, c.profiled,
               s'.book.records, c'.records, s'.book.profiled, c'.profiled, s.sizes);
    hide SettledBook, Filter, TurnRuns, SizeAll;
    ReportedFromCut(s, c, since, before, range);
    ReportedFromCut(s', c', since, before, range);
  }

  lemma RunsReported(s: State, c: Cut, s': State, c': Cut, known: set<TurnKey>, since: int, before: set<TurnKey>, range: TimeRange)
    requires InStep(s, c, s', c', known, since, before) && range.since == Some(since)
    ensures Filter(s.stepRuns, StepWithin(range)) == Filter(s'.stepRuns, StepWithin(range))
    ensures Filter(s.runRecaps, RecapWithin(range)) == Filter(s'.runRecaps, RecapWithin(range))
    ensures Filter(s.runRecalls, RecallWithin(range)) == Filter(s'.runRecalls, RecallWithin(range))
  {
    FilterTail(s.stepRuns, c.stepRuns, StepWithin(range));
    FilterTail(s'.stepRuns, c'.stepRuns, StepWithin(range));
    FilterTail(s.runRecaps, c.recaps, RecapWithin(range));
    FilterTail(s'.runRecaps, c'.recaps, RecapWithin(range));
    FilterTail(s.runRecalls, c.recalls, RecallWithin(range));
    FilterTail(s'.runRecalls, c'.recalls, RecallWithin(range));
  }

  lemma SameReport(s: State, c: Cut, s': State, c': Cut, known: set<TurnKey>, since: int, before: set<TurnKey>, range: TimeRange)
    requires InStep(s, c, s', c', known, since, before) && range.since == Some(since)
    ensures ReportOf(ResultOf(s), range) == ReportOf(ResultOf(s'), range)
  {
    RecordsReported(s, c, s', c', known, since, before, range);
    RunsReported(s, c, s', c', known, since, before, range);
    ReportedPastCut(s, c, since, before, range);
    var records := Filter(SizedRecords(s), ClosedWithin(range));
    var keys := KeysOf(records);
    forall r | r in records
      ensures r.key !in before && UnpricedOf(s.book.unpriced, r.key) == UnpricedOf(s'.book.unpriced, r.key)
    {
      var i :| c.records <= i < |s.book.records| && s.book.records[i].key == r.key;
      assert SameClosing(s.book, c.records, s'.book, c'.records, r.key);
    }
    UnpricedAlike(records, s.book.unpriced, s'.book.unpriced);
    FilterTail(s.book.mismatches, c.mismatches, Among(keys));
    FilterTail(s'.book.mismatches, c'.mismatches, Among(keys));
  }

  // ---------------------------------------------------------------- the theorem

  lemma WindowIsPrelude(log: seq<Event>, since: int, prices: Prices)
    ensures Fold(MetricsEvents(log, Some(since)), prices) == Fold(Prelude(log, since) + Post(log, since), prices)
  {
    var prelude, post := Prelude(log, since), Post(log, since);
    var metrics := EventsOf(log, IS_METRIC, Some(since), None);
    FilterTwice(log, From(since), MetricsOnly(), Reads(IS_METRIC, Some(since), None));
    assert MetricsEvents(log, Some(since)) == prelude + metrics;
    FoldSplits(prelude, metrics, prices);
    FoldSplits(prelude, post, prices);
    FoldSkips(Fold(prelude, prices), post, prices);
  }

  /** Without a beginning, the window is every event the fold reads. */
  lemma AllMetricEvents(log: seq<Event>, prices: Prices)
    ensures Fold(MetricsEvents(log, None), prices) == Fold(log, prices)
  {
    hide Step;
    FilterAgree(log, Reads(IS_METRIC, None, None), MetricsOnly());
    assert [] + MetricsEvents(log, None) == MetricsEvents(log, None) && [] + log == log;
    FoldSplits([], MetricsEvents(log, None), prices);
    FoldSplits([], log, prices);
    FoldSkips(EMPTY, log, prices);
  }

  /** For a well-formed log and any range, the records, delegated runs, step runs, run recaps, run recalls,
      unpriced models and warnings folded from the window are those folded from the whole log, in order. */
  lemma {:induction false} WindowReports(log: seq<Event>, range: TimeRange, prices: Prices)
    requires WellFormed(log)
    ensures ReportOf(TurnMetricsOf(MetricsEvents(log, range.since), prices), range) == ReportOf(TurnMetricsOf(log, prices), range)
  {
    hide InStep, Fold, MetricsEvents, Prelude, ReportOf, ResultOf, Filter, CutOf, KnownAfter;
    if range.since.None? {
      AllMetricEvents(log, prices);
    } else {
      var since := range.since.value;
      var pre, prelude, post := Filter(log, Before(since)), Prelude(log, since), Post(log, since);
      SplitAt(log, since);
      WindowBegins(log, since, prices);
      var s0, s0' := Fold(pre, prices), Fold(prelude, prices);
      var s, s' := RunInStep(pre, prelude, post, |post|, s0, CutOf(s0), s0', CutOf(s0'), since, s0.book.closed.Keys, prices);
      assert post[..|post|] == post;
      WindowIsPrelude(log, since, prices);
      SameReport(s, CutOf(s0), s', CutOf(s0'), KnownAfter(post, |post|), since, s0.book.closed.Keys, range);
    }
  }
}
