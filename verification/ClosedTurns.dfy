/** What the fold says of the turns that closed, told from the events of the log: how each closed and at what
    cost, its rating, the models no price was found for, the size of its profile, and what was reported outside
    any turn. */
module ClosedTurns {
  import opened Events
  import opened Pricing
  import opened Memory
  import opened Metrics
  import opened MetricsWindow
  import opened Gathered
  import opened GatheredResults
  import opened Recaps
  import opened WindowTheorem

  predicate Closes(p: Payload) {
    p.TurnCompleted? || p.TurnFailed? || p.TurnInterrupted?
  }

  predicate DidNoWork(p: Payload) {
    p.TurnCompleted? && p.outcome == NoWork
  }

  /** The start a turn is open with. */
  function OpenedBy(events: seq<Event>, key: TurnKey): Option<Event> {
    if events == [] then None
    else
      var e := events[|events| - 1];
      if KeyOf(e) == key && e.payload.TurnStarted? then Some(e)
      else if KeyOf(e) == key && Closes(e.payload) then None
      else OpenedBy(events[..|events| - 1], key)
  }

  lemma {:induction false} OpenTurnsAreOpened(events: seq<Event>, key: TurnKey, prices: Prices)
    ensures key in Fold(events, prices).open <==> OpenedBy(events, key).Some?
    ensures key in Fold(events, prices).open ==> KeepsStart(Fold(events, prices).open[key], OpenedBy(events, key))
  {
    hide KeepsStart, Gather, Started, BookStep, IsGathered;
    if events != [] {
      var n := |events| - 1;
      var open, e := Fold(events[..n], prices).open, events[n];
      OpenTurnsAreOpened(events[..n], key, prices);
      if KeyOf(e) == key {
        if e.payload.TurnStarted? {
          StartIsKept(e);
        } else if key in open {
          GatherKeepsStart(open[key], e, OpenedBy(events[..n], key));
        }
      }
    }
  }

  // ---------------------------------------------------------------- a closing

  /** The cost of tokens at a model: unknown without a price. */
  function CostAt(tokens: Tokens, model: Option<string>, prices: Prices): Option<real> {
    if model.Some? && model.value in prices then Some(TokenCost(tokens, prices[model.value])) else None
  }

  function ModelOpened(start: Option<Event>): Option<string> {
    if start.Some? && start.value.payload.TurnStarted? then Some(start.value.payload.model) else None
  }

  /** A record that says how its turn closed: as what, with which totals, and at what cost. */
  ghost predicate SaysHowItClosed(r: Record, e: Event, start: Option<Event>, prices: Prices) {
    && r.key == KeyOf(e) && r.closedAt == e.time
    && (r.closing == Completed <==> e.payload.TurnCompleted?)
    && (r.closing == Metrics.Failed <==> e.payload.TurnFailed?)
    && (r.closing == Interrupted <==> e.payload.TurnInterrupted?)
    && (r.outcome == NoWork <==> DidNoWork(e.payload))
    && Closes(e.payload) && r.tokens == e.payload.tokens && r.recapInput == 0 && r.recapOutput == 0 && r.rating.None?
    && r.model == ModelOpened(start)
    && r.cost == (if DidNoWork(e.payload) then Some(0.0) else CostAt(e.payload.tokens, ModelOpened(start), prices))
    && (start.None? ==> NothingGathered(r))
  }

  /** Of a turn with no start in the log only the closing is known. */
  ghost predicate NothingGathered(r: Record) {
    && r.origin.None? && r.startedAt.None? && r.promptVersion.None? && r.profileVersion.None?
    && r.toolCalls == multiset{} && r.approvals == 0 && r.delegated == [] && r.recalled == []
    && r.memoryTokens == 0.0 && r.memoryCarried == 0.0 && r.memoryCarriedCost.None? && !r.memoryMeasured && !r.memoryConsulted
  }

  lemma ClosedSays(e: Event, turn: Option<Turn>, start: Option<Event>, prices: Prices)
    requires IsClosing(e.payload) && (turn.Some? <==> start.Some?) && (turn.Some? ==> KeepsStart(turn.value, start))
    ensures SaysHowItClosed(Closed(e, turn, prices), e, start, prices)
  {
    hide UseOf, NavigationOf, TokenCost;
  }

  /** Every closing adds one record, which says how its turn closed and at what cost, and changes no other. */
  lemma {:induction false} ClosingSays(events: seq<Event>, e: Event, prices: Prices)
    requires Closes(e.payload)
    ensures var before, after := Fold(events, prices).book.records, Fold(events + [e], prices).book.records;
            && |after| == |before| + 1 && after[..|before|] == before
            && SaysHowItClosed(after[|before|], e, OpenedBy(events, KeyOf(e)), prices)
  {
    hide Closed, SaysHowItClosed, KeepsStart, Mismatched;
    var s, key := Fold(events, prices), KeyOf(e);
    assert (events + [e])[..|events|] == events;
    OpenTurnsAreOpened(events, key, prices);
    ClosedSays(e, OpenTurn(s.open, key), OpenedBy(events, key), prices);
  }

  // ---------------------------------------------------------------- a rating

  /** The last rating of a turn since its last closing. */
  function LastRating(events: seq<Event>, key: TurnKey): Option<bool> {
    if events == [] then None
    else
      var e := events[|events| - 1];
      if KeyOf(e) == key && e.payload.TurnRated? then Some(e.payload.good)
      else if KeyOf(e) == key && Closes(e.payload) then None
      else LastRating(events[..|events| - 1], key)
  }

  lemma RatingStep(b: Book, e: Event, turn: Option<Turn>, prices: Prices, key: TurnKey)
    requires Placed(b) && key in b.closed && !(IsClosing(e.payload) && KeyOf(e) == key)
    ensures var after := BookStep(b, e, turn, prices);
            && key in after.closed && after.closed[key] == b.closed[key] && after.closed[key] < |after.records|
            && after.records[after.closed[key]].rating
               == if KeyOf(e) == key && e.payload.TurnRated? then Some(e.payload.good) else b.records[b.closed[key]].rating
  {
    hide RecapCost, TokenCost, PriceOf, AddUnpriced, Mismatched, Closed;
  }

  /** A turn's record has the last rating given since it closed. */
  lemma {:induction false} RatingIsTheLast(events: seq<Event>, key: TurnKey, prices: Prices)
    requires key in Fold(events, prices).book.closed
    ensures var b := Fold(events, prices).book;
            b.closed[key] < |b.records| && b.records[b.closed[key]].rating == LastRating(events, key)
  {
    hide BookRecap, BookRating, OpenStep;
    var n := |events| - 1;
    var s, e := Fold(events[..n], prices), events[n];
    FoldPlaced(events[..n], prices);
    if KeyOf(e) != key || !IsClosing(e.payload) {
      StepCloses(s, e, prices);
      RatingIsTheLast(events[..n], key, prices);
      RatingStep(s.book, e, OpenTurn(s.open, KeyOf(e)), prices, key);
    }
  }

  // ---------------------------------------------------------------- models without a price

  predicate SpendsNothing(t: Tokens) {
    t.input + t.output == 0 && t.cacheRead == 0 && t.cacheCreation == 0
  }

  /** An event that leaves its turn with an unpriced model: a closing with work of a turn started at it, or a
      recap at it that spent tokens, of a turn that closed with work. */
  predicate LeavesUnpriced(before: seq<Event>, e: Event, model: string, prices: Prices) {
    var start, closing := OpenedBy(before, KeyOf(e)), LastClosing(before, KeyOf(e));
    && model !in prices
    && ((Closes(e.payload) && !DidNoWork(e.payload) && ModelOpened(start) == Some(model))
        || (e.payload.MemoryRecapped? && e.payload.recapModel == Some(model) && !SpendsNothing(e.payload.tokens)
            && closing.Some? && !DidNoWork(closing.value.payload)))
  }

  ghost predicate LeftUnpriced(events: seq<Event>, key: TurnKey, model: string, prices: Prices) {
    exists i :: 0 <= i < |events| && KeyOf(events[i]) == key && LeavesUnpriced(events[..i], events[i], model, prices)
  }

  lemma LeftSnoc(events: seq<Event>, e: Event, key: TurnKey, model: string, prices: Prices)
    ensures LeftUnpriced(events + [e], key, model, prices)
       <==> LeftUnpriced(events, key, model, prices) || (KeyOf(e) == key && LeavesUnpriced(events, e, model, prices))
  {
    hide LeavesUnpriced;
    var longer := events + [e];
    assert longer[..|events|] == events && longer[|events|] == e;
    if i :| 0 <= i < |longer| && KeyOf(longer[i]) == key && LeavesUnpriced(longer[..i], longer[i], model, prices) {
      assert i < |events| ==> longer[..i] == events[..i] && longer[i] == events[i];
    }
    if i :| 0 <= i < |events| && KeyOf(events[i]) == key && LeavesUnpriced(events[..i], events[i], model, prices) {
      assert longer[..i] == events[..i] && longer[i] == events[i];
    }
  }

  lemma UnpricedStep(b: Book, e: Event, turn: Option<Turn>, prices: Prices, key: TurnKey, model: string)
    ensures model in UnpricedOf(BookStep(b, e, turn, prices).unpriced, key)
       <==> model in UnpricedOf(b.unpriced, key)
            || (KeyOf(e) == key && model !in prices
                && ((Closes(e.payload) && !DidNoWork(e.payload) && turn.Some? && turn.value.model == model)
                    || (e.payload.MemoryRecapped? && e.payload.recapModel == Some(model) && !SpendsNothing(e.payload.tokens)
                        && IsBooked(b, key) && b.records[b.closed[key]].outcome != NoWork)))
  {
    hide Recapped, TokenCost, Mismatched, Closed;
  }

  /** The models left unpriced for a turn are those its closings with work, and its recaps after them, ran at
      without a price. */
  lemma {:induction false} UnpricedAreLeft(events: seq<Event>, key: TurnKey, model: string, prices: Prices)
    ensures model in UnpricedOf(Fold(events, prices).book.unpriced, key) <==> LeftUnpriced(events, key, model, prices)
  {
    hide BookStep, OpenStep, UnpricedOf, LeftUnpriced, KeepsStart, TurnCounted;
    if events == [] {
      NothingUnpriced(key, model, prices);
    } else {
      var n := |events| - 1;
      var prefix, e := events[..n], events[n];
      var s := Fold(prefix, prices);
      assert events == prefix + [e];
      UnpricedAreLeft(prefix, key, model, prices);
      LeftSnoc(prefix, e, key, model, prices);
      UnpricedStep(s.book, e, OpenTurn(s.open, KeyOf(e)), prices, key, model);
      if KeyOf(e) == key {
        OpensAt(prefix, key, prices);
        OutcomeAt(prefix, key, prices);
      }
    }
  }

  lemma OpensAt(events: seq<Event>, key: TurnKey, prices: Prices)
    ensures var turn := OpenTurn(Fold(events, prices).open, key);
            ModelOpened(OpenedBy(events, key)) == if turn.Some? then Some(turn.value.model) else None
  {
    hide Fold, OpenedBy;
    OpenTurnsAreOpened(events, key, prices);
  }

  lemma OutcomeAt(events: seq<Event>, key: TurnKey, prices: Prices)
    ensures var b, closing := Fold(events, prices).book, LastClosing(events, key);
            IsBooked(b, key) && b.records[b.closed[key]].outcome != NoWork <==> closing.Some? && !DidNoWork(closing.value.payload)
  {
    hide Fold, LastClosing, LastRecap;
    RecordCounts(events, key, prices);
    ClosedHasClosing(events, key, prices);
  }

  lemma {:induction false} ClosedHasClosing(events: seq<Event>, key: TurnKey, prices: Prices)
    ensures key in Fold(events, prices).book.closed <==> LastClosing(events, key).Some?
  {
    hide BookStep, OpenStep;
    if events != [] {
      var n := |events| - 1;
      ClosedHasClosing(events[..n], key, prices);
      StepCloses(Fold(events[..n], prices), events[n], prices);
    }
  }

  lemma NothingUnpriced(key: TurnKey, model: string, prices: Prices)
    ensures model !in UnpricedOf(EMPTY.book.unpriced, key) && !LeftUnpriced([], key, model, prices)
  {
  }

  // ---------------------------------------------------------------- outside any turn

  /** The runs reported while their turn was not open, under the thread they were stored in. */
  function RunsOutside(events: seq<Event>): seq<StepRun> {
    if events == [] then []
    else
      var prefix, e := events[..|events| - 1], events[|events| - 1];
      if e.payload.RunDelegated? && OpenedBy(prefix, KeyOf(e)).None?
      then RunsOutside(prefix) + [StepRun(e.thread, ReportedRun(e.time, e.payload.run))] else RunsOutside(prefix)
  }

  function RecallsOutside(events: seq<Event>): seq<RunRecall> {
    if events == [] then []
    else
      var prefix, e := events[..|events| - 1], events[|events| - 1];
      if e.payload.MemoryRecalled? && OpenedBy(prefix, KeyOf(e)).None?
      then RecallsOutside(prefix) + [RunRecall(e.thread, e.time, e.payload.nodes)] else RecallsOutside(prefix)
  }

  function RecapCostTold(tokens: Tokens, model: Option<string>, prices: Prices): Option<real> {
    if SpendsNothing(tokens) && CostAt(tokens, model, prices).None? then Some(0.0) else CostAt(tokens, model, prices)
  }

  predicate ThreadStopped(events: seq<Event>, thread: Id) {
    exists e :: e in events && e.payload.RunStopped? && e.thread == thread
  }

  /** The recaps of a thread's stopped run, of no turn that had closed. */
  function RecapsOutside(events: seq<Event>, prices: Prices): seq<RunRecap> {
    if events == [] then []
    else
      var prefix, e := events[..|events| - 1], events[|events| - 1];
      if e.payload.MemoryRecapped? && LastClosing(prefix, KeyOf(e)).None? && ThreadStopped(prefix, e.thread)
      then RecapsOutside(prefix, prices)
           + [RunRecap(e.thread, e.time, e.payload.tokens, RecapCostTold(e.payload.tokens, e.payload.recapModel, prices))]
      else RecapsOutside(prefix, prices)
  }

  lemma RecapCostIsTold(tokens: Tokens, model: Option<string>, prices: Prices)
    ensures RecapCost(tokens, model, prices) == RecapCostTold(tokens, model, prices)
  {
  }

  /** What the fold holds of factory runs is what was reported outside any turn, in order. */
  lemma {:induction false} OutsideIsTold(events: seq<Event>, prices: Prices)
    ensures var s := Fold(events, prices);
            s.stepRuns == RunsOutside(events) && s.runRecalls == RecallsOutside(events) && s.runRecaps == RecapsOutside(events, prices)
  {
    hide BookStep, OpenStep, OpenedBy, LastClosing, RecapCost, RecapCostTold, IsBooked, KeepsStart;
    if events != [] {
      var n := |events| - 1;
      var prefix, e := events[..n], events[n];
      OutsideIsTold(prefix, prices);
      OpenTurnsAreOpened(prefix, KeyOf(e), prices);
      BookedHasClosing(prefix, KeyOf(e), prices);
      ClosedAreClosings(prefix, prices);
      if e.payload.MemoryRecapped? {
        RecapCostIsTold(e.payload.tokens, e.payload.recapModel, prices);
      }
    }
  }

  lemma BookedHasClosing(events: seq<Event>, key: TurnKey, prices: Prices)
    ensures IsBooked(Fold(events, prices).book, key) <==> LastClosing(events, key).Some?
  {
    hide Fold, LastClosing;
    ClosedHasClosing(events, key, prices);
    FoldPlaced(events, prices);
  }

  // ---------------------------------------------------------------- profile sizes

  function LastSize(events: seq<Event>, version: string): Option<int> {
    if events == [] then None
    else
      var p := events[|events| - 1].payload;
      if p.ProfileCounted? && p.version == version then Some(p.size) else LastSize(events[..|events| - 1], version)
  }

  lemma {:induction false} SizesAreLast(events: seq<Event>, version: string, prices: Prices)
    ensures var sizes := Fold(events, prices).sizes;
            LastSize(events, version) == if version in sizes then Some(sizes[version]) else None
  {
    hide BookStep, OpenStep;
    if events != [] {
      SizesAreLast(events[..|events| - 1], version, prices);
    }
  }

  /** A closing has its profile sized exactly when its turn called the model under a profile. */
  lemma {:induction false} ClosingIsProfiled(events: seq<Event>, e: Event, prices: Prices)
    requires Closes(e.payload)
    ensures var before, after := Fold(events, prices).book, Fold(events + [e], prices).book;
            var start := OpenedBy(events, KeyOf(e));
            after.profiled == before.profiled
              + if start.Some? && start.value.payload.TurnStarted? && start.value.payload.profileVersion.Some?
                   && Filter(OwnSinceStart(events, KeyOf(e)), IsModelCall()) != []
                then [(|before.records|, start.value.payload.profileVersion.value)] else []
  {
    hide Closed, Mismatched, ToolsGathered, MemoryGathered, NavigationGathered, Filter, TokensReported, OpenStep;
    assert (events + [e])[..|events|] == events;
    OpenTurnsAreOpened(events, KeyOf(e), prices);
    OpenTurnsGathered(events, KeyOf(e), prices);
  }

  /** The version a record's place is to be sized with. */
  function VersionAt(profiled: seq<(nat, string)>, i: nat): Option<string> {
    if profiled == [] then None
    else
      var (place, version) := profiled[|profiled| - 1];
      if place == i then Some(version) else VersionAt(profiled[..|profiled| - 1], i)
  }

  lemma {:induction false} NoVersionAbove(profiled: seq<(nat, string)>, i: nat)
    requires forall j :: 0 <= j < |profiled| ==> profiled[j].0 < i
    ensures VersionAt(profiled, i).None?
  {
    if profiled != [] {
      NoVersionAbove(profiled[..|profiled| - 1], i);
    }
  }

  /** Each reported record is the record booked, but that one whose profile is to be sized has the profile's
      tokens added to memory's, or is an estimate when the profile was never counted. */
  lemma {:induction false} SizedOnce(records: seq<Record>, profiled: seq<(nat, string)>, sizes: map<string, int>, i: nat)
    requires ProfilesPlaced(profiled, |records|) && i < |records|
    ensures var r, version := records[i], VersionAt(profiled, i);
            SizeAll(records, profiled, sizes)[i]
            == if version.None? then r
               else if version.value in sizes then r.(memoryTokens := r.memoryTokens + sizes[version.value] as real)
               else r.(memoryMeasured := false)
  {
    if profiled != [] {
      var n := |profiled| - 1;
      SizedOnce(records, profiled[..n], sizes, i);
      if profiled[n].0 == i {
        NoVersionAbove(profiled[..n], i);
      }
    }
  }
}
