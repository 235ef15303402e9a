/** The daily budget reads a day's spend from part of the log: the starts, closings and recaps stored since
    the day began, and the starts of the turns that closed since but began before. */
module Budgets {
  import opened Events
  import opened Pricing
  import opened Metrics
  import opened MetricsWindow
  import opened WindowProof
  import opened WindowSimulation
  import opened WindowTheorem
  import opened WindowReport

  predicate DailyType(p: Payload) {
    p.TurnStarted? || IsClosing(p) || p.MemoryRecapped?
  }

  const IS_DAILY: Payload -> bool := (p: Payload) => DailyType(p)

  function IsStart(): Event -> bool {
    (e: Event) => e.payload.TurnStarted?
  }

  function StartedTurns(events: seq<Event>): set<Id> {
    set e | e in events && e.payload.TurnStarted? :: e.turn
  }

  /** The starts of the turns that close among the events and did not start among them. */
  function EarlierStarts(log: seq<Event>, events: seq<Event>, started: set<Id>): seq<Event> {
    if events == [] then []
    else
      var before, e := EarlierStarts(log, events[..|events| - 1], started), events[|events| - 1];
      if IsClosing(e.payload) && e.turn !in started then before + Filter(TurnEvents(log, e.turn), IsStart()) else before
  }

  function ClosedOn(log: seq<Event>, day: int): seq<Event> {
    var events := EventsOf(log, IS_DAILY, Some(day * DAY), None);
    EarlierStarts(log, events, StartedTurns(events)) + events
  }

  // ---------------------------------------------------------------- a day's cost

  datatype DailyCost = DailyCost(usd: real, unpriced: set<string>)

  function ClosedOnDay(day: int): Record -> bool {
    (r: Record) => DayOf(r.closedAt) == day
  }

  function TotalCost(records: seq<Record>): real {
    if records == [] then 0.0
    else
      var cost := records[|records| - 1].cost;
      TotalCost(records[..|records| - 1]) + (if cost.Some? then cost.value else 0.0)
  }

  function CostOn(events: seq<Event>, prices: Prices, day: int): DailyCost {
    var m := TurnMetricsOf(events, prices);
    var records := Filter(m.records, ClosedOnDay(day));
    DailyCost(TotalCost(records), UnpricedModels(records, m.unpriced))
  }

  // ---------------------------------------------------------------- well-formed logs

  ghost predicate StartsOnce(log: seq<Event>) {
    forall i, j :: 0 <= i < j < |log| && log[i].payload.TurnStarted? && log[j].payload.TurnStarted? ==> KeyOf(log[i]) != KeyOf(log[j])
  }

  // ---------------------------------------------------------------- what a cost depends on

  /** What of two records a day's cost depends on, its later recaps included. */
  predicate SameCost(r: Record, r': Record) {
    r.key == r'.key && r.closedAt == r'.closedAt && r.outcome == r'.outcome && r.model == r'.model && r.cost == r'.cost
  }

  ghost predicate SameCosts(a: seq<Record>, m: nat, b: seq<Record>) {
    m <= |a| && |a| - m == |b| && forall i :: 0 <= i < |b| ==> SameCost(a[m + i], b[i])
  }

  function ModelOf(turn: Option<Turn>): Option<string> {
    if turn.None? then None else Some(turn.value.model)
  }

  /** Two books whose closings since the cut cost the same. */
  ghost predicate CostBooks(b: Book, m: nat, b': Book) {
    && SameCosts(b.records, m, b'.records) && SameClosings(b, m, b', 0)
    && b'.closed.Keys <= b.closed.Keys && UnpricedAreClosed(b) && UnpricedAreClosed(b')
  }

  ghost predicate CostsAlike(s: State, m: nat, s': State, known: set<TurnKey>) {
    && Placed(s.book) && Placed(s'.book)
    && CostBooks(s.book, m, s'.book)
    && (forall key :: key in known ==> ModelOf(OpenTurn(s.open, key)) == ModelOf(OpenTurn(s'.open, key)))
  }

  lemma GatherKeepsModel(t: Turn, e: Event)
    ensures Gather(t, e).model == t.model
  {
    hide WithResult, WithToolTime, CountMemoryCall, WithNodes;
  }

  lemma OpenStepModel(open: map<TurnKey, Turn>, open': map<TurnKey, Turn>, e: Event, key: TurnKey)
    requires ModelOf(OpenTurn(open, key)) == ModelOf(OpenTurn(open', key))
    ensures ModelOf(OpenTurn(OpenStep(open, e), key)) == ModelOf(OpenTurn(OpenStep(open', e), key))
    ensures !DailyType(e.payload) ==> ModelOf(OpenTurn(OpenStep(open, e), key)) == ModelOf(OpenTurn(open', key))
  {
    hide Gather, IsGathered;
    if key in open {
      GatherKeepsModel(open[key], e);
    }
    if key in open' {
      GatherKeepsModel(open'[key], e);
    }
  }

  /** A closing's cost and unpriced model depend on its payload and its turn's model alone. */
  lemma ClosingCostsAlike(b: Book, m: nat, b': Book, e: Event, turn: Option<Turn>, turn': Option<Turn>, prices: Prices)
    requires Placed(b) && Placed(b') && CostBooks(b, m, b')
    requires IsClosing(e.payload) && KeyOf(e) !in b.closed && ModelOf(turn) == ModelOf(turn')
    ensures CostBooks(BookClosing(b, e, turn, prices), m, BookClosing(b', e, turn', prices))
  {
    var after, after' := BookClosing(b, e, turn, prices), BookClosing(b', e, turn', prices);
    ClosedCostsAlike(e, turn, turn', prices);
    CostsSnoc(b.records, m, b'.records, Closed(e, turn, prices), Closed(e, turn', prices));
    forall key ensures SameClosing(after, m, after', 0, key) {
      assert SameClosing(b, m, b', 0, key);
      ClosingCostAlike(b, m, b', e, turn, turn', prices, key);
    }
  }

  lemma ClosedCostsAlike(e: Event, turn: Option<Turn>, turn': Option<Turn>, prices: Prices)
    requires IsClosing(e.payload) && ModelOf(turn) == ModelOf(turn')
    ensures SameCost(Closed(e, turn, prices), Closed(e, turn', prices))
  {
  }

  lemma CostsSnoc(a: seq<Record>, m: nat, b: seq<Record>, r: Record, r': Record)
    requires SameCosts(a, m, b) && SameCost(r, r')
    ensures SameCosts(a + [r], m, b + [r'])
  {
  }

  lemma ClosingCostAlike(b: Book, m: nat, b': Book, e: Event, turn: Option<Turn>, turn': Option<Turn>, prices: Prices, key: TurnKey)
    requires SameClosing(b, m, b', 0, key) && m <= |b.records| && |b.records| - m == |b'.records|
    requires IsClosing(e.payload) && ModelOf(turn) == ModelOf(turn')
    requires UnpricedOf(b.unpriced, KeyOf(e)) == UnpricedOf(b'.unpriced, KeyOf(e))
    ensures SameClosing(BookClosing(b, e, turn, prices), m, BookClosing(b', e, turn', prices), 0, key)
  {
  }

  /** A rewritten record keeps costing the same in both books. */
  lemma RewriteCostsAlike(b: Book, after: Book, m: nat, b': Book, after': Book, key: TurnKey)
    requires CostBooks(b, m, b')
    requires Rewrites(b, after, key) && Rewrites(b', after', key) && Recent(b, m, key)
    requires SameCost(after.records[b.closed[key]], after'.records[b'.closed[key]])
    requires UnpricedOf(after.unpriced, key) == UnpricedOf(after'.unpriced, key)
    ensures CostBooks(after, m, after')
  {
    assert SameClosing(b, m, b', 0, key);
    forall k ensures SameClosing(after, m, after', 0, k) {
      assert SameClosing(b, m, b', 0, k);
    }
  }

  /** A record from before the cut, or one whose cost stays, may be rewritten. */
  lemma QuietRewriteCosts(b: Book, after: Book, m: nat, b': Book, key: TurnKey)
    requires CostBooks(b, m, b') && Rewrites(b, after, key)
    requires !Recent(b, m, key) || (SameCost(b.records[b.closed[key]], after.records[b.closed[key]]) && after.unpriced == b.unpriced)
    ensures CostBooks(after, m, b')
  {
    forall k ensures SameClosing(after, m, b', 0, k) {
      assert SameClosing(b, m, b', 0, k);
    }
  }

  lemma RewrittenCosts(r: Record, r': Record, main: Tokens, models: set<string>, e: Event, prices: Prices)
    requires SameCost(r, r') && e.payload.MemoryRecapped?
    ensures SameCost(Rewritten(r, main, e, prices), Rewritten(r', main, e, prices))
    ensures RewrittenModels(models, r, e, prices) == RewrittenModels(models, r', e, prices)
  {
    hide RecapCost, TokenCost, PriceOf;
  }

  /** Where a record since the cut is in both books. */
  lemma RecentCosts(b: Book, m: nat, b': Book, key: TurnKey)
    requires Placed(b) && Placed(b') && CostBooks(b, m, b') && Recent(b, m, key)
    ensures key in b'.closed && b.closed[key] < |b.records| && b'.closed[key] < |b'.records|
    ensures SameCost(b.records[b.closed[key]], b'.records[b'.closed[key]])
    ensures key in b.totals && key in b'.totals && b.totals[key] == b'.totals[key]
    ensures UnpricedOf(b.unpriced, key) == UnpricedOf(b'.unpriced, key)
  {
    hide SameCost, UnpricedAreClosed;
    assert SameClosing(b, m, b', 0, key);
    assert SameCost(b.records[m + b'.closed[key]], b'.records[b'.closed[key]]);
  }

  lemma RecentRecapCosts(b: Book, m: nat, b': Book, e: Event, prices: Prices)
    requires Placed(b) && Placed(b') && CostBooks(b, m, b')
    requires e.payload.MemoryRecapped? && Recent(b, m, KeyOf(e))
    ensures CostBooks(BookStep(b, e, None, prices), m, BookStep(b', e, None, prices))
  {
    hide BookStep, Rewritten, RewrittenModels, SameCost, CostBooks, Placed, UnpricedOf;
    var key := KeyOf(e);
    RecentCosts(b, m, b', key);
    StepRewrites(b, e, prices);
    StepRewrites(b', e, prices);
    var r, r' := b.records[b.closed[key]], b'.records[b'.closed[key]];
    RewrittenCosts(r, r', b.totals[key], UnpricedOf(b.unpriced, key), e, prices);
    RewriteCostsAlike(b, BookStep(b, e, None, prices), m, b', BookStep(b', e, None, prices), key);
  }

  lemma RecapCostsAlike(b: Book, m: nat, b': Book, e: Event, prices: Prices)
    requires Placed(b) && Placed(b') && CostBooks(b, m, b') && e.payload.MemoryRecapped?
    ensures CostBooks(BookStep(b, e, None, prices), m, BookStep(b', e, None, prices))
  {
    hide BookStep;
    assert SameClosing(b, m, b', 0, KeyOf(e));
    if Recent(b, m, KeyOf(e)) {
      RecentRecapCosts(b, m, b', e, prices);
    } else {
      StepElsewhere(b', e, prices);
      if KeyOf(e) in b.closed {
        StepRewrites(b, e, prices);
        QuietRewriteCosts(b, BookStep(b, e, None, prices), m, b', KeyOf(e));
      } else {
        StepElsewhere(b, e, prices);
      }
    }
  }

  /** A rating changes no cost. */
  lemma RatingCostsAlike(b: Book, m: nat, b': Book, e: Event, prices: Prices)
    requires Placed(b) && CostBooks(b, m, b') && e.payload.TurnRated?
    ensures CostBooks(BookStep(b, e, None, prices), m, b')
  {
    if KeyOf(e) in b.closed {
      QuietRewriteCosts(b, BookStep(b, e, None, prices), m, b', KeyOf(e));
    }
  }
}
