/** What a day costs, told from the log: the sum, over the closings of the day, of what each turn's tokens cost
    at the model it was open with, and of its last recap; and the models of that day no price was found for. */
module DailySpend {
  import opened Events
  import opened Pricing
  import opened Metrics
  import opened MetricsWindow
  import opened Recaps
  import opened WindowTheorem
  import opened Budgets
  import opened BudgetTheorem
  import opened ClosedTurns

  /** A moment of a day, days being counted from the first. */
  predicate IsOn(time: int, day: int) {
    day * 86400000000 <= time < (day + 1) * 86400000000
  }

  predicate ClosedAgain(events: seq<Event>, i: nat)
    requires i < |events|
  {
    exists j :: i < j < |events| && KeyOf(events[j]) == KeyOf(events[i]) && Closes(events[j].payload)
  }

  /** The last recap of the turn closed at `i`, before the turn closed again. */
  function RecapSince(events: seq<Event>, i: nat): Option<Event>
    requires i < |events|
  {
    var n := |events| - 1;
    if n == i then None
    else if KeyOf(events[n]) == KeyOf(events[i]) && events[n].payload.MemoryRecapped? && !ClosedAgain(events[..n], i)
    then Some(events[n])
    else RecapSince(events[..n], i)
  }

  /** What the turn closed at `i` cost: nothing without work, else its tokens at the model it was open with, and
      its recap at the recap's own; unknown when either has no price. */
  function CostOfClosing(events: seq<Event>, i: nat, prices: Prices): Option<real>
    requires i < |events| && Closes(events[i].payload)
  {
    var e := events[i];
    var main, recap := CostAt(e.payload.tokens, ModelOpened(OpenedBy(events[..i], KeyOf(e))), prices), RecapSince(events, i);
    if DidNoWork(e.payload) then Some(0.0)
    else if recap.None? || !recap.value.payload.MemoryRecapped? then main
    else
      var added := RecapCostTold(recap.value.payload.tokens, recap.value.payload.recapModel, prices);
      if main.Some? && added.Some? then Some(main.value + added.value) else None
  }

  function Known(cost: Option<real>): real {
    if cost.Some? then cost.value else 0.0
  }

  /** What the closing at `i`, if it is one of the day, adds to the day. */
  function Spends(events: seq<Event>, i: nat, prices: Prices, day: int): real
    requires i < |events|
  {
    if Closes(events[i].payload) && IsOn(events[i].time, day) then Known(CostOfClosing(events, i, prices)) else 0.0
  }

  /** What the closings among the first `n` events add to the day. */
  function SpentOn(events: seq<Event>, n: nat, prices: Prices, day: int): real
    requires n <= |events|
  {
    if n == 0 then 0.0 else SpentOn(events, n - 1, prices, day) + Spends(events, n - 1, prices, day)
  }

  // ---------------------------------------------------------------- a day's records

  function OnDay(r: Record, day: int): real {
    if DayOf(r.closedAt) == day then Known(r.cost) else 0.0
  }

  function DayTotal(records: seq<Record>, day: int): real {
    TotalCost(Filter(records, ClosedOnDay(day)))
  }

  lemma DayTotalNext(records: seq<Record>, r: Record, day: int)
    ensures DayTotal(records + [r], day) == DayTotal(records, day) + OnDay(r, day)
  {
    hide DayOf, Filter, Known;
    var kept := Filter(records, ClosedOnDay(day));
    FilterSnoc(records, r, ClosedOnDay(day));
    TotalNext(kept, r);
  }

  lemma TotalNext(records: seq<Record>, r: Record)
    ensures TotalCost(records + [r]) == TotalCost(records) + Known(r.cost)
    ensures TotalCost(records + []) == TotalCost(records)
  {
    assert (records + [r])[..|records|] == records && records + [] == records;
  }

  /** A record rewritten in its place moves the day's total by what its own cost moves. */
  lemma {:induction false} DayTotalMoves(records: seq<Record>, place: nat, r: Record, day: int)
    requires place < |records| && r.closedAt == records[place].closedAt
    ensures DayTotal(records[place := r], day) == DayTotal(records, day) + OnDay(r, day) - OnDay(records[place], day)
  {
    hide DayTotal, OnDay;
    var n := |records| - 1;
    assert records == records[..n] + [records[n]];
    DayTotalNext(records[..n], records[n], day);
    if place == n {
      assert records[place := r] == records[..n] + [r];
      DayTotalNext(records[..n], r, day);
    } else {
      assert records[place := r] == records[..n][place := r] + [records[n]];
      DayTotalNext(records[..n][place := r], records[n], day);
      DayTotalMoves(records[..n], place, r, day);
    }
  }

  lemma {:induction false} SizingCostsNothing(records: seq<Record>, profiled: seq<(nat, string)>, sizes: map<string, int>, day: int)
    ensures DayTotal(SizeAll(records, profiled, sizes), day) == DayTotal(records, day)
  {
    hide DayTotal;
    if profiled != [] {
      var n := |profiled| - 1;
      SizingCostsNothing(records, profiled[..n], sizes, day);
      var before := SizeAll(records, profiled[..n], sizes);
      var (place, version) := profiled[n];
      if place < |before| {
        DayTotalMoves(before, place, Sized(before[place], version, sizes), day);
      }
    }
  }

  lemma DayIsTheDay(time: int, day: int)
    ensures DayOf(time) == day <==> IsOn(time, day)
  {
    assert DAY == 86400000000;
    assert time == DAY * (time / DAY) + time % DAY && 0 <= time % DAY < DAY;
    if IsOn(time, day) {
      assert DAY * (time / DAY - day) == time - time % DAY - DAY * day;
    }
  }

  // ---------------------------------------------------------------- the last closing of a turn

  function ClosingPlace(events: seq<Event>, key: TurnKey): (i: Option<nat>)
    ensures i.Some? ==> i.value < |events| && KeyOf(events[i.value]) == key && Closes(events[i.value].payload)
    ensures i.Some? ==> !ClosedAgain(events, i.value)
    ensures i.None? ==> forall j :: 0 <= j < |events| && KeyOf(events[j]) == key ==> !Closes(events[j].payload)
  {
    if events == [] then None
    else if KeyOf(events[|events| - 1]) == key && Closes(events[|events| - 1].payload) then Some(|events| - 1)
    else ClosingPlace(events[..|events| - 1], key)
  }

  lemma {:induction false} PlaceOfLast(events: seq<Event>, key: TurnKey)
    ensures var i := ClosingPlace(events, key);
            && (i.Some? <==> LastClosing(events, key).Some?)
            && (i.Some? ==> LastClosing(events, key) == Some(events[i.value]) && LastRecap(events, key) == RecapSince(events, i.value))
  {
    if events != [] {
      var n := |events| - 1;
      var e := events[n];
      PlaceOfLast(events[..n], key);
      if KeyOf(e) != key || !Closes(e.payload) {
        var i := ClosingPlace(events[..n], key);
        if i.Some? {
          assert events[..n][i.value] == events[i.value];
        }
      }
    }
  }

  /** What a step does to the records: a closing adds one, and an event of a turn that closed may rewrite its
      record, but for its key, its moment and its model. */
  lemma StepShape(b: Book, e: Event, turn: Option<Turn>, prices: Prices)
    requires Placed(b)
    ensures var after, key := BookStep(b, e, turn, prices), KeyOf(e);
            if IsClosing(e.payload) then
              && after.records == b.records + [Closed(e, turn, prices)] && after.closed == b.closed[key := |b.records|]
            else if key in b.closed then
              && IsBooked(b, key) && after.closed == b.closed && |after.records| == |b.records|
              && var r, r' := b.records[b.closed[key]], after.records[b.closed[key]];
                 && after.records == b.records[b.closed[key] := r']
                 && r'.key == r.key && r'.closedAt == r.closedAt && r'.model == r.model
                 && (!e.payload.MemoryRecapped? ==> r'.cost == r.cost)
            else after == b
  {
    hide RecapCost, TokenCost, PriceOf, AddUnpriced, Mismatched, Closed, ProfilesPlaced;
  }

  /** The record of a turn that closed has the model its turn was open with then. */
  lemma {:induction false} ModelIsTold(events: seq<Event>, key: TurnKey, prices: Prices)
    requires ClosingPlace(events, key).Some?
    ensures var b, i := Fold(events, prices).book, ClosingPlace(events, key).value;
            && IsBooked(b, key)
            && b.records[b.closed[key]].model == ModelOpened(OpenedBy(events[..i], key))
            && b.records[b.closed[key]].closedAt == events[i].time
  {
    hide OpenStep, BookRecap, BookRating, OpenedBy, ModelOpened, SaysHowItClosed;
    var n := |events| - 1;
    var prefix, e := events[..n], events[n];
    assert events == prefix + [e];
    FoldPlaced(prefix, prices);
    if KeyOf(e) == key && Closes(e.payload) {
      ClosingSays(prefix, e, prices);
      SaidModel(prefix, e, prices);
    } else {
      ModelIsTold(prefix, key, prices);
      var i := ClosingPlace(prefix, key).value;
      assert events[..i] == prefix[..i] && events[i] == prefix[i];
      ModelStays(Fold(prefix, prices), e, prices, key);
    }
  }

  lemma SaidModel(prefix: seq<Event>, e: Event, prices: Prices)
    requires Closes(e.payload)
    requires var records, after := Fold(prefix, prices).book.records, Fold(prefix + [e], prices).book.records;
             |after| == |records| + 1 && SaysHowItClosed(after[|records|], e, OpenedBy(prefix, KeyOf(e)), prices)
    ensures var b := Fold(prefix + [e], prices).book;
            && IsBooked(b, KeyOf(e))
            && b.records[b.closed[KeyOf(e)]].model == ModelOpened(OpenedBy(prefix, KeyOf(e)))
            && b.records[b.closed[KeyOf(e)]].closedAt == e.time
  {
    hide OpenStep, OpenedBy, ModelOpened, Closed;
    assert (prefix + [e])[..|prefix|] == prefix;
  }

  lemma ModelStays(s: State, e: Event, prices: Prices, key: TurnKey)
    requires Placed(s.book) && IsBooked(s.book, key) && !(KeyOf(e) == key && Closes(e.payload))
    ensures var b, after := s.book, Step(s, e, prices).book;
            && IsBooked(after, key) && after.closed[key] == b.closed[key]
            && after.records[after.closed[key]].model == b.records[b.closed[key]].model
            && after.records[after.closed[key]].closedAt == b.records[b.closed[key]].closedAt
  {
    StepShape(s.book, e, OpenTurn(s.open, KeyOf(e)), prices);
    hide OpenStep, BookStep, Closed;
  }

  /** What a turn's record costs is what its last closing does. */
  lemma RecordCostIsTold(events: seq<Event>, key: TurnKey, prices: Prices)
    requires ClosingPlace(events, key).Some?
    ensures var b, i := Fold(events, prices).book, ClosingPlace(events, key).value;
            IsBooked(b, key) && b.records[b.closed[key]].cost == CostOfClosing(events, i, prices)
  {
    hide Fold, LastClosing, LastRecap, ClosingPlace, OpenedBy, RecapSince, TokenCost, ModelOpened;
    RecordCounts(events, key, prices);
    PlaceOfLast(events, key);
    ModelIsTold(events, key, prices);
    ClosedHasClosing(events, key, prices);
    var recap := LastRecap(events, key);
    if recap.Some? && recap.value.payload.MemoryRecapped? {
      RecapCostIsTold(recap.value.payload.tokens, recap.value.payload.recapModel, prices);
    }
    hide RecapCost, RecapCostTold;
  }

  // ---------------------------------------------------------------- one event

  lemma AgainStays(events: seq<Event>, e: Event, i: nat)
    requires i < |events| && !(Closes(e.payload) && KeyOf(e) == KeyOf(events[i]))
    ensures ClosedAgain(events + [e], i) == ClosedAgain(events, i)
  {
    var longer := events + [e];
    if j :| i < j < |events| && KeyOf(events[j]) == KeyOf(events[i]) && Closes(events[j].payload) {
      assert longer[j] == events[j];
    }
  }

  /** An event changes what an earlier closing cost only as the recap of a turn that closed there last. */
  lemma CostStays(events: seq<Event>, e: Event, i: nat, prices: Prices, day: int)
    requires i < |events|
    requires !(e.payload.MemoryRecapped? && ClosingPlace(events, KeyOf(e)) == Some(i))
    ensures Spends(events + [e], i, prices, day) == Spends(events, i, prices, day)
  {
    hide OpenedBy, CostAt, RecapCostTold, ClosingPlace;
    var longer := events + [e];
    assert longer[..|events|] == events && longer[i] == events[i] && longer[..i] == events[..i];
    if Closes(events[i].payload) && KeyOf(e) == KeyOf(events[i]) && e.payload.MemoryRecapped? {
      NotLastAgain(events, i);
    }
  }

  lemma NotLastAgain(events: seq<Event>, i: nat)
    requires i < |events| && Closes(events[i].payload) && ClosingPlace(events, KeyOf(events[i])) != Some(i)
    ensures ClosedAgain(events, i)
  {
    var last := ClosingPlace(events, KeyOf(events[i])).value;
    assert last >= i;
  }

  lemma {:induction false} SpentStays(events: seq<Event>, e: Event, n: nat, prices: Prices, day: int)
    requires n <= |events|
    requires e.payload.MemoryRecapped? && ClosingPlace(events, KeyOf(e)).Some? ==> n <= ClosingPlace(events, KeyOf(e)).value
    ensures SpentOn(events + [e], n, prices, day) == SpentOn(events, n, prices, day)
  {
    hide Spends, ClosingPlace;
    if n > 0 {
      SpentStays(events, e, n - 1, prices, day);
      CostStays(events, e, n - 1, prices, day);
    }
  }

  lemma {:induction false} SpentMoves(events: seq<Event>, e: Event, n: nat, prices: Prices, day: int)
    requires e.payload.MemoryRecapped? && ClosingPlace(events, KeyOf(e)).Some? && ClosingPlace(events, KeyOf(e)).value < n <= |events|
    ensures var i := ClosingPlace(events, KeyOf(e)).value;
            SpentOn(events + [e], n, prices, day)
            == SpentOn(events, n, prices, day) + Spends(events + [e], i, prices, day) - Spends(events, i, prices, day)
  {
    hide Spends, ClosingPlace;
    if ClosingPlace(events, KeyOf(e)).value == n - 1 {
      SpentStays(events, e, n - 1, prices, day);
    } else {
      SpentMoves(events, e, n - 1, prices, day);
      CostStays(events, e, n - 1, prices, day);
    }
  }

  /** What an event does to a day's total: a closing adds its record's cost, and any other moves it by what its
      turn's record moves. */
  lemma StepTotal(b: Book, e: Event, turn: Option<Turn>, prices: Prices, day: int)
    requires Placed(b)
    ensures var after, key := BookStep(b, e, turn, prices), KeyOf(e);
            if IsClosing(e.payload) then
              |after.records| == |b.records| + 1 && DayTotal(after.records, day) == DayTotal(b.records, day) + OnDay(after.records[|b.records|], day)
            else if key in b.closed then
              && IsBooked(b, key) && after.closed == b.closed && b.closed[key] < |after.records|
              && DayTotal(after.records, day)
                 == DayTotal(b.records, day) + OnDay(after.records[b.closed[key]], day) - OnDay(b.records[b.closed[key]], day)
              && (!e.payload.MemoryRecapped? ==> OnDay(after.records[b.closed[key]], day) == OnDay(b.records[b.closed[key]], day))
            else after == b
  {
    hide DayTotal, BookStep, Closed, OnDay;
    StepShape(b, e, turn, prices);
    if IsClosing(e.payload) {
      DayTotalNext(b.records, Closed(e, turn, prices), day);
    } else if KeyOf(e) in b.closed {
      var place, after := b.closed[KeyOf(e)], BookStep(b, e, turn, prices);
      DayTotalMoves(b.records, place, after.records[place], day);
      if !e.payload.MemoryRecapped? {
        SameOnDay(after.records[place], b.records[place], day);
      }
    }
  }

  lemma SameOnDay(r: Record, r': Record, day: int)
    requires r.closedAt == r'.closedAt && r.cost == r'.cost
    ensures OnDay(r, day) == OnDay(r', day)
  {
  }

  /** What a turn's record adds to the day is what its last closing spends. */
  lemma RecordSpends(events: seq<Event>, key: TurnKey, prices: Prices, day: int)
    requires ClosingPlace(events, key).Some?
    ensures var b, i := Fold(events, prices).book, ClosingPlace(events, key).value;
            IsBooked(b, key) && OnDay(b.records[b.closed[key]], day) == Spends(events, i, prices, day)
  {
    hide Fold, ClosingPlace, OpenedBy, CostOfClosing;
    RecordCostIsTold(events, key, prices);
    ModelIsTold(events, key, prices);
    DayIsTheDay(events[ClosingPlace(events, key).value].time, day);
    hide IsOn, DayOf;
  }

  lemma {:induction false} TotalIsSpent(events: seq<Event>, prices: Prices, day: int)
    ensures DayTotal(Fold(events, prices).book.records, day) == SpentOn(events, |events|, prices, day)
  {
    hide DayTotal, OnDay, Spends, ClosingPlace, BookStep, OpenStep;
    if events == [] {
      NothingSpent(day);
    } else {
      var n := |events| - 1;
      TotalIsSpent(events[..n], prices, day);
      assert events == events[..n] + [events[n]];
      NextIsSpent(events[..n], events[n], prices, day);
    }
  }

  lemma NothingSpent(day: int)
    ensures DayTotal([], day) == 0.0
  {
  }

  lemma NextIsSpent(prefix: seq<Event>, e: Event, prices: Prices, day: int)
    requires DayTotal(Fold(prefix, prices).book.records, day) == SpentOn(prefix, |prefix|, prices, day)
    ensures DayTotal(Fold(prefix + [e], prices).book.records, day) == SpentOn(prefix + [e], |prefix| + 1, prices, day)
  {
    hide DayTotal, OnDay, Spends, ClosingPlace, BookStep, OpenStep;
    var events, n, key := prefix + [e], |prefix|, KeyOf(e);
    assert events[..n] == prefix && events[n] == e;
    var s := Fold(prefix, prices);
    FoldPlaced(prefix, prices);
    StepTotal(s.book, e, OpenTurn(s.open, key), prices, day);
    ClosedHasClosing(prefix, key, prices);
    PlaceOfLast(prefix, key);
    if IsClosing(e.payload) {
      SpentStays(prefix, e, n, prices, day);
      ClosingIsLast(prefix, e);
      RecordSpends(events, key, prices, day);
      NewestRecord(s.book, e, OpenTurn(s.open, key), prices);
    } else {
      NoClosingSpends(events, n, prices, day);
      if e.payload.MemoryRecapped? && key in s.book.closed {
        SpentMoves(prefix, e, n, prices, day);
        PlaceStays(prefix, e);
        RecordSpends(prefix, key, prices, day);
        RecordSpends(events, key, prices, day);
      } else {
        SpentStays(prefix, e, n, prices, day);
      }
    }
  }

  lemma NewestRecord(b: Book, e: Event, turn: Option<Turn>, prices: Prices)
    requires IsClosing(e.payload)
    ensures var after := BookStep(b, e, turn, prices); KeyOf(e) in after.closed && after.closed[KeyOf(e)] == |b.records|
  {
  }

  lemma NoClosingSpends(events: seq<Event>, i: nat, prices: Prices, day: int)
    requires i < |events| && !IsClosing(events[i].payload)
    ensures Spends(events, i, prices, day) == 0.0
  {
  }

  lemma ClosingIsLast(prefix: seq<Event>, e: Event)
    requires IsClosing(e.payload)
    ensures ClosingPlace(prefix + [e], KeyOf(e)) == Some(|prefix|)
  {
  }

  lemma PlaceStays(prefix: seq<Event>, e: Event)
    requires !IsClosing(e.payload)
    ensures ClosingPlace(prefix + [e], KeyOf(e)) == ClosingPlace(prefix, KeyOf(e))
  {
    assert (prefix + [e])[..|prefix|] == prefix;
  }

  // ---------------------------------------------------------------- the day

  lemma {:induction false} UnpricedAreOf(records: seq<Record>, unpriced: map<TurnKey, set<string>>, model: string)
    ensures model in UnpricedModels(records, unpriced) <==> exists r :: r in records && model in UnpricedOf(unpriced, r.key)
  {
    if records != [] {
      var n := |records| - 1;
      UnpricedAreOf(records[..n], unpriced, model);
      assert records == records[..n] + [records[n]];
    }
  }

  /** A turn that closed on a day. */
  ghost predicate ClosedThen(events: seq<Event>, key: TurnKey, day: int) {
    exists i :: 0 <= i < |events| && KeyOf(events[i]) == key && Closes(events[i].payload) && IsOn(events[i].time, day)
  }

  ghost predicate HasRecord(records: seq<Record>, key: TurnKey, day: int) {
    exists i :: 0 <= i < |records| && records[i].key == key && DayOf(records[i].closedAt) == day
  }

  lemma {:induction false} SizedKeys(records: seq<Record>, profiled: seq<(nat, string)>, sizes: map<string, int>)
    ensures var sized := SizeAll(records, profiled, sizes);
            forall i :: 0 <= i < |records| ==> sized[i].key == records[i].key && sized[i].closedAt == records[i].closedAt
  {
    if profiled != [] {
      SizedKeys(records, profiled[..|profiled| - 1], sizes);
    }
  }

  lemma HasRecordStep(b: Book, e: Event, turn: Option<Turn>, prices: Prices, key: TurnKey, day: int)
    requires Placed(b)
    ensures HasRecord(BookStep(b, e, turn, prices).records, key, day)
       <==> HasRecord(b.records, key, day) || (IsClosing(e.payload) && KeyOf(e) == key && DayOf(e.time) == day)
  {
    hide BookStep, DayOf;
    StepShape(b, e, turn, prices);
    hide Closed;
    var after := BookStep(b, e, turn, prices).records;
    assert forall i :: 0 <= i < |b.records| ==> after[i].key == b.records[i].key && after[i].closedAt == b.records[i].closedAt;
    if IsClosing(e.payload) {
      assert after[|b.records|].key == KeyOf(e) && after[|b.records|].closedAt == e.time;
    }
    if i :| 0 <= i < |b.records| && b.records[i].key == key && DayOf(b.records[i].closedAt) == day {
      assert after[i].key == key;
    }
  }

  lemma {:induction false} RecordsAreOfClosings(events: seq<Event>, prices: Prices, key: TurnKey, day: int)
    ensures HasRecord(Fold(events, prices).book.records, key, day) <==> ClosedThen(events, key, day)
  {
    hide HasRecord, BookStep, OpenStep, DayOf, IsOn;
    if events == [] {
      NoRecord(key, day);
    } else {
      var n := |events| - 1;
      var s, e := Fold(events[..n], prices), events[n];
      RecordsAreOfClosings(events[..n], prices, key, day);
      FoldPlaced(events[..n], prices);
      HasRecordStep(s.book, e, OpenTurn(s.open, KeyOf(e)), prices, key, day);
      DayIsTheDay(e.time, day);
      if i :| 0 <= i < n && KeyOf(events[..n][i]) == key && Closes(events[..n][i].payload) && IsOn(events[..n][i].time, day) {
        assert KeyOf(events[i]) == key;
      }
      if i :| 0 <= i < |events| && KeyOf(events[i]) == key && Closes(events[i].payload) && IsOn(events[i].time, day) {
        assert i < n ==> KeyOf(events[..n][i]) == key;
      }
    }
  }

  lemma NoRecord(key: TurnKey, day: int)
    ensures !HasRecord([], key, day)
  {
  }

  ghost predicate UnpricedThat(events: seq<Event>, day: int, model: string, prices: Prices) {
    exists key :: ClosedThen(events, key, day) && LeftUnpriced(events, key, model, prices)
  }

  lemma DayRecords(s: State, key: TurnKey, day: int)
    ensures HasRecord(s.book.records, key, day)
       <==> exists r :: r in Filter(ResultOf(s).records, ClosedOnDay(day)) && r.key == key
  {
    hide DayOf;
    var records := ResultOf(s).records;
    SizedKeys(s.book.records, s.book.profiled, s.sizes);
    hide SizeAll;
    FilterMembers(records, ClosedOnDay(day));
    if i :| 0 <= i < |s.book.records| && s.book.records[i].key == key && DayOf(s.book.records[i].closedAt) == day {
      assert records[i] in Filter(records, ClosedOnDay(day));
    }
    if r :| r in Filter(records, ClosedOnDay(day)) && r.key == key {
      var i :| 0 <= i < |records| && records[i] == r;
      assert s.book.records[i].key == key;
    }
  }

  lemma UnpricedOfTheDay(events: seq<Event>, prices: Prices, day: int, model: string)
    ensures model in CostOn(events, prices, day).unpriced <==> UnpricedThat(events, day, model, prices)
  {
    hide Fold, ClosedThen, LeftUnpriced, HasRecord, UnpricedOf, SizeAll, Filter, UnpricedModels;
    var s := Fold(events, prices);
    var records := Filter(ResultOf(s).records, ClosedOnDay(day));
    UnpricedAreOf(records, s.book.unpriced, model);
    forall key
      ensures ClosedThen(events, key, day) && LeftUnpriced(events, key, model, prices)
         <==> (exists r :: r in records && r.key == key) && model in UnpricedOf(s.book.unpriced, key)
    {
      RecordsAreOfClosings(events, prices, key, day);
      DayRecords(s, key, day);
      UnpricedAreLeft(events, key, model, prices);
    }
  }

  /** A day's cost is the sum of what its closings cost, those of no known cost adding nothing; and the models
      without a price are those of the turns that closed on the day, their recaps included. */
  lemma {:induction false} DailyCostIsSpent(events: seq<Event>, prices: Prices, day: int)
    ensures CostOn(events, prices, day).usd == SpentOn(events, |events|, prices, day)
    ensures forall model :: model in CostOn(events, prices, day).unpriced <==> UnpricedThat(events, day, model, prices)
  {
    hide Fold, SizeAll, SpentOn, UnpricedThat, CostOn;
    var s := Fold(events, prices);
    TotalIsSpent(events, prices, day);
    SizingCostsNothing(s.book.records, s.book.profiled, s.sizes, day);
    CostIsDayTotal(events, prices, day);
    forall model ensures model in CostOn(events, prices, day).unpriced <==> UnpricedThat(events, day, model, prices) {
      UnpricedOfTheDay(events, prices, day, model);
    }
  }

  lemma CostIsDayTotal(events: seq<Event>, prices: Prices, day: int)
    ensures var s := Fold(events, prices);
            CostOn(events, prices, day).usd == DayTotal(SizeAll(s.book.records, s.book.profiled, s.sizes), day)
  {
  }

  /** The bounded read of the daily budget gives that sum, and those models, of the whole log. */
  lemma {:induction false} BoundedReadIsSpent(log: seq<Event>, prices: Prices, day: int)
    requires WellFormedTurns(log)
    ensures CostOn(ClosedOn(log, day), prices, day).usd == SpentOn(log, |log|, prices, day)
    ensures forall model :: model in CostOn(ClosedOn(log, day), prices, day).unpriced <==> UnpricedThat(log, day, model, prices)
  {
    hide CostOn, SpentOn, UnpricedThat, ClosedOn;
    ClosedOnCosts(log, day, prices);
    DailyCostIsSpent(log, prices, day);
  }
}
