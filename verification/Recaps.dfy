/** However many recaps follow a turn's closing, its record counts the closing and the last recap. */
module Recaps {
  import opened Events
  import opened Pricing
  import opened Metrics

  /** The turn's last closing. */
  function LastClosing(events: seq<Event>, key: TurnKey): Option<Event> {
    if events == [] then None
    else
      var e := events[|events| - 1];
      if IsClosing(e.payload) && KeyOf(e) == key then Some(e) else LastClosing(events[..|events| - 1], key)
  }

  /** The turn's last recap since its last closing. */
  function LastRecap(events: seq<Event>, key: TurnKey): Option<Event> {
    if events == [] then None
    else
      var e := events[|events| - 1];
      if KeyOf(e) == key && IsClosing(e.payload) then None
      else if KeyOf(e) == key && e.payload.MemoryRecapped? then Some(e)
      else LastRecap(events[..|events| - 1], key)
  }

  /** A record counts its turn's closing totals, and the last recap on top when the turn worked. */
  ghost predicate Counts(r: Record, closing: Event, recap: Option<Event>, prices: Prices) {
    && IsClosing(closing.payload)
    && r.outcome == OutcomeOf(closing.payload)
    && var main, price := closing.payload.tokens, PriceOf(prices, r.model);
       if r.outcome == NoWork then
         r.tokens == main && r.recapInput == 0 && r.recapOutput == 0 && r.cost == Some(0.0)
       else if recap.None? then
         && r.tokens == main && r.recapInput == 0 && r.recapOutput == 0
         && r.cost == if price.Some? then Some(TokenCost(main, price.value)) else None
       else
         && recap.value.payload.MemoryRecapped?
         && var p := recap.value.payload;
            var recapCost := RecapCost(p.tokens, p.recapModel, prices);
            && r.tokens == AddTokens(main, p.tokens)
            && r.recapInput == p.tokens.input && r.recapOutput == p.tokens.output
            && r.cost == if price.Some? && recapCost.Some? then Some(TokenCost(main, price.value) + recapCost.value) else None
  }

  ghost predicate TurnCounted(b: Book, events: seq<Event>, key: TurnKey, prices: Prices) {
    key in b.closed ==>
      && LastClosing(events, key).Some? && IsBooked(b, key)
      && IsClosing(LastClosing(events, key).value.payload)
      && b.totals[key] == LastClosing(events, key).value.payload.tokens
      && Counts(b.records[b.closed[key]], LastClosing(events, key).value, LastRecap(events, key), prices)
  }

  lemma ClosingCounts(e: Event, turn: Option<Turn>, prices: Prices)
    requires IsClosing(e.payload)
    ensures Counts(Closed(e, turn, prices), e, None, prices)
  {
  }

  lemma RecapCounts(r: Record, closing: Event, before: Option<Event>, recap: Event, prices: Prices)
    requires Counts(r, closing, before, prices) && r.outcome == Work && recap.payload.MemoryRecapped?
    ensures Counts(Recapped(r, closing.payload.tokens, recap.payload.tokens, recap.payload.recapModel, prices),
                   closing, Some(recap), prices)
  {
  }

  lemma StepElsewhereCounts(b: Book, e: Event, turn: Option<Turn>, prices: Prices, key: TurnKey)
    requires Placed(b) && key in b.closed && KeyOf(e) != key
    ensures var after := BookStep(b, e, turn, prices);
            && key in after.closed && after.closed[key] == b.closed[key] && IsBooked(after, key)
            && after.records[after.closed[key]] == b.records[b.closed[key]] && after.totals[key] == b.totals[key]
  {
    hide RecapCost, Recapped, Closed, AddUnpriced, OutcomeOf, PriceOf;
  }

  lemma StepElsewhereUnbooked(b: Book, e: Event, turn: Option<Turn>, prices: Prices, key: TurnKey)
    requires key !in b.closed && KeyOf(e) != key
    ensures key !in BookStep(b, e, turn, prices).closed
  {
  }

  lemma RatingCounts(r: Record, closing: Event, recap: Option<Event>, prices: Prices, rating: Option<bool>)
    requires Counts(r, closing, recap, prices)
    ensures Counts(r.(rating := rating), closing, recap, prices)
  {
  }

  /** A turn without work takes no recap. */
  lemma NoWorkCounts(r: Record, closing: Event, before: Option<Event>, recap: Option<Event>, prices: Prices)
    requires Counts(r, closing, before, prices) && r.outcome == NoWork
    ensures Counts(r, closing, recap, prices)
  {
  }

  lemma OwnStepCounts(b: Book, events: seq<Event>, e: Event, turn: Option<Turn>, prices: Prices)
    requires Placed(b) && TurnCounted(b, events, KeyOf(e), prices)
    ensures TurnCounted(BookStep(b, e, turn, prices), events + [e], KeyOf(e), prices)
  {
    hide Counts, Recapped, RecapCost, Closed, AddUnpriced;
    var key := KeyOf(e);
    assert (events + [e])[..|events|] == events;
    if IsClosing(e.payload) {
      ClosingCounts(e, turn, prices);
    } else if key in b.closed {
      var r, closing, recap := b.records[b.closed[key]], LastClosing(events, key).value, LastRecap(events, key);
      if e.payload.TurnRated? {
        RatingCounts(r, closing, recap, prices, Some(e.payload.good));
      } else if e.payload.MemoryRecapped? && r.outcome == NoWork {
        NoWorkCounts(r, closing, recap, Some(e), prices);
      } else if e.payload.MemoryRecapped? {
        RecapCounts(r, closing, recap, e, prices);
      }
    }
  }

  lemma StepCounts(b: Book, events: seq<Event>, e: Event, turn: Option<Turn>, prices: Prices, key: TurnKey)
    requires Placed(b) && TurnCounted(b, events, key, prices)
    ensures TurnCounted(BookStep(b, e, turn, prices), events + [e], key, prices)
  {
    hide Counts, BookClosing, BookRecap;
    assert (events + [e])[..|events|] == events;
    if KeyOf(e) == key {
      OwnStepCounts(b, events, e, turn, prices);
    } else if key in b.closed {
      StepElsewhereCounts(b, e, turn, prices, key);
    } else {
      assert key !in BookStep(b, e, turn, prices).closed by {
        StepElsewhereUnbooked(b, e, turn, prices, key);
      }
    }
  }

  /** For every log and turn, the turn's record counts its last closing and the last recap since. */
  lemma {:induction false} RecordCounts(events: seq<Event>, key: TurnKey, prices: Prices)
    ensures TurnCounted(Fold(events, prices).book, events, key, prices)
  {
    if events != [] {
      var n := |events| - 1;
      var s := Fold(events[..n], prices);
      RecordCounts(events[..n], key, prices);
      FoldPlaced(events[..n], prices);
      StepCounts(s.book, events[..n], events[n], OpenTurn(s.open, KeyOf(events[n])), prices, key);
      assert events[..n] + [events[n]] == events;
    }
  }

  /** When the last recap ran at the turn's own model, and it is priced, the record's cost is that of the
      tokens it shows. */
  lemma {:induction false} CostOfShownTokens(events: seq<Event>, key: TurnKey, prices: Prices)
    requires var s := Fold(events, prices);
             && key in s.book.closed && IsBooked(s.book, key)
             && var r := s.book.records[s.book.closed[key]];
                && r.outcome == Work && PriceOf(prices, r.model).Some?
                && LastRecap(events, key).Some?
                && LastRecap(events, key).value.payload.MemoryRecapped?
                && LastRecap(events, key).value.payload.recapModel == r.model
    ensures var b := Fold(events, prices).book;
            var r := b.records[b.closed[key]];
            r.cost == Some(TokenCost(r.tokens, PriceOf(prices, r.model).value))
  {
    RecordCounts(events, key, prices);
    hide Fold, LastClosing, LastRecap;
    var b := Fold(events, prices).book;
    var r := b.records[b.closed[key]];
    TokenCostAdds(LastClosing(events, key).value.payload.tokens, LastRecap(events, key).value.payload.tokens,
                  PriceOf(prices, r.model).value);
  }
}
