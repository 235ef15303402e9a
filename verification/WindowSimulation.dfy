/** Two folds of the same events, started from states that agree on what matters later, add the same
    records, warnings and runs. */
module WindowSimulation {
  import opened Events
  import opened Pricing
  import opened Metrics
  import opened MetricsWindow
  import opened WindowProof

  // ---------------------------------------------------------------- tails

  /** From place `m` of one and `n` of the other, two sequences are the same. */
  ghost predicate SameTail<T>(a: seq<T>, m: nat, b: seq<T>, n: nat) {
    m <= |a| && n <= |b| && a[m..] == b[n..]
  }

  lemma TailSnoc<T>(a: seq<T>, m: nat, b: seq<T>, n: nat, x: T)
    requires SameTail(a, m, b, n)
    ensures SameTail(a + [x], m, b + [x], n)
  {
    assert (a + [x])[m..] == a[m..] + [x];
    assert (b + [x])[n..] == b[n..] + [x];
  }

  /** The same change at the same distance from the two tails' starts keeps them the same. */
  lemma TailUpdate<T>(a: seq<T>, m: nat, b: seq<T>, n: nat, i: nat, j: nat, x: T)
    requires SameTail(a, m, b, n) && m <= i < |a| && n <= j && i - m == j - n
    ensures j < |b| && a[i] == b[j] && SameTail(a[i := x], m, b[j := x], n)
  {
    assert |a[m..]| == |b[n..]|;
    assert a[m..][i - m] == b[n..][j - n];
    assert a[i := x][m..] == a[m..][i - m := x];
    assert b[j := x][n..] == b[n..][j - n := x];
  }

  lemma HeadUpdate<T>(a: seq<T>, m: nat, b: seq<T>, n: nat, i: nat, x: T)
    requires SameTail(a, m, b, n) && i < m
    ensures SameTail(a[i := x], m, b, n)
    ensures SameTail(b, n, a, m)
  {
    assert a[i := x][m..] == a[m..];
  }

  // ---------------------------------------------------------------- the books

  /** Where a state's sequences ended when the window began. */
  datatype Cut = Cut(records: nat, mismatches: nat, profiled: nat, stepRuns: nat, recaps: nat, recalls: nat)

  function CutOf(s: State): Cut {
    Cut(|s.book.records|, |s.book.mismatches|, |s.book.profiled|, |s.stepRuns|, |s.runRecaps|, |s.runRecalls|)
  }

  /** A turn that closed since the cut. */
  predicate Recent(b: Book, cut: nat, key: TurnKey) {
    key in b.closed && b.closed[key] >= cut
  }

  /** A turn closed since the cut in one book is at the same distance from the cut in the other, and
      closed with the same totals and unpriced models. */
  ghost predicate SameClosing(b: Book, m: nat, b': Book, n: nat, key: TurnKey) {
    && (Recent(b, m, key) <==> Recent(b', n, key))
    && (Recent(b, m, key) ==>
          && b.closed[key] - m == b'.closed[key] - n
          && key in b.totals && key in b'.totals && b.totals[key] == b'.totals[key]
          && UnpricedOf(b.unpriced, key) == UnpricedOf(b'.unpriced, key))
  }

  ghost predicate SameClosings(b: Book, m: nat, b': Book, n: nat) {
    forall key :: SameClosing(b, m, b', n, key)
  }

  /** From the cuts on, the same profiles are to be sized, each at the same distance. */
  ghost predicate SameProfiles(p: seq<(nat, string)>, x: nat, m: nat, p': seq<(nat, string)>, y: nat, n: nat) {
    && x <= |p| && y <= |p'| && |p| - x == |p'| - y
    && (forall i :: 0 <= i < x ==> p[i].0 < m)
    && (forall i :: 0 <= i < y ==> p'[i].0 < n)
    && (forall i :: x <= i < |p| ==> p[i].0 >= m && p'[i - x + y] == (p[i].0 - m + n, p[i].1))
  }

  ghost predicate UnpricedAreClosed(b: Book) {
    b.unpriced.Keys <= b.closed.Keys
  }

  ghost predicate SameBooks(b: Book, c: Cut, b': Book, c': Cut) {
    && SameTail(b.records, c.records, b'.records, c'.records)
    && SameTail(b.mismatches, c.mismatches, b'.mismatches, c'.mismatches)
    && SameProfiles(b.profiled, c.profiled, c.records, b'.profiled, c'.profiled, c'.records)
    && SameClosings(b, c.records, b', c'.records)
    && b'.closed.Keys <= b.closed.Keys
    && UnpricedAreClosed(b) && UnpricedAreClosed(b')
  }

  lemma ProfileSnoc(p: seq<(nat, string)>, x: nat, m: nat, p': seq<(nat, string)>, y: nat, n: nat,
                    place: nat, place': nat, version: string)
    requires SameProfiles(p, x, m, p', y, n) && place >= m && place' >= n && place - m == place' - n
    ensures SameProfiles(p + [(place, version)], x, m, p' + [(place', version)], y, n)
  {
  }

  lemma ClosingSameClosing(b: Book, m: nat, b': Book, n: nat, e: Event, turn: Option<Turn>, prices: Prices, key: TurnKey)
    requires SameClosing(b, m, b', n, key) && m <= |b.records| && n <= |b'.records| && |b.records| - m == |b'.records| - n
    requires IsClosing(e.payload)
    requires UnpricedOf(b.unpriced, KeyOf(e)) == UnpricedOf(b'.unpriced, KeyOf(e))
    ensures SameClosing(BookClosing(b, e, turn, prices), m, BookClosing(b', e, turn, prices), n, key)
  {
  }

  lemma ClosingSameClosings(b: Book, m: nat, b': Book, n: nat, e: Event, turn: Option<Turn>, prices: Prices)
    requires SameClosings(b, m, b', n) && SameTail(b.records, m, b'.records, n)
    requires UnpricedAreClosed(b) && UnpricedAreClosed(b')
    requires IsClosing(e.payload) && KeyOf(e) !in b.closed && KeyOf(e) !in b'.closed
    ensures SameClosings(BookClosing(b, e, turn, prices), m, BookClosing(b', e, turn, prices), n)
  {
    assert |b.records[m..]| == |b'.records[n..]|;
    forall key ensures SameClosing(BookClosing(b, e, turn, prices), m, BookClosing(b', e, turn, prices), n, key) {
      assert SameClosing(b, m, b', n, key);
      ClosingSameClosing(b, m, b', n, e, turn, prices, key);
    }
  }

  lemma ClosingSameProfiles(b: Book, c: Cut, b': Book, c': Cut, e: Event, turn: Option<Turn>, prices: Prices)
    requires SameProfiles(b.profiled, c.profiled, c.records, b'.profiled, c'.profiled, c'.records)
    requires c.records <= |b.records| && c'.records <= |b'.records| && |b.records| - c.records == |b'.records| - c'.records
    requires IsClosing(e.payload)
    ensures SameProfiles(BookClosing(b, e, turn, prices).profiled, c.profiled, c.records,
                         BookClosing(b', e, turn, prices).profiled, c'.profiled, c'.records)
  {
    hide SameProfiles, Closed, PriceOf, AddUnpriced;
    if turn.Some? && turn.value.profileVersion.Some? {
      ProfileSnoc(b.profiled, c.profiled, c.records, b'.profiled, c'.profiled, c'.records,
                  |b.records|, |b'.records|, turn.value.profileVersion.value);
    }
  }

  lemma ClosingUnpriced(b: Book, e: Event, turn: Option<Turn>, prices: Prices)
    requires UnpricedAreClosed(b) && IsClosing(e.payload)
    ensures UnpricedAreClosed(BookClosing(b, e, turn, prices))
  {
    hide Closed, PriceOf;
  }

  lemma ClosingSameBooks(b: Book, c: Cut, b': Book, c': Cut, e: Event, turn: Option<Turn>, prices: Prices)
    requires Placed(b) && Placed(b') && SameBooks(b, c, b', c')
    requires IsClosing(e.payload) && KeyOf(e) !in b.closed
    ensures SameBooks(BookClosing(b, e, turn, prices), c, BookClosing(b', e, turn, prices), c')
  {
    assert |b.records[c.records..]| == |b'.records[c'.records..]|;
    hide Placed, Closed, PriceOf, AddUnpriced, SameTail, SameProfiles, SameClosings, UnpricedAreClosed;
    TailSnoc(b.records, c.records, b'.records, c'.records, Closed(e, turn, prices));
    TailSnoc(b.mismatches, c.mismatches, b'.mismatches, c'.mismatches, KeyOf(e));
    ClosingSameProfiles(b, c, b', c', e, turn, prices);
    ClosingSameClosings(b, c.records, b', c'.records, e, turn, prices);
    ClosingUnpriced(b, e, turn, prices);
    ClosingUnpriced(b', e, turn, prices);
  }

  /** A book whose records or unpriced models changed only for one closed turn. */
  ghost predicate Rewrites(b: Book, after: Book, key: TurnKey) {
    && after.closed == b.closed && after.totals == b.totals && after.mismatches == b.mismatches && after.profiled == b.profiled
    && key in b.closed && b.closed[key] < |b.records|
    && |after.records| == |b.records|
    && after.records == b.records[b.closed[key] := after.records[b.closed[key]]]
    && (after.unpriced == b.unpriced || after.unpriced == b.unpriced[key := UnpricedOf(after.unpriced, key)])
  }

  /** Rewriting a turn that closed before the cut is not seen from the other book. */
  lemma OldRewrite(b: Book, after: Book, c: Cut, b': Book, c': Cut, key: TurnKey)
    requires SameBooks(b, c, b', c') && Rewrites(b, after, key) && !Recent(b, c.records, key)
    ensures SameBooks(after, c, b', c')
  {
    HeadUpdate(b.records, c.records, b'.records, c'.records, b.closed[key], after.records[b.closed[key]]);
    forall k ensures SameClosing(after, c.records, b', c'.records, k) {
      assert SameClosing(b, c.records, b', c'.records, k);
    }
  }

  lemma OldRewriteOther(b: Book, c: Cut, b': Book, after': Book, c': Cut, key: TurnKey)
    requires SameBooks(b, c, b', c') && Rewrites(b', after', key) && !Recent(b', c'.records, key)
    ensures SameBooks(b, c, after', c')
  {
    assert after'.records[c'.records..] == b'.records[c'.records..];
    forall k ensures SameClosing(b, c.records, after', c'.records, k) {
      assert SameClosing(b, c.records, b', c'.records, k);
    }
  }

  lemma RecentRewrite(b: Book, after: Book, c: Cut, b': Book, after': Book, c': Cut, key: TurnKey)
    requires SameBooks(b, c, b', c') && Rewrites(b, after, key) && Rewrites(b', after', key) && Recent(b, c.records, key)
    requires after.records[b.closed[key]] == after'.records[b'.closed[key]]
    requires UnpricedOf(after.unpriced, key) == UnpricedOf(after'.unpriced, key)
    ensures SameBooks(after, c, after', c')
  {
    assert SameClosing(b, c.records, b', c'.records, key);
    TailUpdate(b.records, c.records, b'.records, c'.records, b.closed[key], b'.closed[key], after.records[b.closed[key]]);
    forall k ensures SameClosing(after, c.records, after', c'.records, k) {
      assert SameClosing(b, c.records, b', c'.records, k);
    }
  }

  /** What a recap or a rating makes of a closed turn's record. */
  function Rewritten(r: Record, main: Tokens, e: Event, prices: Prices): Record
    requires e.payload.MemoryRecapped? || e.payload.TurnRated?
  {
    if e.payload.TurnRated? then r.(rating := Some(e.payload.good))
    else if r.outcome == NoWork then r
    else Recapped(r, main, e.payload.tokens, e.payload.recapModel, prices)
  }

  function RewrittenModels(models: set<string>, r: Record, e: Event, prices: Prices): set<string>
    requires e.payload.MemoryRecapped? || e.payload.TurnRated?
  {
    var p := e.payload;
    if p.MemoryRecapped? && r.outcome != NoWork && RecapCost(p.tokens, p.recapModel, prices).None? && p.recapModel.Some?
    then models + {p.recapModel.value} else models
  }

  lemma RatingRewrites(b: Book, e: Event)
    requires IsBooked(b, KeyOf(e)) && e.payload.TurnRated?
    ensures var key, after := KeyOf(e), BookRating(b, e);
            && Rewrites(b, after, key) && after.unpriced == b.unpriced
            && after.records[b.closed[key]] == b.records[b.closed[key]].(rating := Some(e.payload.good))
  {
  }

  lemma RecapRewrites(b: Book, e: Event, prices: Prices)
    requires IsBooked(b, KeyOf(e)) && e.payload.MemoryRecapped?
    ensures var key, after := KeyOf(e), BookRecap(b, e, prices);
            && Rewrites(b, after, key)
            && after.records[b.closed[key]] == Rewritten(b.records[b.closed[key]], b.totals[key], e, prices)
            && UnpricedOf(after.unpriced, key)
               == RewrittenModels(UnpricedOf(b.unpriced, key), b.records[b.closed[key]], e, prices)
  {
    hide Recapped, RecapCost;
  }

  /** It depends only on the turn's record, its totals and its unpriced models. */
  lemma StepRewrites(b: Book, e: Event, prices: Prices)
    requires Placed(b) && KeyOf(e) in b.closed
    requires e.payload.MemoryRecapped? || e.payload.TurnRated?
    ensures var key, after := KeyOf(e), BookStep(b, e, None, prices);
            && Rewrites(b, after, key)
            && after.records[b.closed[key]] == Rewritten(b.records[b.closed[key]], b.totals[key], e, prices)
            && UnpricedOf(after.unpriced, key)
               == RewrittenModels(UnpricedOf(b.unpriced, key), b.records[b.closed[key]], e, prices)
  {
    hide Rewrites, BookRecap, BookRating, Recapped, RecapCost, UnpricedOf;
    if e.payload.TurnRated? {
      RatingRewrites(b, e);
    } else {
      RecapRewrites(b, e, prices);
    }
  }

  lemma StepElsewhere(b: Book, e: Event, prices: Prices)
    requires KeyOf(e) !in b.closed && !IsClosing(e.payload)
    ensures BookStep(b, e, None, prices) == b
  {
  }

  lemma RecentSameBooks(b: Book, c: Cut, b': Book, c': Cut, e: Event, prices: Prices)
    requires Placed(b) && Placed(b') && SameBooks(b, c, b', c') && Recent(b, c.records, KeyOf(e))
    requires e.payload.MemoryRecapped? || e.payload.TurnRated?
    ensures SameBooks(BookStep(b, e, None, prices), c, BookStep(b', e, None, prices), c')
  {
    var key := KeyOf(e);
    assert SameClosing(b, c.records, b', c'.records, key);
    TailUpdate(b.records, c.records, b'.records, c'.records, b.closed[key], b'.closed[key], b.records[b.closed[key]]);
    StepRewrites(b, e, prices);
    StepRewrites(b', e, prices);
    RecentRewrite(b, BookStep(b, e, None, prices), c, b', BookStep(b', e, None, prices), c', key);
  }

  lemma OldSameBooks(b: Book, c: Cut, b': Book, c': Cut, e: Event, prices: Prices)
    requires Placed(b) && SameBooks(b, c, b', c') && !Recent(b, c.records, KeyOf(e))
    requires e.payload.MemoryRecapped? || e.payload.TurnRated?
    ensures SameBooks(BookStep(b, e, None, prices), c, b', c')
  {
    if KeyOf(e) in b.closed {
      StepRewrites(b, e, prices);
      OldRewrite(b, BookStep(b, e, None, prices), c, b', c', KeyOf(e));
    } else {
      StepElsewhere(b, e, prices);
    }
  }

  lemma OldSameOtherBook(b: Book, c: Cut, b': Book, c': Cut, e: Event, prices: Prices)
    requires Placed(b') && SameBooks(b, c, b', c') && !Recent(b', c'.records, KeyOf(e))
    requires e.payload.MemoryRecapped? || e.payload.TurnRated?
    ensures SameBooks(b, c, BookStep(b', e, None, prices), c')
  {
    if KeyOf(e) in b'.closed {
      StepRewrites(b', e, prices);
      OldRewriteOther(b, c, b', BookStep(b', e, None, prices), c', KeyOf(e));
    } else {
      StepElsewhere(b', e, prices);
    }
  }

  /** Both books see the same recap or rating of a turn: the same change when it closed since the cuts, and
      none past them otherwise. */
  lemma RewritesSameBooks(b: Book, c: Cut, b': Book, c': Cut, e: Event, prices: Prices)
    requires Placed(b) && Placed(b') && SameBooks(b, c, b', c')
    requires e.payload.MemoryRecapped? || e.payload.TurnRated?
    ensures SameBooks(BookStep(b, e, None, prices), c, BookStep(b', e, None, prices), c')
  {
    assert SameClosing(b, c.records, b', c'.records, KeyOf(e));
    if Recent(b, c.records, KeyOf(e)) {
      RecentSameBooks(b, c, b', c', e, prices);
    } else {
      OldSameBooks(b, c, b', c', e, prices);
      OldSameOtherBook(BookStep(b, e, None, prices), c, b', c', e, prices);
    }
  }
}
