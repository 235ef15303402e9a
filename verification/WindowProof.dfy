/** Folding the window reports what folding the whole log reports. Past the window's start the two folds
    run side by side: they agree on the turns the window knows, and what each adds from there is the same. */
module WindowProof {
  import opened Events
  import opened Pricing
  import opened Metrics
  import opened MetricsWindow

  // ---------------------------------------------------------------- well-formed logs

  /** A turn closes at most once. */
  ghost predicate ClosesOnce(log: seq<Event>) {
    forall i, j :: 0 <= i < j < |log| && IsClosing(log[i].payload) && IsClosing(log[j].payload) ==> KeyOf(log[i]) != KeyOf(log[j])
  }

  /** No turn closes on the thread of a run that stops: a factory run's id is no turn's thread. */
  ghost predicate RunsApart(log: seq<Event>) {
    forall i, j :: 0 <= i < |log| && 0 <= j < |log| && log[i].payload.RunStopped? && IsClosing(log[j].payload)
      ==> log[i].thread != log[j].thread
  }

  // ---------------------------------------------------------------- folding on from a state

  function FoldFrom(s: State, events: seq<Event>, prices: Prices): State {
    if events == [] then s
    else Step(FoldFrom(s, events[..|events| - 1], prices), events[|events| - 1], prices)
  }

  lemma {:induction false} FoldSplits(a: seq<Event>, b: seq<Event>, prices: Prices)
    ensures Fold(a + b, prices) == FoldFrom(Fold(a, prices), b, prices)
  {
    if b == [] {
      assert a + b == a;
    } else {
      var n := |b| - 1;
      assert (a + b)[..|a + b| - 1] == a + b[..n];
      FoldSplits(a, b[..n], prices);
    }
  }

  /** Events of no metrics type change nothing. */
  lemma StepSkips(s: State, e: Event, prices: Prices)
    requires !MetricType(e.payload)
    ensures Step(s, e, prices) == s
  {
  }

  function MetricsOnly(): Event -> bool {
    (e: Event) => MetricType(e.payload)
  }

  lemma {:induction false} FoldSkips(s: State, events: seq<Event>, prices: Prices)
    ensures FoldFrom(s, Filter(events, MetricsOnly()), prices) == FoldFrom(s, events, prices)
  {
    if events != [] {
      var n := |events| - 1;
      FoldSkips(s, events[..n], prices);
      var kept := Filter(events[..n], MetricsOnly());
      if MetricsOnly()(events[n]) {
        assert (kept + [events[n]])[..|kept|] == kept;
      } else {
        StepSkips(FoldFrom(s, events[..n], prices), events[n], prices);
      }
    }
  }

  // ---------------------------------------------------------------- an open turn depends on its own events

  function OwnEvents(key: TurnKey): Event -> bool {
    (e: Event) => KeyOf(e) == key && TurnType(e.payload)
  }

  function OpenAfter(events: seq<Event>, key: TurnKey): Option<Turn> {
    if events == [] then None
    else
      var before, e := OpenAfter(events[..|events| - 1], key), events[|events| - 1];
      var open := if before.Some? then map[key := before.value] else map[];
      OpenTurn(OpenStep(open, e), key)
  }

  lemma OpenStepLocal(open: map<TurnKey, Turn>, own: map<TurnKey, Turn>, e: Event, key: TurnKey)
    requires OpenTurn(open, key) == OpenTurn(own, key)
    ensures OpenTurn(OpenStep(open, e), key)
         == if OwnEvents(key)(e) then OpenTurn(OpenStep(own, e), key) else OpenTurn(open, key)
  {
  }

  lemma {:induction false} OpenIsLocal(events: seq<Event>, key: TurnKey, prices: Prices)
    ensures OpenTurn(Fold(events, prices).open, key) == OpenAfter(Filter(events, OwnEvents(key)), key)
  {
    if events != [] {
      var n := |events| - 1;
      OpenIsLocal(events[..n], key, prices);
      var kept := Filter(events[..n], OwnEvents(key));
      var before := OpenAfter(kept, key);
      var own := if before.Some? then map[key := before.value] else map[];
      OpenStepLocal(Fold(events[..n], prices).open, own, events[n], key);
      if OwnEvents(key)(events[n]) {
        assert (kept + [events[n]])[..|kept|] == kept;
      }
    }
  }

  // ---------------------------------------------------------------- runs stopped and profiles counted

  function StateOnly(): Event -> bool {
    (e: Event) => StateType(e.payload)
  }

  lemma StateStep(s: State, t: State, e: Event, prices: Prices)
    requires s.stopped == t.stopped && s.sizes == t.sizes
    ensures Step(s, e, prices).stopped == Step(t, e, prices).stopped && Step(s, e, prices).sizes == Step(t, e, prices).sizes
    ensures !StateType(e.payload) ==> Step(s, e, prices).stopped == s.stopped && Step(s, e, prices).sizes == s.sizes
  {
  }

  lemma {:induction false} StateIsLocal(events: seq<Event>, prices: Prices)
    ensures var kept := Filter(events, StateOnly());
            && Fold(events, prices).stopped == Fold(kept, prices).stopped
            && Fold(events, prices).sizes == Fold(kept, prices).sizes
  {
    if events != [] {
      var n := |events| - 1;
      StateIsLocal(events[..n], prices);
      var kept := Filter(events[..n], StateOnly());
      StateStep(Fold(events[..n], prices), Fold(kept, prices), events[n], prices);
      assert (kept + [events[n]])[..|kept|] == kept;
    }
  }

  // ---------------------------------------------------------------- the turns the window knows

  lemma {:induction false} EarlierSkips(events: seq<Event>)
    ensures EarlierTurns(Filter(events, JoinedOnly())) == EarlierTurns(events)
    ensures StartedIn(Filter(events, JoinedOnly())) == StartedIn(events)
  {
    FilterMembers(events, JoinedOnly());
    if events != [] {
      var n := |events| - 1;
      EarlierSkips(events[..n]);
      var kept := Filter(events[..n], JoinedOnly());
      if JoinedOnly()(events[n]) {
        assert (kept + [events[n]])[..|kept|] == kept;
      }
    }
  }

  function JoinedOnly(): Event -> bool {
    (e: Event) => JoinedType(e.payload)
  }

  /** Every joined event but a start is of a turn the window replays, or one that started in it before. */
  lemma {:induction false} JoinedIsKnown(events: seq<Event>, i: nat)
    requires i < |events| && JoinedType(events[i].payload) && !events[i].payload.TurnStarted?
    ensures KeyOf(events[i]) in EarlierTurns(events) || KeyOf(events[i]) in StartedIn(events[..i])
  {
    var n := |events| - 1;
    if i < n {
      JoinedIsKnown(events[..n], i);
      assert events[..n][..i] == events[..i];
    }
  }

  lemma {:induction false} EarlierAreDistinct(events: seq<Event>)
    ensures forall i, j :: 0 <= i < j < |EarlierTurns(events)| ==> EarlierTurns(events)[i] != EarlierTurns(events)[j]
  {
    if events != [] {
      EarlierAreDistinct(events[..|events| - 1]);
    }
  }

  // ---------------------------------------------------------------- what a replay holds

  function OwnBefore(key: TurnKey, since: int): Event -> bool {
    (e: Event) => e.time < since && KeyOf(e) == key && TurnType(e.payload)
  }

  lemma ReplayIsOwn(log: seq<Event>, key: TurnKey, since: int)
    ensures Replay(log, key, since) == Filter(log, OwnBefore(key, since))
    ensures forall e :: e in Replay(log, key, since) ==> e in log && e.time < since && KeyOf(e) == key && TurnType(e.payload)
  {
    assert key == TurnKey(key.thread, key.turn);
    FilterTwice(log, InTurn(key.turn), Replayed(key, since), OwnBefore(key, since));
    FilterMembers(log, OwnBefore(key, since));
  }

  lemma {:induction false} ReplaysMembers(log: seq<Event>, keys: seq<TurnKey>, since: int, e: Event)
    requires e in Replays(log, keys, since)
    ensures e in log && e.time < since && TurnType(e.payload)
  {
    var n := |keys| - 1;
    if e in Replay(log, keys[n], since) {
      ReplayIsOwn(log, keys[n], since);
    } else {
      ReplaysMembers(log, keys[..n], since, e);
    }
  }

  /** One turn's replay holds its own events, and another's none. */
  lemma ReplayOwn(log: seq<Event>, replayed: TurnKey, key: TurnKey, since: int)
    ensures Filter(Replay(log, replayed, since), OwnEvents(key)) == if replayed == key then Filter(log, OwnBefore(key, since)) else []
  {
    ReplayIsOwn(log, replayed, since);
    hide Replay, Filter;
    if replayed == key {
      FilterAll(Replay(log, replayed, since), OwnEvents(key));
    } else {
      FilterNone(Replay(log, replayed, since), OwnEvents(key));
    }
  }

  lemma {:induction false} ReplaysOwn(log: seq<Event>, keys: seq<TurnKey>, key: TurnKey, since: int)
    requires forall i, j :: 0 <= i < j < |keys| ==> keys[i] != keys[j]
    ensures Filter(Replays(log, keys, since), OwnEvents(key))
         == if key in keys then Filter(log, OwnBefore(key, since)) else []
  {
    hide Filter, Replay, OwnEvents, OwnBefore;
    if keys == [] {
      FilterNone<Event>([], OwnEvents(key));
    } else {
      var n := |keys| - 1;
      assert keys == keys[..n] + [keys[n]];
      ReplaysOwn(log, keys[..n], key, since);
      FilterConcat(Replays(log, keys[..n], since), Replay(log, keys[n], since), OwnEvents(key));
      ReplayOwn(log, keys[n], key, since);
    }
  }
}
