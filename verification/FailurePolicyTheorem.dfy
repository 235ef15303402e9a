/** What the failure policy keeps over every run: each failed firing is marked once, a pass leaves nothing it
    read unmarked, and a routine is not turned off again before something cleared its failures. */
module FailurePolicyTheorem {
  import opened Events
  import opened RoutineHistory
  import opened FailurePolicy

  // ---------------------------------------------------------------- the markers

  ghost predicate Marked(log: seq<Event>, key: TurnKey) {
    exists e :: e in log && e.payload.RoutineFailureHandled? && KeyOf(e) == key
  }

  lemma {:induction false} HandledAreMarked(log: seq<Event>, key: TurnKey)
    ensures key in Fold(log).handled <==> Marked(log, key)
  {
    if log != [] {
      var n := |log| - 1;
      HandledAreMarked(log[..n], key);
      MarkedSnoc(log[..n], log[n], key);
      assert log == log[..n] + [log[n]];
    }
  }

  lemma MarkedSnoc(log: seq<Event>, e: Event, key: TurnKey)
    ensures Marked(log + [e], key) <==> Marked(log, key) || (e.payload.RoutineFailureHandled? && KeyOf(e) == key)
  {
    if Marked(log, key) {
      var x :| x in log && x.payload.RoutineFailureHandled? && KeyOf(x) == key;
      assert x in log + [e];
    }
    assert e in log + [e];
  }

  /** No failed firing is marked handled twice. */
  ghost predicate MarkedOnce(log: seq<Event>) {
    forall i, j :: 0 <= i < j < |log| && log[i].payload.RoutineFailureHandled? && log[j].payload.RoutineFailureHandled?
      ==> KeyOf(log[i]) != KeyOf(log[j])
  }

  /** Between two notices that turn a routine off, its failures were cleared. */
  ghost predicate DisablesApart(log: seq<Event>) {
    forall i, j, name :: 0 <= i < j < |log| && DisablesAt(log, i, name) && DisablesAt(log, j, name) ==> ClearedBetween(log, i, j, name)
  }

  ghost predicate ClearedBetween(log: seq<Event>, i: nat, j: nat, name: string)
    requires j <= |log|
  {
    exists k :: i < k < j && ClearsAt(log, k, name)
  }

  /** Whatever turned the routine off was cleared since. */
  ghost predicate Settled(log: seq<Event>, name: string) {
    forall i :: 0 <= i < |log| && DisablesAt(log, i, name) ==> ClearedBetween(log, i, |log|, name)
  }

  lemma BetweenStays(log: seq<Event>, e: Event, i: nat, j: nat, name: string)
    requires j <= |log|
    ensures ClearedBetween(log, i, j, name) <==> ClearedBetween(log + [e], i, j, name)
    ensures ClearedBetween(log + [e], i, j, name) ==> ClearedBetween(log + [e], i, |log| + 1, name)
  {
    var longer := log + [e];
    assert longer[..|log|] == log;
    forall k: nat | k < |log| ensures ClearsAt(longer, k, name) == ClearsAt(log, k, name) {
      AtPrefix(longer, |log|, k, name);
    }
    hide ClearsAt;
    if ClearedBetween(log, i, j, name) {
      var k :| i < k < j && ClearsAt(log, k, name);
      assert ClearsAt(longer, k, name);
    }
    if ClearedBetween(longer, i, j, name) {
      var k :| i < k < j && ClearsAt(longer, k, name);
      assert ClearsAt(log, k, name);
    }
  }

  lemma DisablesStays(log: seq<Event>, e: Event, i: nat, name: string)
    requires i < |log|
    ensures DisablesAt(log + [e], i, name) == DisablesAt(log, i, name)
  {
  }

  /** An event that does not turn the routine off leaves it settled. */
  lemma SettledStays(log: seq<Event>, e: Event, name: string)
    requires Settled(log, name) && !DisablesAt(log + [e], |log|, name)
    ensures Settled(log + [e], name)
  {
    var longer := log + [e];
    hide ClearedBetween, DisablesAt;
    forall i | 0 <= i < |longer| && DisablesAt(longer, i, name) ensures ClearedBetween(longer, i, |longer|, name) {
      DisablesStays(log, e, i, name);
      BetweenStays(log, e, i, |log|, name);
    }
  }

  /** A reset settles its routine. */
  lemma ResetSettles(log: seq<Event>, e: Event, name: string)
    requires e.payload.RoutineFailuresReset? && e.payload.routine == name
    ensures Settled(log + [e], name)
  {
    var longer := log + [e];
    assert ClearsAt(longer, |log|, name);
    forall i | 0 <= i < |longer| && DisablesAt(longer, i, name) ensures ClearedBetween(longer, i, |longer|, name) {
    }
  }

  /** A new event keeps the two laws, when what it marks was not marked and what it turns off was settled. */
  lemma LawsStay(log: seq<Event>, e: Event)
    requires MarkedOnce(log) && DisablesApart(log)
    requires e.payload.RoutineFailureHandled? ==> !Marked(log, KeyOf(e))
    requires forall name :: DisablesAt(log + [e], |log|, name) ==> Settled(log, name)
    ensures MarkedOnce(log + [e]) && DisablesApart(log + [e])
  {
    var longer := log + [e];
    assert MarkedOnce(longer) by {
      if e.payload.RoutineFailureHandled? {
        forall i | 0 <= i < |log| && log[i].payload.RoutineFailureHandled? ensures KeyOf(log[i]) != KeyOf(e) {
          assert log[i] in log;
        }
      }
    }
    hide ClearedBetween, DisablesAt;
    forall i, j, name | 0 <= i < j < |longer| && DisablesAt(longer, i, name) && DisablesAt(longer, j, name)
      ensures ClearedBetween(longer, i, j, name)
    {
      DisablesStays(log, e, i, name);
      BetweenStays(log, e, i, j, name);
      if j < |log| {
        DisablesStays(log, e, j, name);
      }
    }
  }

  // ---------------------------------------------------------------- what the fold tells the policy

  lemma NoticeStep(s: Histories, receipt: nat, e: Event, name: string)
    ensures var before, after := HistoryOf(s.routines, name).disableNotice, HistoryOf(RoutinesStep(s, receipt, e), name).disableNotice;
            && (before.Some? && Clears(s, e) != Some(name) ==> after.Some?)
            && (TurnsOff(e.payload, name) && KeyOf(e) !in s.handled ==> after.Some?)
  {
    hide Filter, OpenRun;
  }

  lemma LastIsFirstMark(prefix: seq<Event>, e: Event)
    requires MarkedOnce(prefix + [e]) && e.payload.RoutineFailureHandled?
    ensures KeyOf(e) !in Fold(prefix).handled
  {
    hide Fold;
    HandledAreMarked(prefix, KeyOf(e));
    var log := prefix + [e];
    assert log[|prefix|] == e;
    forall x | x in prefix && x.payload.RoutineFailureHandled? ensures KeyOf(x) != KeyOf(e) {
      var i :| 0 <= i < |prefix| && prefix[i] == x;
      assert log[i] == x;
    }
  }

  /** An event after which the fold holds no notice of a routine cleared it, or turned nothing off. */
  lemma NoNoticeStep(prefix: seq<Event>, e: Event, name: string)
    requires MarkedOnce(prefix + [e]) && DisableNotice(prefix + [e], name).None?
    ensures Clears(Fold(prefix), e) == Some(name) || (DisableNotice(prefix, name).None? && !TurnsOff(e.payload, name))
  {
    hide RoutinesStep, Clears, HistoryOf, MarkedOnce;
    assert (prefix + [e])[..|prefix|] == prefix;
    NoticeStep(Fold(prefix), |prefix|, e, name);
    if e.payload.RoutineFailureHandled? {
      LastIsFirstMark(prefix, e);
    }
  }

  lemma ClearingSettles(prefix: seq<Event>, e: Event, name: string)
    requires Clears(Fold(prefix), e) == Some(name)
    ensures Settled(prefix + [e], name)
  {
    hide Clears, Fold;
    var log := prefix + [e];
    assert log[..|prefix|] == prefix;
    assert ClearsAt(log, |prefix|, name);
    hide ClearsAt, DisablesAt;
    forall i | 0 <= i < |log| && DisablesAt(log, i, name) ensures ClearedBetween(log, i, |log|, name) {
      if i == |prefix| {
        ClearerDisablesNothing(log, i, name);
        assert false;
      }
    }
  }

  lemma ClearerDisablesNothing(log: seq<Event>, i: nat, name: string)
    requires i < |log| && ClearsAt(log, i, name)
    ensures !DisablesAt(log, i, name)
  {
    hide OpenRun;
  }

  /** While the fold holds no notice of a routine, whatever turned it off was cleared. */
  lemma {:induction false} NoNoticeIsSettled(log: seq<Event>, name: string)
    requires MarkedOnce(log) && DisableNotice(log, name).None?
    ensures Settled(log, name)
  {
    hide Settled, DisableNotice, Fold, Clears, TurnsOff;
    if log == [] {
      EmptyIsSettled(name);
    } else {
      var n := |log| - 1;
      var prefix, e := log[..n], log[n];
      assert log == prefix + [e];
      NoNoticeStep(prefix, e, name);
      if Clears(Fold(prefix), e) == Some(name) {
        ClearingSettles(prefix, e, name);
      } else {
        NoNoticeIsSettled(prefix, name);
        SettledStays(prefix, e, name);
      }
    }
  }

  lemma EmptyIsSettled(name: string)
    ensures Settled([], name)
  {
  }

  ghost predicate DistinctFailures(failures: seq<Failure>) {
    forall i, j :: 0 <= i < j < |failures| ==> failures[i].key != failures[j].key
  }

  lemma {:induction false} FilteredDistinct(failures: seq<Failure>, keep: Failure -> bool)
    requires DistinctFailures(failures)
    ensures DistinctFailures(Filter(failures, keep))
  {
    if failures != [] {
      var n := |failures| - 1;
      FilteredDistinct(failures[..n], keep);
      FilterMembers(failures[..n], keep);
      var kept := Filter(failures[..n], keep);
      forall i | 0 <= i < |kept| ensures kept[i].key != failures[n].key {
        assert kept[i] in failures[..n];
      }
    }
  }

  /** A turn fails once, as it is closed then. */
  ghost predicate FailuresClosed(s: Histories) {
    DistinctFailures(s.failures) && forall f :: f in s.failures ==> f.key in s.closed
  }

  lemma StepFailuresClosed(s: Histories, receipt: nat, e: Event)
    requires FailuresClosed(s)
    ensures FailuresClosed(Step(s, receipt, e))
  {
    hide RoutinesStep, RunsStep;
    if Clears(s, e).Some? {
      FilteredDistinct(s.failures, IsNotOf(Clears(s, e).value));
      FilterMembers(s.failures, IsNotOf(Clears(s, e).value));
    }
  }

  lemma {:induction false} FoldFailuresClosed(log: seq<Event>)
    ensures FailuresClosed(Fold(log))
  {
    if log != [] {
      var n := |log| - 1;
      FoldFailuresClosed(log[..n]);
      StepFailuresClosed(Fold(log[..n]), n, log[n]);
    }
  }

  // ---------------------------------------------------------------- the invariant

  ghost predicate PassSound(log: seq<Event>, phase: Phase) {
    match phase
    case NoPass => true
    case Resetting(enabled, due) =>
      forall name :: name in enabled && enabled[name] && name !in due ==> Settled(log, name)
    case Handling(enabled, left, read) =>
      && (forall name :: name in enabled && enabled[name] ==> Settled(log, name))
      && DistinctFailures(left)
      && (forall f :: f in left ==> !Marked(log, f.key))
      && (forall f :: f in read ==> f in left || Marked(log, f.key))
  }

  ghost predicate Invariant(s: System) {
    MarkedOnce(s.log) && DisablesApart(s.log) && PassSound(s.log, s.phase)
  }

  lemma StoreInvariant(s: System, e: Event)
    requires Invariant(s) && !e.payload.RoutineFailureHandled?
    ensures MarkedOnce(s.log + [e]) && DisablesApart(s.log + [e]) && PassSound(s.log + [e], s.phase)
  {
    LawsStay(s.log, e);
    forall name | Settled(s.log, name) ensures Settled(s.log + [e], name) {
      SettledStays(s.log, e, name);
    }
    forall key ensures Marked(s.log + [e], key) == Marked(s.log, key) {
      MarkedSnoc(s.log, e, key);
    }
    hide Settled, Marked;
  }

  lemma ResetInvariant(s: System, name: string, stamp: Stamp)
    requires Invariant(s) && s.phase.Resetting? && name in s.phase.due
    ensures Invariant(ResetOne(s, name, stamp))
  {
    var notice := s.phase.due[name];
    var e := Event(stamp.sequence, notice.thread, notice.turn, stamp.time, RoutineFailuresReset(name));
    StoreInvariant(s, e);
    ResetSettles(s.log, e, name);
    hide Settled, MarkedOnce, DisablesApart;
  }

  lemma BeginInvariant(s: System)
    requires Invariant(s) && s.phase.NoPass?
    ensures PassSound(s.log, Resetting(s.files, DueResets(s.log, s.files)))
  {
    forall name | name in s.files && s.files[name] && name !in DueResets(s.log, s.files) ensures Settled(s.log, name) {
      NoNoticeIsSettled(s.log, name);
    }
  }

  lemma ReadInvariant(s: System)
    requires Invariant(s) && s.phase.Resetting? && s.phase.due == map[]
    ensures PassSound(s.log, Handling(s.phase.enabled, Unhandled(Fold(s.log)), Unhandled(Fold(s.log))))
  {
    hide Settled, Marked;
    var h := Fold(s.log);
    FoldFailuresClosed(s.log);
    FilteredDistinct(h.failures, IsUnhandled(h.handled));
    FilterMembers(h.failures, IsUnhandled(h.handled));
    forall f | f in Unhandled(h) ensures !Marked(s.log, f.key) {
      HandledAreMarked(s.log, f.key);
    }
  }

  /** Handling a failure marks it and no other, and turns off only a settled routine. */
  lemma HandleInvariant(s: System, stamp: Stamp)
    requires Invariant(s) && s.phase.Handling? && s.phase.left != []
    ensures Invariant(HandleFirst(s, stamp))
  {
    var f, enabled := s.phase.left[0], s.phase.enabled;
    var e := HandledEvent(f, enabled, stamp);
    var after := HandleFirst(s, stamp);
    assert f in s.phase.left;
    forall name ensures DisablesAt(s.log + [e], |s.log|, name) <==> name == f.name && Disables(f, enabled) {
    }
    LawsStay(s.log, e);
    forall name | Settled(s.log, name) && !DisablesAt(s.log + [e], |s.log|, name) ensures Settled(s.log + [e], name) {
      SettledStays(s.log, e, name);
    }
    forall key ensures Marked(s.log + [e], key) <==> Marked(s.log, key) || key == f.key {
      MarkedSnoc(s.log, e, key);
    }
    hide Settled, Marked, DisablesAt, MarkedOnce, DisablesApart;
    forall g | g in after.phase.left ensures g in s.phase.left && g.key != f.key {
      var i :| 0 <= i < |after.phase.left| && after.phase.left[i] == g;
      assert s.phase.left[i + 1] == g;
    }
    forall g | g in s.phase.left && g != f ensures g in after.phase.left {
      var i :| 0 <= i < |s.phase.left| && s.phase.left[i] == g;
      assert after.phase.left[i - 1] == g;
    }
  }

  lemma AdvanceInvariant(s: System, a: Action)
    requires Invariant(s)
    ensures Invariant(Advance(s, a))
  {
    hide PassSound, MarkedOnce, DisablesApart;
    match a
    case Store(e) => if !e.payload.RoutineFailureHandled? { StoreInvariant(s, e); }
    case Edit(_, _) =>
    case Grant(_, _) =>
    case BeginPass => if s.phase.NoPass? { BeginInvariant(s); }
    case ResetNext(name, stamp) => if s.phase.Resetting? && name in s.phase.due { ResetInvariant(s, name, stamp); }
    case ReadFailures => if s.phase.Resetting? && s.phase.due == map[] { ReadInvariant(s); }
    case HandleNext(stamp) => if s.phase.Handling? && s.phase.left != [] { HandleInvariant(s, stamp); }
    case EndPass => NoPassSound(s.log);
    case Crash => NoPassSound(s.log);
  }

  lemma NoPassSound(log: seq<Event>)
    ensures PassSound(log, NoPass)
  {
  }

  lemma {:induction false} RunInvariant(files: map<string, bool>, actions: seq<Action>)
    ensures Invariant(Run(files, actions))
  {
    if actions != [] {
      RunInvariant(files, actions[..|actions| - 1]);
      AdvanceInvariant(Run(files, actions[..|actions| - 1]), actions[|actions| - 1]);
    }
  }

  // ---------------------------------------------------------------- the theorems

  /** Over every run, no failed firing is marked handled twice, and between two notices that turn a routine
      off there is a reset of it or a working completion. */
  lemma {:induction false} MarkersAreLawful(files: map<string, bool>, actions: seq<Action>)
    ensures MarkedOnce(Run(files, actions).log) && DisablesApart(Run(files, actions).log)
  {
    RunInvariant(files, actions);
  }

  /** A pass that has come to its end leaves no failure it read unhandled. */
  lemma {:induction false} PassHandlesAllItRead(files: map<string, bool>, actions: seq<Action>)
    requires Run(files, actions).phase.Handling? && Run(files, actions).phase.left == []
    ensures forall f :: f in Run(files, actions).phase.read ==> f.key in Fold(Run(files, actions).log).handled
  {
    RunInvariant(files, actions);
    var s := Run(files, actions);
    forall f | f in s.phase.read ensures f.key in Fold(s.log).handled {
      HandledAreMarked(s.log, f.key);
    }
  }

  /** From any reachable state in which failures were read, a pass left alone handles every one of them. */
  lemma {:induction false} PassHandles(s: System, raises: nat -> bool, stamps: nat -> Stamp, i: nat)
    requires Invariant(s) && s.phase.Handling?
    ensures var t := RunOn(s, PassActions(s.phase.left, s.phase.enabled, raises, stamps, i));
            t.phase == NoPass && forall f :: f in s.phase.read ==> Marked(t.log, f.key)
    decreases |s.phase.left|
  {
    hide RunOn, PassActions, MarkedOnce, DisablesApart, Marked, Settled;
    if s.phase.left == [] {
      PassEnds(s, raises, stamps, i);
    } else {
      hide PassSound;
      var f, handled := s.phase.left[0], HandleFirst(s, stamps(2 * i));
      PassStep(s, raises, stamps, i);
      HandleInvariant(s, stamps(2 * i));
      var notification := NotificationOf(f, stamps(2 * i + 1));
      if raises(i) && NoticeFor(f, s.phase.enabled).Some? {
        StoreInvariant(handled, notification);
        PassHandles(handled.(log := handled.log + [notification]), raises, stamps, i + 1);
      } else {
        PassHandles(handled, raises, stamps, i + 1);
      }
    }
  }

  ghost predicate Listed(failures: seq<Failure>, key: TurnKey, name: string) {
    exists f :: f in failures && f.key == key && f.name == name
  }

  lemma FailuresStepLists(s: Histories, e: Event, key: TurnKey, name: string)
    ensures Clears(s, e) == Some(name) ==> !Listed(FailuresStep(s, e), key, name)
    ensures Clears(s, e) != Some(name) ==> (Listed(FailuresStep(s, e), key, name)
                                            <==> Listed(s.failures, key, name) || (Fails(s, e) == Some(name) && KeyOf(e) == key))
  {
    hide OpenRun, HistoryOf;
    if Clears(s, e).Some? {
      FilterMembers(s.failures, IsNotOf(Clears(s, e).value));
      if Listed(s.failures, key, name) && Clears(s, e) != Some(name) {
        var f :| f in s.failures && f.key == key && f.name == name;
        assert f in FailuresStep(s, e);
      }
    } else if Fails(s, e).Some? {
      var after := FailuresStep(s, e);
      assert after[|s.failures|] in after;
      if Listed(s.failures, key, name) {
        var f :| f in s.failures && f.key == key && f.name == name;
        assert f in after;
      }
    }
  }

  /** The failures the policy reads are the failed firings since their routine's last working completion or
      reset. */
  lemma {:induction false} FailuresAreFailedSince(log: seq<Event>, key: TurnKey, name: string)
    ensures Listed(Fold(log).failures, key, name) <==> exists i :: i in FailedSince(log, name) && KeyOf(log[i]) == key
  {
    hide FailedSince, FailuresStep, Clears, Fails, Listed;
    if log == [] {
      NothingListed(key, name);
    } else {
      var n := |log| - 1;
      FailuresAreFailedSince(log[..n], key, name);
      FailuresStepLists(Fold(log[..n]), log[n], key, name);
      FailedSinceStep(log, name);
      FailedWithin(log, n, name);
      if i :| i in FailedSince(log[..n], name) && KeyOf(log[..n][i]) == key {
        assert KeyOf(log[i]) == key;
      }
    }
  }

  lemma FailedWithin(log: seq<Event>, n: nat, name: string)
    requires n <= |log|
    ensures forall i :: i in FailedSince(log[..n], name) ==> i < n
  {
  }

  lemma NothingListed(key: TurnKey, name: string)
    ensures !Listed(Fold([]).failures, key, name) && FailedSince([], name) == {}
  {
  }

  /** A failure's count is the number of failed firings in a row when it failed: so ten of them stand behind
      every notice that turns a routine off. Its reason is that firing's own. */
  ghost predicate Counted(log: seq<Event>, f: Failure) {
    exists m :: 0 <= m < |log| && CountedAt(log, m, f)
  }

  ghost predicate CountedAt(log: seq<Event>, m: nat, f: Failure)
    requires m < |log|
  {
    && FailsAt(log, m, f.name) && KeyOf(log[m]) == f.key && f.count == |FailedSince(log[..m + 1], f.name)|
    && log[m].payload.TurnFailed? && f.reason == log[m].payload.message
  }

  lemma CountedStays(log: seq<Event>, e: Event, f: Failure)
    requires Counted(log, f)
    ensures Counted(log + [e], f)
  {
    var longer := log + [e];
    var m: nat :| m < |log| && CountedAt(log, m, f);
    assert longer[..|log|] == log && longer[..m + 1] == log[..m + 1];
    AtPrefix(longer, |log|, m, f.name);
    assert CountedAt(longer, m, f);
  }

  lemma NewestCounted(log: seq<Event>, name: string)
    requires log != [] && Fails(Fold(log[..|log| - 1]), log[|log| - 1]) == Some(name)
    ensures Counted(log, Failure(KeyOf(log[|log| - 1]), name, HistoryOf(Fold(log[..|log| - 1]).routines, name).failureCount + 1,
                                 log[|log| - 1].payload.message))
  {
    hide Counted, FailedSince;
    var n := |log| - 1;
    CountStep(Fold(log[..n]), n, log[n], name);
    CountIsFailedSince(log, name);
    assert log[..n + 1] == log;
    assert FailsAt(log, n, name);
    NewestIs(log, n, Failure(KeyOf(log[n]), name, |FailedSince(log, name)|, log[n].payload.message));
  }

  lemma NewestIs(log: seq<Event>, m: nat, f: Failure)
    requires m < |log| && CountedAt(log, m, f)
    ensures Counted(log, f)
  {
  }

  lemma FailuresStepMembers(s: Histories, e: Event, f: Failure)
    requires f in FailuresStep(s, e) && f !in s.failures
    ensures Fails(s, e) == Some(f.name)
    ensures f == Failure(KeyOf(e), f.name, HistoryOf(s.routines, f.name).failureCount + 1, e.payload.message)
  {
    if Clears(s, e).Some? {
      FilterMembers(s.failures, IsNotOf(Clears(s, e).value));
    }
  }

  lemma {:induction false} FailuresAreCounted(log: seq<Event>)
    ensures forall f :: f in Fold(log).failures ==> Counted(log, f)
  {
    hide Counted, FailuresStep, Fails, RoutinesStep, RunsStep, HistoryOf;
    if log != [] {
      var n := |log| - 1;
      var s, e := Fold(log[..n]), log[n];
      FailuresAreCounted(log[..n]);
      assert log == log[..n] + [e];
      forall f | f in Fold(log).failures ensures Counted(log, f) {
        if f in s.failures {
          CountedStays(log[..n], e, f);
        } else {
          FailuresStepMembers(s, e, f);
          NewestCounted(log, f.name);
        }
      }
    }
  }

  // ---------------------------------------------------------------- ten in a row

  /** A firing that failed as at least the tenth in a row. */
  ghost predicate TenInARow(log: seq<Event>, key: TurnKey, name: string) {
    exists f: Failure :: f.key == key && f.name == name && f.count >= 10 && Counted(log, f)
  }

  /** Every notice that turns a routine off marks the tenth failure in a row, or a later one. */
  ghost predicate Justified(log: seq<Event>, phase: Phase) {
    && (forall i, name :: 0 <= i < |log| && DisablesAt(log, i, name) ==> TenInARow(log, KeyOf(log[i]), name))
    && (phase.Handling? ==> forall f :: f in phase.left ==> Counted(log, f))
  }

  lemma TenStays(log: seq<Event>, e: Event, key: TurnKey, name: string)
    requires TenInARow(log, key, name)
    ensures TenInARow(log + [e], key, name)
  {
    hide Counted;
    var f: Failure :| f.key == key && f.name == name && f.count >= 10 && Counted(log, f);
    CountedStays(log, e, f);
  }

  lemma StoreJustified(log: seq<Event>, phase: Phase, e: Event)
    requires Justified(log, phase)
    requires forall name :: TurnsOff(e.payload, name) ==> TenInARow(log, KeyOf(e), name)
    ensures Justified(log + [e], phase)
  {
    hide Counted, TenInARow;
    var longer := log + [e];
    forall i, name | 0 <= i < |longer| && DisablesAt(longer, i, name) ensures TenInARow(longer, KeyOf(longer[i]), name) {
      if i < |log| {
        DisablesStays(log, e, i, name);
      }
      TenStays(log, e, KeyOf(longer[i]), name);
    }
    if phase.Handling? {
      forall f | f in phase.left ensures Counted(longer, f) {
        CountedStays(log, e, f);
      }
    }
  }

  lemma HandleJustified(s: System, stamp: Stamp)
    requires Justified(s.log, s.phase) && s.phase.Handling? && s.phase.left != []
    ensures Justified(HandleFirst(s, stamp).log, HandleFirst(s, stamp).phase)
  {
    hide Counted;
    var f := s.phase.left[0];
    var e := HandledEvent(f, s.phase.enabled, stamp);
    assert f in s.phase.left;
    StoreJustified(s.log, s.phase, e);
    hide DisablesAt, TenInARow;
    forall g | g in HandleFirst(s, stamp).phase.left ensures g in s.phase.left {
    }
  }

  lemma AdvanceJustified(s: System, a: Action)
    requires Justified(s.log, s.phase)
    ensures Justified(Advance(s, a).log, Advance(s, a).phase)
  {
    hide Counted, TenInARow;
    match a
    case Store(e) => if !e.payload.RoutineFailureHandled? { StoreJustified(s.log, s.phase, e); }
    case ResetNext(name, stamp) =>
      if s.phase.Resetting? && name in s.phase.due {
        StoreJustified(s.log, s.phase, ResetOne(s, name, stamp).log[|s.log|]);
      }
    case HandleNext(stamp) => if s.phase.Handling? && s.phase.left != [] { HandleJustified(s, stamp); }
    case ReadFailures =>
      FailuresAreCounted(s.log);
      FilterMembers(Fold(s.log).failures, IsUnhandled(Fold(s.log).handled));
    case _ =>
  }

  /** A routine is turned off only by a failed firing that was at least the tenth since its last working
      completion or reset. */
  lemma {:induction false} TurnedOffAfterTen(files: map<string, bool>, actions: seq<Action>)
    ensures Justified(Run(files, actions).log, Run(files, actions).phase)
  {
    hide Advance, Justified;
    if actions == [] {
      NothingTurnedOff();
    } else {
      TurnedOffAfterTen(files, actions[..|actions| - 1]);
      AdvanceJustified(Run(files, actions[..|actions| - 1]), actions[|actions| - 1]);
    }
  }

  lemma NothingTurnedOff()
    ensures Justified([], NoPass)
  {
  }
}
