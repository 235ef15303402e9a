/** What the failure policy does with each failure, told from the log: a routine still on is turned off at its
    tenth failed firing in a row, and no sooner; the first in a row is noticed; and each pass resets exactly
    the routines turned on again, and reads exactly the failures not marked. */
module FailureNotices {
  import opened Events
  import opened RoutineHistory
  import opened FailurePolicy
  import opened FailurePolicyTheorem

  // ---------------------------------------------------------------- one failure

  /** How many firings of the routine had failed in a row when a firing failed at `m`, itself among them. */
  ghost function InARow(log: seq<Event>, m: nat, name: string): nat
    requires m < |log|
  {
    |FailedSince(log[..m + 1], name)|
  }

  ghost predicate IsOn(enabled: map<string, bool>, name: string) {
    name in enabled && enabled[name]
  }

  /** The marker of a failure, and what else handling it changes. */
  ghost predicate Marks(s: System, t: System, f: Failure, row: nat)
    requires s.phase.Handling? && s.phase.left != []
  {
    && |t.log| == |s.log| + 1 && t.log[..|s.log|] == s.log
    && t.phase.Handling? && t.phase.left == s.phase.left[1..] && t.phase.read == s.phase.read
    && var marker := t.log[|s.log|];
       && marker.payload.RoutineFailureHandled? && KeyOf(marker) == f.key && marker.payload.routine == f.name
       && if row >= 10 && IsOn(s.phase.enabled, f.name) then
            && marker.payload.notice == Some(Notice(Disabled, f.key.thread, f.key.turn))
            && t.files == s.files[f.name := false] && t.grants == s.grants - {f.name} && !IsOn(t.phase.enabled, f.name)
            && forall name :: name != f.name ==> IsOn(t.phase.enabled, name) == IsOn(s.phase.enabled, name)
          else
            && marker.payload.notice == (if row == 1 then Some(Notice(FirstFailure, f.key.thread, f.key.turn)) else None)
            && t.files == s.files && t.grants == s.grants && t.phase.enabled == s.phase.enabled
  }

  lemma HandlingMarks(s: System, stamp: Stamp)
    requires s.phase.Handling? && s.phase.left != []
    ensures Marks(s, Advance(s, HandleNext(stamp)), s.phase.left[0], s.phase.left[0].count)
  {
  }

  /** From every reachable state in which a failure is left to handle, it is of a firing that failed, and its
      marker turns the routine off, its file and its grants with it, if and only if that firing was at least
      the tenth in a row and the routine is on in the files the pass loaded; or else it is noticed if and only
      if it was the first. */
  lemma {:induction false} TenthTurnsOff(files: map<string, bool>, actions: seq<Action>, stamp: Stamp)
    requires Run(files, actions).phase.Handling? && Run(files, actions).phase.left != []
    ensures var s, t := Run(files, actions), Run(files, actions + [HandleNext(stamp)]);
            var f := s.phase.left[0];
            exists m :: 0 <= m < |s.log| && FailsAt(s.log, m, f.name) && KeyOf(s.log[m]) == f.key && Marks(s, t, f, InARow(s.log, m, f.name))
  {
    hide Advance, FailedSince, Marks, FailsAt;
    var s := Run(files, actions);
    var f := s.phase.left[0];
    TurnedOffAfterTen(files, actions);
    assert f in s.phase.left && Counted(s.log, f);
    HandlingMarks(s, stamp);
    assert (actions + [HandleNext(stamp)])[..|actions|] == actions;
    var m :| 0 <= m < |s.log| && CountedAt(s.log, m, f);
    assert Marks(s, Run(files, actions + [HandleNext(stamp)]), f, InARow(s.log, m, f.name));
  }

  // ---------------------------------------------------------------- a pass

  /** A pass left alone turns off exactly the routines on in its files of which it read a tenth failure in a
      row, or a later one. */
  ghost predicate TurnsOffIn(left: seq<Failure>, enabled: map<string, bool>, name: string) {
    IsOn(enabled, name) && exists f :: f in left && f.name == name && f.count >= 10
  }

  lemma {:induction false} PassTurnsOff(s: System, raises: nat -> bool, stamps: nat -> Stamp, i: nat, name: string)
    requires s.phase.Handling?
    ensures var t := RunOn(s, PassActions(s.phase.left, s.phase.enabled, raises, stamps, i));
            if TurnsOffIn(s.phase.left, s.phase.enabled, name) then name in t.files && !t.files[name] && name !in t.grants
            else (name in t.files <==> name in s.files) && (name in s.files ==> t.files[name] == s.files[name])
                 && (name in t.grants <==> name in s.grants) && (name in s.grants ==> t.grants[name] == s.grants[name])
    decreases |s.phase.left|
  {
    hide RunOn, PassActions;
    if s.phase.left == [] {
      PassEnds(s, raises, stamps, i);
    } else {
      var f, handled := s.phase.left[0], HandleFirst(s, stamps(2 * i));
      PassStep(s, raises, stamps, i);
      HandlingMarks(s, stamps(2 * i));
      assert handled == Advance(s, HandleNext(stamps(2 * i)));
      var notification := NotificationOf(f, stamps(2 * i + 1));
      var after := if raises(i) && NoticeFor(f, s.phase.enabled).Some? then handled.(log := handled.log + [notification]) else handled;
      hide HandleFirst, Advance, NoticeFor, Disables, NotificationOf;
      PassTurnsOff(after, raises, stamps, i + 1, name);
      LeftAfter(s.phase.left, name);
    }
  }

  lemma LeftAfter(left: seq<Failure>, name: string)
    requires left != []
    ensures (exists f :: f in left && f.name == name && f.count >= 10)
       <==> (left[0].name == name && left[0].count >= 10) || exists f :: f in left[1..] && f.name == name && f.count >= 10
  {
    assert left == [left[0]] + left[1..];
  }

  // ---------------------------------------------------------------- what a pass begins with

  /** While the fold holds a notice of a routine, something turned it off and nothing cleared it since. */
  lemma {:induction false} NoticeIsUnsettled(log: seq<Event>, name: string)
    requires MarkedOnce(log) && DisableNotice(log, name).Some?
    ensures !Settled(log, name)
  {
    hide DisableNotice, Fold, Clears, TurnsOff, HistoryOf, ClearsAt, Settled;
    if log == [] {
      NoNoticeAtFirst(name);
      assert false;
    } else {
      var n := |log| - 1;
      var prefix, e := log[..n], log[n];
      assert log == prefix + [e];
      NoticeLeft(prefix, e, name);
      if TurnsOff(e.payload, name) {
        UnsettledNow(prefix, e, name);
      } else {
        NoticeIsUnsettled(prefix, name);
        UnsettledStill(prefix, e, name);
      }
    }
  }

  lemma NoNoticeAtFirst(name: string)
    ensures DisableNotice([], name).None?
  {
  }

  /** A notice after an event is the event's own, or was there before it and not cleared. */
  lemma NoticeLeft(prefix: seq<Event>, e: Event, name: string)
    requires DisableNotice(prefix + [e], name).Some?
    ensures TurnsOff(e.payload, name) || (DisableNotice(prefix, name).Some? && Clears(Fold(prefix), e) != Some(name))
  {
    hide RoutinesStep, Clears, HistoryOf;
    assert (prefix + [e])[..|prefix|] == prefix;
    NoticeAfter(Fold(prefix), |prefix|, e, name);
  }

  lemma NoticeAfter(s: Histories, receipt: nat, e: Event, name: string)
    requires HistoryOf(RoutinesStep(s, receipt, e), name).disableNotice.Some?
    ensures TurnsOff(e.payload, name) || (HistoryOf(s.routines, name).disableNotice.Some? && Clears(s, e) != Some(name))
  {
    hide OpenRun, Filter;
  }

  lemma UnsettledNow(prefix: seq<Event>, e: Event, name: string)
    requires TurnsOff(e.payload, name)
    ensures !Settled(prefix + [e], name)
  {
    hide ClearsAt;
    var log := prefix + [e];
    assert DisablesAt(log, |prefix|, name) && !ClearedBetween(log, |prefix|, |log|, name);
  }

  lemma UnsettledStill(prefix: seq<Event>, e: Event, name: string)
    requires !Settled(prefix, name) && Clears(Fold(prefix), e) != Some(name)
    ensures !Settled(prefix + [e], name)
  {
    var log := prefix + [e];
    assert log[..|prefix|] == prefix;
    assert !ClearsAt(log, |prefix|, name);
    hide ClearsAt, DisablesAt, Fold, Clears;
    var i :| 0 <= i < |prefix| && DisablesAt(prefix, i, name) && !ClearedBetween(prefix, i, |prefix|, name);
    DisablesStays(prefix, e, i, name);
    BetweenStays(prefix, e, i, |prefix|, name);
    assert !ClearedBetween(log, i, |prefix|, name);
    assert forall k :: i < k < |log| ==> !ClearsAt(log, k, name);
  }

  /** A pass begins with the files as they are, and has a reset due for exactly the routines on in them that a
      marker turned off with nothing clearing it since. */
  lemma {:induction false} ResetsAreDue(files: map<string, bool>, actions: seq<Action>, name: string)
    requires Run(files, actions).phase.NoPass?
    ensures var s, t := Run(files, actions), Run(files, actions + [BeginPass]);
            && t.log == s.log && t.files == s.files && t.grants == s.grants
            && t.phase.Resetting? && t.phase.enabled == s.files
            && (name in t.phase.due <==> IsOn(s.files, name) && !Settled(s.log, name))
  {
    hide Fold, Settled, DisableNotice, MarkedOnce, DisablesApart;
    var s := Run(files, actions);
    RunInvariant(files, actions);
    assert (actions + [BeginPass])[..|actions|] == actions;
    if DisableNotice(s.log, name).Some? {
      NoticeIsUnsettled(s.log, name);
    } else {
      NoNoticeIsSettled(s.log, name);
    }
  }

  /** Once the resets are stored, a pass reads exactly the failed firings since their routine's last working
      completion or reset that no marker is of. */
  lemma {:induction false} PassReadsTheUnmarked(files: map<string, bool>, actions: seq<Action>, key: TurnKey, name: string)
    requires Run(files, actions).phase.Resetting? && Run(files, actions).phase.due == map[]
    ensures var s, t := Run(files, actions), Run(files, actions + [ReadFailures]);
            && t.log == s.log && t.files == s.files && t.grants == s.grants
            && t.phase.Handling? && t.phase.left == t.phase.read && t.phase.enabled == s.phase.enabled
            && (Listed(t.phase.read, key, name)
                <==> (exists i :: i in FailedSince(s.log, name) && KeyOf(s.log[i]) == key) && !Marked(s.log, key))
  {
    hide Fold, FailedSince, Marked;
    var s := Run(files, actions);
    assert (actions + [ReadFailures])[..|actions|] == actions;
    FailuresAreFailedSince(s.log, key, name);
    HandledAreMarked(s.log, key);
    UnhandledAre(Fold(s.log), key, name);
    hide Listed, Unhandled;
  }

  lemma UnhandledAre(s: Histories, key: TurnKey, name: string)
    ensures Listed(Unhandled(s), key, name) <==> Listed(s.failures, key, name) && key !in s.handled
  {
    FilterMembers(s.failures, IsUnhandled(s.handled));
    hide Filter;
  }
}
