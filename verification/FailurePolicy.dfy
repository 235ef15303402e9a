/** The failure policy: each pass of the scheduler resets the routines turned on again, reads the failures
    not handled yet, and handles each with a marker, turning a routine off after ten failures in a row. The
    next pass reads the markers back. Anything else may be stored, and any file edited, between its steps. */
module FailurePolicy {
  import opened Events
  import opened RoutineHistory

  /** The failed firings in a row after which the policy disables a routine. */
  const DISABLE_AFTER := 10

  /** Where a pass is: it resets the routines enabled in the files it loaded, then handles the failures it
      then read. */
  datatype Phase =
    | NoPass
    | Resetting(enabled: map<string, bool>, due: map<string, Notice>)
    | Handling(enabled: map<string, bool>, left: seq<Failure>, read: seq<Failure>)

  /** The log, each routine file with whether it is enabled, the tools granted to each routine, and the pass
      under way. */
  datatype System = System(log: seq<Event>, files: map<string, bool>, grants: map<string, set<string>>, phase: Phase)

  datatype Stamp = Stamp(sequence: nat, time: int)

  datatype Action =
    | Store(event: Event)
    | Edit(name: string, enabled: Option<bool>)
    | Grant(name: string, tools: set<string>)
    | BeginPass
    | ResetNext(name: string, stamp: Stamp)
    | ReadFailures
    | HandleNext(stamp: Stamp)
    | EndPass
    | Crash

  function DisableNotice(log: seq<Event>, name: string): Option<Notice> {
    HistoryOf(Fold(log).routines, name).disableNotice
  }

  /** The routines loaded as enabled that the log has disabled, with the notice of it. */
  function DueResets(log: seq<Event>, enabled: map<string, bool>): map<string, Notice> {
    map name | name in enabled && enabled[name] && DisableNotice(log, name).Some? :: DisableNotice(log, name).value
  }

  predicate Disables(f: Failure, enabled: map<string, bool>) {
    f.count >= DISABLE_AFTER && f.name in enabled && enabled[f.name]
  }

  function NoticeFor(f: Failure, enabled: map<string, bool>): Option<Notice> {
    if Disables(f, enabled) then Some(Notice(Disabled, f.key.thread, f.key.turn))
    else if f.count == 1 then Some(Notice(FirstFailure, f.key.thread, f.key.turn))
    else None
  }

  function HandledEvent(f: Failure, enabled: map<string, bool>, stamp: Stamp): Event {
    Event(stamp.sequence, f.key.thread, f.key.turn, stamp.time, RoutineFailureHandled(f.name, NoticeFor(f, enabled)))
  }

  function HandleFirst(s: System, stamp: Stamp): System
    requires s.phase.Handling? && s.phase.left != []
  {
    var f := s.phase.left[0];
    var disables := Disables(f, s.phase.enabled);
    System(s.log + [HandledEvent(f, s.phase.enabled, stamp)],
           if disables then s.files[f.name := false] else s.files,
           if disables then s.grants - {f.name} else s.grants,
           Handling(if disables then s.phase.enabled - {f.name} else s.phase.enabled, s.phase.left[1..], s.phase.read))
  }

  function ResetOne(s: System, name: string, stamp: Stamp): System
    requires s.phase.Resetting? && name in s.phase.due
  {
    var notice := s.phase.due[name];
    System(s.log + [Event(stamp.sequence, notice.thread, notice.turn, stamp.time, RoutineFailuresReset(name))], s.files, s.grants,
           Resetting(s.phase.enabled, s.phase.due - {name}))
  }

  function Advance(s: System, a: Action): System {
    match a
    case Store(e) => if e.payload.RoutineFailureHandled? then s else s.(log := s.log + [e])
    case Edit(name, enabled) => s.(files := if enabled.Some? then s.files[name := enabled.value] else s.files - {name})
    case Grant(name, tools) => s.(grants := s.grants[name := tools])
    case BeginPass => if s.phase.NoPass? then s.(phase := Resetting(s.files, DueResets(s.log, s.files))) else s
    case ResetNext(name, stamp) => if s.phase.Resetting? && name in s.phase.due then ResetOne(s, name, stamp) else s
    case ReadFailures =>
      if s.phase.Resetting? && s.phase.due == map[]
      then s.(phase := Handling(s.phase.enabled, Unhandled(Fold(s.log)), Unhandled(Fold(s.log)))) else s
    case HandleNext(stamp) => if s.phase.Handling? && s.phase.left != [] then HandleFirst(s, stamp) else s
    case EndPass => if s.phase.Handling? && s.phase.left == [] then s.(phase := NoPass) else s
    case Crash => s.(phase := NoPass)
  }

  function RunOn(s: System, actions: seq<Action>): System {
    if actions == [] then s else Advance(RunOn(s, actions[..|actions| - 1]), actions[|actions| - 1])
  }

  function Run(files: map<string, bool>, actions: seq<Action>): System {
    RunOn(System([], files, map[], NoPass), actions)
  }

  lemma {:induction false} RunOnFirst(s: System, a: Action, rest: seq<Action>)
    ensures RunOn(s, [a] + rest) == RunOn(Advance(s, a), rest)
  {
    hide Advance;
    if rest == [] {
      assert [a] + rest == [a] && [a][..0] == [];
    } else {
      var n := |rest| - 1;
      assert ([a] + rest)[..|[a] + rest| - 1] == [a] + rest[..n];
      RunOnFirst(s, a, rest[..n]);
    }
  }

  /** A run that goes on is a run: what holds in every run holds after a pass that goes on from one. */
  lemma {:induction false} RunGoesOn(files: map<string, bool>, actions: seq<Action>, more: seq<Action>)
    ensures Run(files, actions + more) == RunOn(Run(files, actions), more)
  {
    hide Advance;
    if more == [] {
      assert actions + more == actions;
    } else {
      var n := |more| - 1;
      assert (actions + more)[..|actions + more| - 1] == actions + more[..n];
      RunGoesOn(files, actions, more[..n]);
    }
  }

  // ---------------------------------------------------------------- the pass over the failures read

  function StillEnabled(f: Failure, enabled: map<string, bool>): map<string, bool> {
    if Disables(f, enabled) then enabled - {f.name} else enabled
  }

  /** The notification raised beside a notice. */
  function NotificationOf(f: Failure, stamp: Stamp): Event {
    Event(stamp.sequence, f.key.thread, f.key.turn, stamp.time, NotificationRaised(false, false))
  }

  /** What a pass does from failure `i` on: it handles each, raises a notification beside each notice, and
      ends. Whether notifications are raised is asked again at each failure. Every event it stores has a stamp
      of its own. */
  function PassActions(failures: seq<Failure>, enabled: map<string, bool>, raises: nat -> bool, stamps: nat -> Stamp, i: nat): seq<Action>
    decreases |failures|
  {
    if failures == [] then [EndPass]
    else
      var f := failures[0];
      var rest := PassActions(failures[1..], StillEnabled(f, enabled), raises, stamps, i + 1);
      if raises(i) && NoticeFor(f, enabled).Some?
      then [HandleNext(stamps(2 * i))] + ([Store(NotificationOf(f, stamps(2 * i + 1)))] + rest)
      else [HandleNext(stamps(2 * i))] + rest
  }

  /** A pass handles its next failure, and goes on. */
  lemma PassStep(s: System, raises: nat -> bool, stamps: nat -> Stamp, i: nat)
    requires s.phase.Handling? && s.phase.left != []
    ensures var f, handled := s.phase.left[0], HandleFirst(s, stamps(2 * i));
            var after := if raises(i) && NoticeFor(f, s.phase.enabled).Some?
                         then handled.(log := handled.log + [NotificationOf(f, stamps(2 * i + 1))]) else handled;
            RunOn(s, PassActions(s.phase.left, s.phase.enabled, raises, stamps, i))
            == RunOn(after, PassActions(s.phase.left[1..], after.phase.enabled, raises, stamps, i + 1))
  {
    hide RunOn, HandledEvent;
    var f := s.phase.left[0];
    var handled := HandleFirst(s, stamps(2 * i));
    var rest := PassActions(s.phase.left[1..], handled.phase.enabled, raises, stamps, i + 1);
    var raised := Store(NotificationOf(f, stamps(2 * i + 1)));
    if raises(i) && NoticeFor(f, s.phase.enabled).Some? {
      RunOnFirst(s, HandleNext(stamps(2 * i)), [raised] + rest);
      RunOnFirst(handled, raised, rest);
    } else {
      RunOnFirst(s, HandleNext(stamps(2 * i)), rest);
    }
  }

  lemma PassEnds(s: System, raises: nat -> bool, stamps: nat -> Stamp, i: nat)
    requires s.phase.Handling? && s.phase.left == []
    ensures RunOn(s, PassActions([], s.phase.enabled, raises, stamps, i)) == s.(phase := NoPass)
  {
    assert [EndPass][..0] == [];
  }

  /** The pass's own loop over the failures it read, with no one else at the log. */
  class Scheduler {
    var log: seq<Event>
    var files: map<string, bool>
    var grants: map<string, set<string>>

    constructor (log: seq<Event>, files: map<string, bool>, grants: map<string, set<string>>)
      ensures this.log == log && this.files == files && this.grants == grants
    {
      this.log, this.files, this.grants := log, files, grants;
    }

    function Value(phase: Phase): System
      reads this
    {
      System(log, files, grants, phase)
    }

    /** Handle one failure: turn its routine off after too many in a row, mark it, and raise what it says. */
    method HandleFailure(failure: Failure, enabled: map<string, bool>, raises: bool, marker: Stamp, raised: Stamp)
      returns (byName: map<string, bool>)
      modifies this
      ensures var handled := HandleFirst(old(Value(Handling(enabled, [failure], []))), marker);
              && byName == handled.phase.enabled
              && files == handled.files && grants == handled.grants
              && log == handled.log + (if raises && NoticeFor(failure, enabled).Some? then [NotificationOf(failure, raised)] else [])
    {
      byName := enabled;
      var notice: Option<Notice> := None;
      if failure.count >= DISABLE_AFTER && failure.name in byName && byName[failure.name] {
        files := files[failure.name := false];
        grants := grants - {failure.name};
        byName := byName - {failure.name};
        notice := Some(Notice(Disabled, failure.key.thread, failure.key.turn));
      } else if failure.count == 1 {
        notice := Some(Notice(FirstFailure, failure.key.thread, failure.key.turn));
      }
      log := log + [Event(marker.sequence, failure.key.thread, failure.key.turn, marker.time,
                          RoutineFailureHandled(failure.name, notice))];
      if notice.Some? && raises {
        log := log + [Event(raised.sequence, failure.key.thread, failure.key.turn, raised.time, NotificationRaised(false, false))];
      }
    }

    /** The whole pass is the run of its actions. */
    method HandleFailures(enabled: map<string, bool>, failures: seq<Failure>, raises: nat -> bool, stamps: nat -> Stamp)
      modifies this
      ensures Value(NoPass)
           == RunOn(old(Value(Handling(enabled, failures, failures))), PassActions(failures, enabled, raises, stamps, 0))
    {
      hide RunOn, PassActions, HandleFirst;
      var byName := enabled;
      var i := 0;
      assert failures[0..] == failures;
      while i < |failures|
        invariant 0 <= i <= |failures|
        invariant RunOn(Value(Handling(byName, failures[i..], failures)), PassActions(failures[i..], byName, raises, stamps, i))
               == RunOn(old(Value(Handling(enabled, failures, failures))), PassActions(failures, enabled, raises, stamps, 0))
      {
        ghost var s := Value(Handling(byName, failures[i..], failures));
        PassStep(s, raises, stamps, i);
        HandledAlike(s, failures[i], [failures[i]], [], stamps(2 * i));
        ghost var handled, raised := HandleFirst(s, stamps(2 * i)), raises(i) && NoticeFor(failures[i], byName).Some?;
        ghost var notification := NotificationOf(failures[i], stamps(2 * i + 1));
        ghost var after := if raised then handled.(log := handled.log + [notification]) else handled;
        assert failures[i..][1..] == failures[i + 1..];
        byName := HandleFailure(failures[i], byName, raises(i), stamps(2 * i), stamps(2 * i + 1));
        assert Value(Handling(byName, failures[i + 1..], failures)) == after;
        i := i + 1;
      }
      assert failures[i..] == [];
      PassEnds(Value(Handling(byName, [], failures)), raises, stamps, i);
    }
  }

  /** What handling a failure does depends on the failure alone, not on what is left or was read. */
  lemma HandledAlike(s: System, f: Failure, left: seq<Failure>, read: seq<Failure>, stamp: Stamp)
    requires s.phase.Handling? && s.phase.left != [] && s.phase.left[0] == f && left != [] && left[0] == f
    ensures var a, b := HandleFirst(s, stamp), HandleFirst(s.(phase := Handling(s.phase.enabled, left, read)), stamp);
            && a.log == b.log && a.files == b.files && a.grants == b.grants && a.phase.enabled == b.phase.enabled
            && a.phase == Handling(b.phase.enabled, s.phase.left[1..], s.phase.read)
  {
  }

  // ---------------------------------------------------------------- what the log itself says

  ghost predicate ClearsAt(log: seq<Event>, k: nat, name: string)
    requires k < |log|
  {
    Clears(Fold(log[..k]), log[k]) == Some(name)
  }

  ghost predicate FailsAt(log: seq<Event>, k: nat, name: string)
    requires k < |log|
  {
    Fails(Fold(log[..k]), log[k]) == Some(name)
  }

  /** A marker whose notice says that the routine was turned off. */
  predicate TurnsOff(p: Payload, name: string) {
    p.RoutineFailureHandled? && p.routine == name && p.notice.Some? && p.notice.value.kind == Disabled
  }

  predicate DisablesAt(log: seq<Event>, k: nat, name: string)
    requires k < |log|
  {
    TurnsOff(log[k].payload, name)
  }

  /** Past a place, nothing cleared the routine's failures. */
  ghost predicate Uncleared(log: seq<Event>, i: nat, name: string) {
    forall k :: i < k < |log| ==> !ClearsAt(log, k, name)
  }

  /** The failed firings of a routine since its last working completion or reset. */
  ghost function FailedSince(log: seq<Event>, name: string): set<nat> {
    set i: nat | i < |log| && FailsAt(log, i, name) && Uncleared(log, i, name)
  }

  lemma AtPrefix(log: seq<Event>, n: nat, k: nat, name: string)
    requires k < n <= |log|
    ensures ClearsAt(log[..n], k, name) == ClearsAt(log, k, name)
    ensures FailsAt(log[..n], k, name) == FailsAt(log, k, name)
  {
    assert log[..n][..k] == log[..k];
  }

  lemma UnclearedStep(log: seq<Event>, i: nat, name: string)
    requires i < |log| - 1
    ensures Uncleared(log, i, name) <==> Uncleared(log[..|log| - 1], i, name) && !ClearsAt(log, |log| - 1, name)
  {
    var n := |log| - 1;
    forall k: nat | k < n ensures ClearsAt(log[..n], k, name) == ClearsAt(log, k, name) {
      AtPrefix(log, n, k, name);
    }
    hide ClearsAt;
  }

  lemma FailedSinceStep(log: seq<Event>, name: string)
    requires log != []
    ensures var n := |log| - 1;
            FailedSince(log, name) == if ClearsAt(log, n, name) then {}
                                      else FailedSince(log[..n], name) + (if FailsAt(log, n, name) then {n} else {})
  {
    var n := |log| - 1;
    ClearsOrFails(log, n, name);
    hide ClearsAt, FailsAt;
    assert Uncleared(log, n, name);
    hide Uncleared;
    forall i: nat | i < n
      ensures i in FailedSince(log, name) <==> i in FailedSince(log[..n], name) && !ClearsAt(log, n, name)
    {
      UnclearedStep(log, i, name);
      AtPrefix(log, n, i, name);
    }
  }

  lemma ClearsOrFails(log: seq<Event>, n: nat, name: string)
    requires n < |log|
    ensures !(ClearsAt(log, n, name) && FailsAt(log, n, name))
  {
  }

  lemma CountStep(s: Histories, receipt: nat, e: Event, name: string)
    ensures HistoryOf(RoutinesStep(s, receipt, e), name).failureCount
         == if Clears(s, e) == Some(name) then 0
            else HistoryOf(s.routines, name).failureCount + (if Fails(s, e) == Some(name) then 1 else 0)
  {
    hide Filter, OpenRun;
  }

  /** A routine's failure count is the number of its failed firings since its last working completion or reset. */
  lemma {:induction false} CountIsFailedSince(log: seq<Event>, name: string)
    ensures HistoryOf(Fold(log).routines, name).failureCount == |FailedSince(log, name)|
  {
    hide FailedSince, RoutinesStep, Clears, Fails, HistoryOf;
    if log == [] {
      NoneFailed(name);
    } else {
      var n := |log| - 1;
      CountIsFailedSince(log[..n], name);
      CountStep(Fold(log[..n]), n, log[n], name);
      FailedSinceStep(log, name);
      NotYet(log, n, name);
    }
  }

  lemma NoneFailed(name: string)
    ensures HistoryOf(Fold([]).routines, name).failureCount == |FailedSince([], name)|
  {
    assert FailedSince([], name) == {};
  }

  lemma NotYet(log: seq<Event>, n: nat, name: string)
    requires n <= |log|
    ensures n !in FailedSince(log[..n], name)
  {
  }
}
