/** What the fold says of a routine's runs and deliveries, told from the log: what became of each run, in what
    words it ended, the notices of its routine and the last failure's reason, and what each waiting delivery is
    of. */
module RoutineRuns {
  import opened Events
  import opened RoutineHistory
  import opened FailurePolicy
  import opened FailurePolicyTheorem

  // ---------------------------------------------------------------- a run's own events

  /** The first start of a turn by a routine, which fires the run. */
  function FiredBy(log: seq<Event>, key: TurnKey): (fired: Option<Event>)
    ensures fired.Some? ==> fired.value in log && KeyOf(fired.value) == key && IsFiring(fired.value.payload)
    ensures fired.None? <==> forall e :: e in log && KeyOf(e) == key ==> !IsFiring(e.payload)
  {
    if log == [] then None
    else
      var n := |log| - 1;
      var before := FiredBy(log[..n], key);
      assert log == log[..n] + [log[n]];
      if before.Some? then before else if KeyOf(log[n]) == key && IsFiring(log[n].payload) then Some(log[n]) else None
  }

  predicate Ends(p: Payload) {
    p.TurnCompleted? || p.TurnFailed? || p.TurnInterrupted?
  }

  predicate HasEnded(own: seq<Event>) {
    exists e :: e in own && Ends(e.payload)
  }

  /** What a run's turn stored while the run was open, its first closing included. What is stored of
      deliveries, starts and the failure policy is no part of it. */
  function OwnWhileOpen(log: seq<Event>, key: TurnKey): seq<Event> {
    if log == [] then []
    else
      var n := |log| - 1;
      var before, p := OwnWhileOpen(log[..n], key), log[n].payload;
      if KeyOf(log[n]) != key || FiredBy(log[..n], key).None? || HasEnded(before)
         || IsDelivery(p) || IsFiring(p) || p.RoutineFailureHandled? || p.RoutineFailuresReset?
      then before else before + [log[n]]
  }

  // ---------------------------------------------------------------- what became of a run

  predicate AskedIn(own: seq<Event>) {
    exists e :: e in own && e.payload.ApprovalRequested?
  }

  /** The model's words since the last tool call. */
  function WordsOf(own: seq<Event>): string {
    if own == [] then ""
    else
      var before, p := WordsOf(own[..|own| - 1]), own[|own| - 1].payload;
      if p.ToolCall? then "" else if p.MessageDelta? then before + p.text else before
  }

  predicate IsFirstLine(line: string, text: string) {
    '\n' !in line && (line == text || line + ['\n'] <= text)
  }

  /** A run's outcome is that of the closing it ended with; before it ends, it is parked once it asked for an
      approval, and open until then. */
  predicate OutcomeTold(outcome: RunOutcome, own: seq<Event>) {
    if own != [] && Ends(own[|own| - 1].payload) then
      match own[|own| - 1].payload
      case TurnCompleted(_, work) => outcome == if work == Work then RunWorked else RunHadNoWork
      case TurnFailed(_, _) => outcome == RunFailed
      case TurnInterrupted(_) => outcome == RunInterrupted
    else outcome == if AskedIn(own) then RunParked else RunIsOpen
  }

  ghost predicate RunTold(run: RunRecord, fired: Event, own: seq<Event>) {
    && IsFiring(fired.payload) && run.name == fired.payload.origin.name && run.startedAt == fired.time
    && OutcomeTold(run.outcome, own)
    && run.text == WordsOf(own) && IsFirstLine(run.firstLine, run.text)
  }

  lemma {:induction false} FirstLineIs(text: string)
    ensures IsFirstLine(FirstLine(text), text)
  {
    if text != [] && text[0] != '\n' {
      FirstLineIs(text[1..]);
      assert text == [text[0]] + text[1..];
    }
  }

  lemma RunNext(run: RunRecord, fired: Event, own: seq<Event>, e: Event)
    requires RunTold(run, fired, own) && !HasEnded(own)
    ensures RunTold(RunStep(run, e.payload), fired, own + [e])
  {
    hide FirstLine;
    var after := own + [e];
    assert after[..|own|] == own;
    if e.payload.MessageDelta? {
      FirstLineIs(run.text + e.payload.text);
    }
    if own != [] {
      assert own[|own| - 1] in own;
    }
    assert e in after;
  }

  lemma EndedSnoc(own: seq<Event>, e: Event)
    ensures HasEnded(own + [e]) <==> HasEnded(own) || Ends(e.payload)
  {
    assert e in own + [e];
    if x :| x in own && Ends(x.payload) {
      assert x in own + [x];
    }
  }

  lemma FiredRun(fired: Event)
    requires IsFiring(fired.payload)
    ensures RunTold(RunRecord(fired.payload.origin.name, fired.time, RunIsOpen, "", ""), fired, []) && !HasEnded([])
  {
  }

  /** What the fold holds of a turn's run. */
  ghost predicate HoldsRun(s: Histories, key: TurnKey, fired: Option<Event>, own: seq<Event>) {
    && (key in s.runs <==> fired.Some?) && (key in s.closed <==> fired.Some? && HasEnded(own))
    && (fired.None? ==> own == [])
    && (fired.Some? ==> RunTold(s.runs[key], fired.value, own))
  }

  lemma ElsewhereHolds(s: Histories, receipt: nat, e: Event, key: TurnKey)
    requires KeyOf(e) != key
    ensures var t := Step(s, receipt, e);
            (key in t.runs <==> key in s.runs) && (key in s.runs ==> t.runs[key] == s.runs[key]) && (key in t.closed <==> key in s.closed)
  {
    hide RoutinesStep, FailuresStep, QueuedStep, HandledStep;
  }

  lemma StepHolds(s: Histories, receipt: nat, e: Event, fired: Option<Event>, own: seq<Event>)
    requires HoldsRun(s, KeyOf(e), fired, own)
    ensures var p := e.payload;
            var passes := fired.None? || HasEnded(own) || IsDelivery(p) || IsFiring(p) || p.RoutineFailureHandled? || p.RoutineFailuresReset?;
            HoldsRun(Step(s, receipt, e), KeyOf(e), if fired.None? && IsFiring(p) then Some(e) else fired, if passes then own else own + [e])
  {
    hide RoutinesStep, FailuresStep, QueuedStep, HandledStep, RunTold, HasEnded, RunStep;
    EndedSnoc(own, e);
    if IsFiring(e.payload) {
      FiredRun(e);
    }
    if fired.Some? && !HasEnded(own) {
      RunNext(s.runs[KeyOf(e)], fired.value, own, e);
      OthersChangeNothing(s.runs[KeyOf(e)], e.payload);
    }
  }

  lemma OthersChangeNothing(run: RunRecord, p: Payload)
    ensures p.SignalReceived? || p.TurnStarted? || p.RoutineFailureHandled? || p.RoutineFailuresReset? ==> RunStep(run, p) == run
    ensures p.SignalReceived? || p.TurnStarted? || p.RoutineFailureHandled? || p.RoutineFailuresReset? ==> !Ends(p)
  {
  }

  lemma FiredNext(log: seq<Event>, e: Event, key: TurnKey)
    ensures FiredBy(log + [e], key)
         == if FiredBy(log, key).Some? then FiredBy(log, key) else if KeyOf(e) == key && IsFiring(e.payload) then Some(e) else None
  {
    assert (log + [e])[..|log|] == log;
  }

  /** Every run is told by its own turn: it is of the routine whose start fired it first, it has the outcome of
      the closing it ended with, or is parked once it asked, and its words are the model's since the last tool
      call, of which the first line is kept. */
  lemma {:induction false} RunIsTold(log: seq<Event>, key: TurnKey)
    ensures HoldsRun(Fold(log), key, FiredBy(log, key), OwnWhileOpen(log, key))
  {
    hide Step, HoldsRun, FiredBy, HasEnded;
    if log == [] {
      NoRun(key);
    } else {
      var n := |log| - 1;
      RunIsTold(log[..n], key);
      assert log == log[..n] + [log[n]];
      FiredNext(log[..n], log[n], key);
      var s, fired, own := Fold(log[..n]), FiredBy(log[..n], key), OwnWhileOpen(log[..n], key);
      if KeyOf(log[n]) == key {
        StepHolds(s, n, log[n], fired, own);
      } else {
        ElsewhereHolds(s, n, log[n], key);
        SameHolds(s, Step(s, n, log[n]), key, fired, own);
      }
    }
  }

  lemma SameHolds(s: Histories, t: Histories, key: TurnKey, fired: Option<Event>, own: seq<Event>)
    requires HoldsRun(s, key, fired, own)
    requires (key in t.runs <==> key in s.runs) && (key in s.runs ==> t.runs[key] == s.runs[key]) && (key in t.closed <==> key in s.closed)
    ensures HoldsRun(t, key, fired, own)
  {
  }

  lemma NoRun(key: TurnKey)
    ensures HoldsRun(NOTHING, key, FiredBy([], key), [])
  {
  }

  // ---------------------------------------------------------------- what fails, and what clears

  /** A turn is a run of a routine that has not ended. */
  predicate Runs(log: seq<Event>, key: TurnKey, name: string) {
    && FiredBy(log, key).Some? && !HasEnded(OwnWhileOpen(log, key))
    && var fired := FiredBy(log, key).value.payload; IsFiring(fired) && fired.origin.name == name
  }

  /** A firing fails when a routine's run that has not ended does; and a routine's failures are cleared by a
      reset of it, or by a run of it that has not ended completing with work, and by nothing else. */
  lemma FailuresAndClearings(log: seq<Event>, k: nat, name: string)
    requires k < |log|
    ensures var e := log[k];
            && (FailsAt(log, k, name) <==> e.payload.TurnFailed? && Runs(log[..k], KeyOf(e), name))
            && (ClearsAt(log, k, name) <==>
                  || (e.payload.RoutineFailuresReset? && e.payload.routine == name)
                  || (e.payload.TurnCompleted? && e.payload.outcome == Work && Runs(log[..k], KeyOf(e), name)))
  {
    var key := KeyOf(log[k]);
    RunIsTold(log[..k], key);
    hide Fold, FiredBy, OwnWhileOpen, HasEnded, OutcomeTold, IsFirstLine, WordsOf;
  }

  // ---------------------------------------------------------------- what a routine's history says

  ghost predicate MarkedBefore(log: seq<Event>, k: nat)
    requires k < |log|
  {
    exists j :: 0 <= j < k && log[j].payload.RoutineFailureHandled? && KeyOf(log[j]) == KeyOf(log[k])
  }

  /** The notices of a routine's failed firings, each of the firing's first marker. */
  ghost function NoticesTold(log: seq<Event>, name: string): seq<Notice> {
    if log == [] then []
    else
      var n := |log| - 1;
      var before, p := NoticesTold(log[..n], name), log[n].payload;
      if p.RoutineFailureHandled? && p.routine == name && p.notice.Some? && !MarkedBefore(log, n) then before + [p.notice.value] else before
  }

  /** Why the routine's firing that failed last did. */
  ghost function LastReason(log: seq<Event>, name: string): Option<string> {
    if log == [] then None
    else
      var n := |log| - 1;
      if FailsAt(log, n, name) && log[n].payload.TurnFailed? then Some(log[n].payload.message) else LastReason(log[..n], name)
  }

  lemma HistoryStep(s: Histories, receipt: nat, e: Event, name: string)
    ensures var h, after, p := HistoryOf(s.routines, name), HistoryOf(RoutinesStep(s, receipt, e), name), e.payload;
            && after.notices == (if p.RoutineFailureHandled? && p.routine == name && p.notice.Some? && KeyOf(e) !in s.handled
                                 then h.notices + [p.notice.value] else h.notices)
            && after.lastFailure == (if p.TurnFailed? && Fails(s, e) == Some(name) then Some(p.message) else h.lastFailure)
  {
    hide Filter, OpenRun;
  }

  lemma MarkedIs(log: seq<Event>, n: nat)
    requires n < |log|
    ensures MarkedBefore(log, n) <==> Marked(log[..n], KeyOf(log[n]))
  {
    if j :| 0 <= j < n && log[j].payload.RoutineFailureHandled? && KeyOf(log[j]) == KeyOf(log[n]) {
      assert log[j] in log[..n];
    }
    if e :| e in log[..n] && e.payload.RoutineFailureHandled? && KeyOf(e) == KeyOf(log[n]) {
      var j :| 0 <= j < n && log[..n][j] == e;
      assert log[j] == e;
    }
  }

  /** A routine's history has the notices its failures were first marked with, in order, and the reason of the
      last failure. */
  lemma {:induction false} HistoryIsTold(log: seq<Event>, name: string)
    ensures var h := HistoryOf(Fold(log).routines, name); h.notices == NoticesTold(log, name) && h.lastFailure == LastReason(log, name)
  {
    hide RoutinesStep, HistoryOf, Fails, MarkedBefore, Marked;
    if log == [] {
      NewHistory(name);
    } else {
      var n := |log| - 1;
      HistoryIsTold(log[..n], name);
      HistoryStep(Fold(log[..n]), n, log[n], name);
      MarkedIs(log, n);
      HandledAreMarked(log[..n], KeyOf(log[n]));
    }
  }

  lemma NewHistory(name: string)
    ensures HistoryOf(NOTHING.routines, name) == NEW_HISTORY
  {
  }

  // ---------------------------------------------------------------- what waits

  /** A delivery that waits is of the arrival it has the receipt of, in every part. */
  predicate PendingTold(log: seq<Event>, p: Pending, name: string) {
    && p.receipt < |log| && p.name == name
    && var e := log[p.receipt];
       KeyOf(e) == p.key && e.payload.SignalReceived? && e.payload.signal.RoutineOrigin? && e.payload.signal.name == name
       && e.payload.signal.trigger == p.trigger && e.payload.delivery == p.delivery
  }

  lemma PendingStep(s: Histories, receipt: nat, e: Event, name: string, p: Pending)
    requires p in HistoryOf(RoutinesStep(s, receipt, e), name).pending
    ensures p in HistoryOf(s.routines, name).pending
            || (e.payload.SignalReceived? && e.payload.signal.RoutineOrigin? && e.payload.signal.name == name
                && p == Pending(KeyOf(e), receipt, name, e.payload.signal.trigger, e.payload.delivery))
  {
    hide Filter, OpenRun;
    if IsFiring(e.payload) && KeyOf(e) in s.queued && s.queued[KeyOf(e)] in s.routines {
      FilterMembers(s.routines[s.queued[KeyOf(e)]].pending, IsNotFor(KeyOf(e)));
    }
  }

  /** Every delivery that waits for a routine says what its arrival does. */
  lemma {:induction false} PendingIsTold(log: seq<Event>, name: string, p: Pending)
    requires p in HistoryOf(Fold(log).routines, name).pending
    ensures PendingTold(log, p, name)
  {
    hide RoutinesStep, HistoryOf;
    if log == [] {
      NewHistory(name);
    } else {
      var n := |log| - 1;
      PendingStep(Fold(log[..n]), n, log[n], name, p);
      if p in HistoryOf(Fold(log[..n]).routines, name).pending {
        PendingIsTold(log[..n], name, p);
      }
    }
  }

  // ---------------------------------------------------------------- the order of failures

  ghost predicate Rising(failures: seq<Failure>) {
    forall i, j :: 0 <= i < j < |failures| && failures[i].name == failures[j].name ==> failures[i].count < failures[j].count
  }

  ghost predicate Bounded(failures: seq<Failure>, routines: map<string, History>) {
    forall f :: f in failures ==> f.count <= HistoryOf(routines, f.name).failureCount
  }

  /** A routine's failures are listed in the order they came, each with a higher count than the one before. */
  ghost predicate CountsRise(s: Histories) {
    Rising(s.failures) && Bounded(s.failures, s.routines)
  }

  lemma RisingSnoc(failures: seq<Failure>, f: Failure)
    requires Rising(failures) && forall x :: x in failures && x.name == f.name ==> x.count < f.count
    ensures Rising(failures + [f])
  {
    var longer := failures + [f];
    forall i, j | 0 <= i < j < |longer| && longer[i].name == longer[j].name ensures longer[i].count < longer[j].count {
      assert longer[i] == failures[i] && failures[i] in failures;
    }
  }

  lemma {:induction false} FilteredRise(s: seq<Failure>, keep: Failure -> bool)
    requires Rising(s)
    ensures Rising(Filter(s, keep))
  {
    if s != [] {
      var n := |s| - 1;
      FilteredRise(s[..n], keep);
      FilterMembers(s[..n], keep);
      if keep(s[n]) {
        forall x | x in Filter(s[..n], keep) && x.name == s[n].name ensures x.count < s[n].count {
          var j :| 0 <= j < n && s[..n][j] == x;
          assert s[j] == x;
        }
        RisingSnoc(Filter(s[..n], keep), s[n]);
      }
    }
  }

  lemma StepCountsRise(s: Histories, receipt: nat, e: Event)
    requires CountsRise(s)
    ensures CountsRise(Step(s, receipt, e))
  {
    hide RoutinesStep, RunsStep, HistoryOf, Clears, Fails, ClosedStep, HandledStep, QueuedStep, Rising, Filter;
    var t := Step(s, receipt, e);
    forall name ensures HistoryOf(t.routines, name).failureCount
                     == if Clears(s, e) == Some(name) then 0
                        else HistoryOf(s.routines, name).failureCount + (if Fails(s, e) == Some(name) then 1 else 0) {
      CountStep(s, receipt, e, name);
    }
    ClearsOrNotFails(s, e);
    if Clears(s, e).Some? {
      FilteredRise(s.failures, IsNotOf(Clears(s, e).value));
      FilterMembers(s.failures, IsNotOf(Clears(s, e).value));
    } else if Fails(s, e).Some? {
      RisingSnoc(s.failures, t.failures[|s.failures|]);
    }
  }

  lemma ClearsOrNotFails(s: Histories, e: Event)
    ensures Clears(s, e).Some? ==> Fails(s, e).None?
  {
  }

  lemma {:induction false} FailuresRise(log: seq<Event>)
    ensures CountsRise(Fold(log))
  {
    hide Step, CountsRise;
    if log == [] {
      NoFailures();
    } else {
      FailuresRise(log[..|log| - 1]);
      StepCountsRise(Fold(log[..|log| - 1]), |log| - 1, log[|log| - 1]);
    }
  }

  lemma NoFailures()
    ensures CountsRise(NOTHING)
  {
  }
}
