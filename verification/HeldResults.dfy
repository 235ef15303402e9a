/** The step result an instance holds for each factory run. A step call is answered with one run of its
    attempt, however often it is sent, until the run's next different call: this module has the records and
    the calls that change them, and says exactly when that promise holds. */
module HeldResults {
  import opened Events

  datatype StepEnding = Passed | Failed

  datatype StepResult = StepResult(ending: StepEnding, summary: string)

  const RESTARTED := StepResult(Failed, "The instance restarted during the step.")

  datatype Call = Call(step: string, attempt: nat)

  /** A run's latest step call, and its result once it has one. */
  datatype Held = Held(call: Call, result: Option<StepResult>)

  datatype Status = Running | Returned(result: StepResult) | Raised | Cut

  /** A task started for a call. A task is known by its place among those of its run. */
  datatype Task = Task(call: Call, status: Status)

  /** One run: what is on disk for it, the call the process takes for its latest with the task that runs it,
      and every task started. */
  datatype State = State(disk: Option<Held>, running: Option<(Call, nat)>, tasks: seq<Task>)

  const IDLE := State(None, None, [])

  /** A call is the latest when it equals the one that runs, whichever task runs it. */
  predicate IsLatest(s: State, call: Call) {
    s.running.Some? && s.running.value.0 == call
  }

  predicate IsHeld(s: State, call: Call) {
    s.disk.Some? && s.disk.value.call == call
  }

  /** A call is sent: it waits for the task that runs it, is answered from disk, or starts. The reply is None
      while a task has to finish first. */
  function Sent(s: State, call: Call): (State, Option<StepResult>) {
    if IsLatest(s, call) then (s, None)
    else if IsHeld(s, call) then (s, Some(if s.disk.value.result.Some? then s.disk.value.result.value else RESTARTED))
    else (State(Some(Held(call, None)), Some((call, |s.tasks|)), s.tasks + [Task(call, Running)]), None)
  }

  /** A call that is no attempt lets go of what the run held. */
  function LetGo(s: State): State {
    s.(disk := None)
  }

  predicate IsRunning(s: State, t: nat) {
    t < |s.tasks| && s.tasks[t].status.Running?
  }

  function Finished(s: State, t: nat, result: StepResult): State
    requires IsRunning(s, t)
  {
    var call := s.tasks[t].call;
    State(if IsLatest(s, call) then Some(Held(call, Some(result))) else s.disk,
          if IsLatest(s, call) then None else s.running,
          s.tasks[t := Task(call, Returned(result))])
  }

  function HasRaised(s: State, t: nat): State
    requires IsRunning(s, t)
  {
    var call := s.tasks[t].call;
    State(if IsLatest(s, call) then None else s.disk,
          if IsLatest(s, call) then None else s.running,
          s.tasks[t := Task(call, Raised)])
  }

  function Stopped(t: Task): Task {
    if t.status.Running? then t.(status := Cut) else t
  }

  /** A restart keeps the disk, and cuts every task off. */
  function Restarted(s: State): State {
    State(s.disk, None, seq(|s.tasks|, i requires 0 <= i < |s.tasks| => Stopped(s.tasks[i])))
  }

  class HeldStepResults {
    var disk: map<Id, Held>
    var running: map<Id, (Call, nat)>
    var tasks: map<Id, seq<Task>>

    constructor ()
      ensures forall run :: Value(run) == IDLE
    {
      disk, running, tasks := map[], map[], map[];
    }

    function Value(run: Id): State
      reads this
    {
      State(if run in disk then Some(disk[run]) else None,
            if run in running then Some(running[run]) else None,
            if run in tasks then tasks[run] else [])
    }

    method Answer(run: Id, call: Option<Call>) returns (reply: Option<StepResult>)
      modifies this
      ensures call.Some? ==> (Value(run), reply) == Sent(old(Value(run)), call.value)
      ensures call.None? ==> Value(run) == LetGo(old(Value(run))) && reply.None?
      ensures forall other :: other != run ==> Value(other) == old(Value(other))
    {
      reply := None;
      if call.None? {
        disk := disk - {run};
        return;
      }
      var called := call.value;
      if run in running && running[run].0 == called {
        return;
      }
      if run in disk && disk[run].call == called {
        return Some(if disk[run].result.Some? then disk[run].result.value else RESTARTED);
      }
      disk := disk[run := Held(called, None)];
      var started := if run in tasks then tasks[run] else [];
      tasks := tasks[run := started + [Task(called, Running)]];
      running := running[run := (called, |started|)];
    }

    /** A task ends: with a result, which its run holds unless a later call replaced it, or by raising, which
        holds nothing. */
    method EndTask(run: Id, t: nat, result: Option<StepResult>)
      requires IsRunning(Value(run), t)
      modifies this
      ensures Value(run) == if result.Some? then Finished(old(Value(run)), t, result.value) else HasRaised(old(Value(run)), t)
      ensures forall other :: other != run ==> Value(other) == old(Value(other))
    {
      var called := tasks[run][t].call;
      if result.None? {
        if run in running && running[run].0 == called {
          disk := disk - {run};
        }
      } else {
        if run in running && running[run].0 == called {
          disk := disk[run := Held(called, result)];
        }
      }
      if run in running && running[run].0 == called {
        running := running - {run};
      }
      tasks := tasks[run := tasks[run][t := Task(called, if result.Some? then Returned(result.value) else Raised)]];
    }
  }

  // ---------------------------------------------------------------- runs of one factory run's calls

  datatype Action =
    | Send(call: Call)
    | SendNoAttempt
    | Finish(task: nat, result: StepResult)
    | Raise(task: nat)
    | Restart

  function Step(s: State, a: Action): State {
    match a
    case Send(call) => Sent(s, call).0
    case SendNoAttempt => LetGo(s)
    case Finish(t, result) => if IsRunning(s, t) then Finished(s, t, result) else s
    case Raise(t) => if IsRunning(s, t) then HasRaised(s, t) else s
    case Restart => Restarted(s)
  }

  /** The answer an action gives, to the call sent or to those that wait for the task that finished. */
  function AnswerOf(s: State, a: Action): Option<(Call, StepResult)> {
    match a
    case Send(call) => if Sent(s, call).1.Some? then Some((call, Sent(s, call).1.value)) else None
    case Finish(t, result) => if IsRunning(s, t) then Some((s.tasks[t].call, result)) else None
    case _ => None
  }

  function Run(s: State, actions: seq<Action>): State {
    if actions == [] then s else Step(Run(s, actions[..|actions| - 1]), actions[|actions| - 1])
  }

  function Answers(s: State, actions: seq<Action>): seq<(Call, StepResult)> {
    if actions == [] then []
    else
      var n := |actions| - 1;
      var answer := AnswerOf(Run(s, actions[..n]), actions[n]);
      Answers(s, actions[..n]) + (if answer.Some? then [answer.value] else [])
  }

  ghost predicate HasReturned(s: State, call: Call, result: StepResult) {
    exists t :: 0 <= t < |s.tasks| && s.tasks[t] == Task(call, Returned(result))
  }

  ghost predicate WasCut(s: State, call: Call) {
    exists t :: 0 <= t < |s.tasks| && s.tasks[t] == Task(call, Cut)
  }

  /** An answer that a task of the call returned, or the restart failure of a call that was cut off. */
  ghost predicate Backed(s: State, call: Call, result: StepResult) {
    HasReturned(s, call, result) || (result == RESTARTED && WasCut(s, call))
  }

  /** What the disk holds is backed, and what runs has a task of its own that runs it. */
  ghost predicate Sound(s: State) {
    && (s.running.Some? ==> s.running.value.1 < |s.tasks| && s.tasks[s.running.value.1] == Task(s.running.value.0, Running))
    && (s.disk.Some? && s.disk.value.result.Some? ==> HasReturned(s, s.disk.value.call, s.disk.value.result.value))
    && (s.disk.Some? && s.disk.value.result.None? ==> IsLatest(s, s.disk.value.call) || WasCut(s, s.disk.value.call))
  }

  /** A task that ended stays as it ended, and keeps its place. */
  ghost predicate Extends(s: State, t: State) {
    |s.tasks| <= |t.tasks| && forall i :: 0 <= i < |s.tasks| ==>
      t.tasks[i].call == s.tasks[i].call && (!s.tasks[i].status.Running? ==> t.tasks[i] == s.tasks[i])
  }

  lemma StepExtends(s: State, a: Action)
    ensures Extends(s, Step(s, a))
  {
  }

  lemma BackedStays(s: State, t: State, call: Call, result: StepResult)
    requires Extends(s, t)
    ensures HasReturned(s, call, result) ==> HasReturned(t, call, result)
    ensures WasCut(s, call) ==> WasCut(t, call)
  {
    if HasReturned(s, call, result) {
      var i :| 0 <= i < |s.tasks| && s.tasks[i] == Task(call, Returned(result));
      assert t.tasks[i] == Task(call, Returned(result));
    }
    if WasCut(s, call) {
      var i :| 0 <= i < |s.tasks| && s.tasks[i] == Task(call, Cut);
      assert t.tasks[i] == Task(call, Cut);
    }
  }

  lemma DiskStays(s: State, t: State)
    requires Sound(s) && Extends(s, t) && t.disk == s.disk
    ensures s.disk.Some? && s.disk.value.result.Some? ==> HasReturned(t, s.disk.value.call, s.disk.value.result.value)
    ensures s.disk.Some? && s.disk.value.result.None? && !IsLatest(s, s.disk.value.call) ==> WasCut(t, s.disk.value.call)
  {
    if s.disk.Some? {
      BackedStays(s, t, s.disk.value.call, if s.disk.value.result.Some? then s.disk.value.result.value else RESTARTED);
    }
  }

  lemma EndingIsSound(s: State, t: nat, a: Action)
    requires Sound(s) && IsRunning(s, t) && (a.Raise? || a.Finish?) && a.task == t
    ensures Sound(Step(s, a))
  {
    var after := Step(s, a);
    StepExtends(s, a);
    if IsLatest(s, s.tasks[t].call) {
      if a.Finish? {
        assert after.tasks[t] == Task(s.tasks[t].call, Returned(a.result));
      }
    } else {
      DiskStays(s, after);
    }
  }

  lemma StepIsSound(s: State, a: Action)
    requires Sound(s)
    ensures Sound(Step(s, a))
  {
    var after := Step(s, a);
    StepExtends(s, a);
    match a
    case Send(call) =>
    case SendNoAttempt =>
    case Finish(t, result) => if IsRunning(s, t) { EndingIsSound(s, t, a); }
    case Raise(t) => if IsRunning(s, t) { EndingIsSound(s, t, a); }
    case Restart =>
      DiskStays(s, after);
      if s.running.Some? {
        assert after.tasks[s.running.value.1] == Task(s.running.value.0, Cut);
      }
  }

  lemma StepBacks(s: State, a: Action)
    requires Sound(s) && AnswerOf(s, a).Some?
    ensures Backed(Step(s, a), AnswerOf(s, a).value.0, AnswerOf(s, a).value.1)
  {
    if a.Finish? {
      assert Step(s, a).tasks[a.task] == Task(s.tasks[a.task].call, Returned(a.result));
    }
  }

  /** Over every interleaving of sends, results, exceptions and restarts, each answer is a result of the same
      step and attempt, or the restart failure of one that a restart cut off. */
  lemma {:induction false} AnswersAreBacked(actions: seq<Action>)
    ensures var s := Run(IDLE, actions);
            && Sound(s)
            && forall answer :: answer in Answers(IDLE, actions) ==> Backed(s, answer.0, answer.1)
  {
    hide Step, AnswerOf, Sound, Backed;
    if actions == [] {
      IdleIsSound();
    } else {
      var n := |actions| - 1;
      var s := Run(IDLE, actions[..n]);
      AnswersAreBacked(actions[..n]);
      StepIsSound(s, actions[n]);
      StepExtends(s, actions[n]);
      forall answer | answer in Answers(IDLE, actions) ensures Backed(Run(IDLE, actions), answer.0, answer.1) {
        if answer in Answers(IDLE, actions[..n]) {
          AnswerStays(s, Step(s, actions[n]), answer);
        } else {
          StepBacks(s, actions[n]);
        }
      }
    }
  }

  lemma IdleIsSound()
    ensures Sound(IDLE)
  {
  }

  lemma AnswerStays(s: State, t: State, answer: (Call, StepResult))
    requires Extends(s, t) && Backed(s, answer.0, answer.1)
    ensures Backed(t, answer.0, answer.1)
  {
    BackedStays(s, t, answer.0, answer.1);
  }

  // ---------------------------------------------------------------- until the run's next different call

  /** Sending the call starts a task for it. */
  predicate Starts(s: State, call: Call) {
    !IsLatest(s, call) && !IsHeld(s, call)
  }

  /** The actions that may come before the run's next different call. */
  predicate WithinCall(actions: seq<Action>, call: Call) {
    forall a :: a in actions ==> !a.SendNoAttempt? && (a.Send? ==> a.call == call)
  }

  /** No task of the call is left running from before. */
  predicate NoLeftover(s: State, call: Call) {
    forall t :: 0 <= t < |s.tasks| ==> !(s.tasks[t].call == call && s.tasks[t].status.Running?)
  }

  /** A task of the call that returned, and had not when the call started. */
  predicate IsNewResult(s: State, t: State, call: Call, i: nat)
    requires i < |t.tasks|
  {
    t.tasks[i].call == call && t.tasks[i].status.Returned? && (i < |s.tasks| ==> s.tasks[i].status.Running?)
  }

  /** How many of the first `n` tasks are such. */
  function Results(s: State, t: State, call: Call, n: nat): nat
    requires n <= |t.tasks|
  {
    if n == 0 then 0 else Results(s, t, call, n - 1) + (if IsNewResult(s, t, call, n - 1) then 1 else 0)
  }

  function ResultsSince(s: State, t: State, call: Call): nat {
    Results(s, t, call, |t.tasks|)
  }

  ghost predicate NoResult(s: State, t: State, call: Call) {
    forall i :: 0 <= i < |t.tasks| ==> !IsNewResult(s, t, call, i)
  }

  ghost predicate OneResult(s: State, t: State, call: Call, result: StepResult) {
    exists i :: 0 <= i < |t.tasks| && IsNewResult(s, t, call, i) && t.tasks[i].status.result == result
      && forall j :: 0 <= j < |t.tasks| && j != i ==> !IsNewResult(s, t, call, j)
  }

  /** Where a call can be, once started with no task of it left over: running, answered, cut off by a
      restart, or raised. */
  ghost predicate Underway(s: State, t: State, call: Call) {
    && Extends(s, t)
    && (t.running.Some? ==>
          && t.running.value.0 == call && t.disk == Some(Held(call, None))
          && t.running.value.1 < |t.tasks| && t.tasks[t.running.value.1] == Task(call, Running))
    && (forall i :: 0 <= i < |t.tasks| && t.tasks[i].call == call && t.tasks[i].status.Running? ==> t.running == Some((call, i)))
    && (t.disk.Some? ==> t.disk.value.call == call)
    && (t.disk.None? || t.disk.value.result.None? ==> NoResult(s, t, call))
    && (t.disk.Some? && t.disk.value.result.Some? ==> OneResult(s, t, call, t.disk.value.result.value))
  }

  lemma SendUnderway(s: State, t: State, call: Call)
    requires Underway(s, t, call)
    ensures Underway(s, Step(t, Send(call)), call)
    ensures Settled(t).Some? ==> Sent(t, call) == (t, Settled(t))
    ensures Sent(t, call).1.Some? ==> Settled(t) == Sent(t, call).1
  {
    var after := Step(t, Send(call));
    if Starts(t, call) {
      assert forall i :: 0 <= i < |after.tasks| ==> !IsNewResult(s, after, call, i) by {
        forall i | 0 <= i < |t.tasks| ensures !IsNewResult(s, after, call, i) {
          assert !IsNewResult(s, t, call, i);
        }
      }
    }
  }

  /** What every later send of the call is answered, once that is settled. */
  function Settled(t: State): Option<StepResult> {
    if t.running.Some? || t.disk.None? then None
    else Some(if t.disk.value.result.Some? then t.disk.value.result.value else RESTARTED)
  }

  lemma EndingElsewhere(s: State, t: State, call: Call, a: Action)
    requires Underway(s, t, call) && (a.Finish? || a.Raise?) && IsRunning(t, a.task) && t.tasks[a.task].call != call
    ensures Underway(s, Step(t, a), call) && Settled(Step(t, a)) == Settled(t)
  {
    var after := Step(t, a);
    forall i | 0 <= i < |after.tasks| ensures IsNewResult(s, after, call, i) == IsNewResult(s, t, call, i) {
    }
  }

  lemma EndingUnderway(s: State, t: State, call: Call, a: Action)
    requires Underway(s, t, call) && (a.Finish? || a.Raise?) && IsRunning(t, a.task) && t.tasks[a.task].call == call
    ensures Underway(s, Step(t, a), call)
    ensures Settled(t).None? && (a.Finish? ==> Settled(Step(t, a)) == Some(a.result))
  {
    var after, k := Step(t, a), a.task;
    assert t.running == Some((call, k));
    forall i | 0 <= i < |after.tasks| && i != k ensures !IsNewResult(s, after, call, i) {
      assert !IsNewResult(s, t, call, i);
    }
    if a.Finish? {
      assert IsNewResult(s, after, call, k);
    }
  }

  lemma RestartUnderway(s: State, t: State, call: Call)
    requires Underway(s, t, call)
    ensures Underway(s, Restarted(t), call)
    ensures Settled(t).Some? ==> Settled(Restarted(t)) == Settled(t)
  {
    var after := Restarted(t);
    forall i | 0 <= i < |after.tasks| ensures IsNewResult(s, after, call, i) == IsNewResult(s, t, call, i) {
    }
  }

  lemma StepUnderway(s: State, t: State, call: Call, a: Action)
    requires Underway(s, t, call) && WithinCall([a], call)
    ensures Underway(s, Step(t, a), call)
    ensures Settled(t).Some? ==> Settled(Step(t, a)) == Settled(t)
    ensures AnswerOf(t, a).Some? && AnswerOf(t, a).value.0 == call ==> Settled(Step(t, a)) == Some(AnswerOf(t, a).value.1)
  {
    hide Underway;
    assert a in [a];
    match a
    case Send(c) => SendUnderway(s, t, call);
    case Restart => RestartUnderway(s, t, call);
    case Finish(k, _) =>
      if IsRunning(t, k) {
        if t.tasks[k].call == call { EndingUnderway(s, t, call, a); } else { EndingElsewhere(s, t, call, a); }
      }
    case Raise(k) =>
      if IsRunning(t, k) {
        if t.tasks[k].call == call { EndingUnderway(s, t, call, a); } else { EndingElsewhere(s, t, call, a); }
      }
  }

  lemma StartUnderway(s: State, call: Call)
    requires Starts(s, call) && NoLeftover(s, call)
    ensures Underway(s, Sent(s, call).0, call)
  {
  }

  lemma {:induction false} RunUnderway(s: State, call: Call, actions: seq<Action>)
    requires Starts(s, call) && NoLeftover(s, call) && WithinCall(actions, call)
    ensures var t := Run(Sent(s, call).0, actions);
            && Underway(s, t, call)
            && forall answer :: answer in Answers(Sent(s, call).0, actions) && answer.0 == call ==> Settled(t) == Some(answer.1)
  {
    hide Underway, Step, AnswerOf, Sent, Settled;
    if actions == [] {
      StartUnderway(s, call);
    } else {
      var n := |actions| - 1;
      assert actions[n] in actions;
      RunUnderway(s, call, actions[..n]);
      StepUnderway(s, Run(Sent(s, call).0, actions[..n]), call, actions[n]);
    }
  }

  lemma {:induction false} FewResults(s: State, t: State, call: Call, n: nat)
    requires n <= |t.tasks|
    requires forall i, j :: 0 <= i < j < n ==> !(IsNewResult(s, t, call, i) && IsNewResult(s, t, call, j))
    ensures Results(s, t, call, n) <= 1
    ensures Results(s, t, call, n) == 0 || exists i :: 0 <= i < n && IsNewResult(s, t, call, i)
  {
    if n > 0 {
      FewResults(s, t, call, n - 1);
      if IsNewResult(s, t, call, n - 1) && Results(s, t, call, n - 1) > 0 {
        assert false;
      }
    }
  }

  lemma {:induction false} TwoResults(s: State, t: State, call: Call, i: nat, j: nat, n: nat)
    requires i < j < n <= |t.tasks| && IsNewResult(s, t, call, i) && IsNewResult(s, t, call, j)
    ensures Results(s, t, call, n) >= 2
  {
    if n - 1 == j {
      OneAtLeast(s, t, call, i, j);
    } else {
      TwoResults(s, t, call, i, j, n - 1);
    }
  }

  lemma {:induction false} OneAtLeast(s: State, t: State, call: Call, i: nat, n: nat)
    requires i < n <= |t.tasks| && IsNewResult(s, t, call, i)
    ensures Results(s, t, call, n) >= 1
  {
    if i < n - 1 {
      OneAtLeast(s, t, call, i, n - 1);
    }
  }

  /** A task left over from an earlier start of the same call may return beside the new one. */
  lemma LeftoverReturnsToo(s: State, call: Call, k: nat) returns (actions: seq<Action>)
    requires Starts(s, call) && k < |s.tasks| && s.tasks[k] == Task(call, Running)
    ensures WithinCall(actions, call) && ResultsSince(s, Run(Sent(s, call).0, actions), call) >= 2
  {
    var result, n := StepResult(Passed, ""), |s.tasks|;
    actions := [Finish(k, result), Finish(n, result)];
    assert actions[..1] == [Finish(k, result)] && actions[..1][..0] == [];
    var started := Sent(s, call).0;
    var one := Step(started, Finish(k, result));
    assert Run(started, actions[..1]) == one;
    var two := Run(started, actions);
    assert two == Step(one, Finish(n, result));
    assert one.tasks[n] == Task(call, Running);
    TwoResults(s, two, call, k, n, |two.tasks|);
  }

  /** Until the run's next different call an attempt runs to at most one result, whatever is sent, raised and
      restarted meanwhile, exactly when no task of the same call was left running when it started: a run's
      records compare calls, and not the tasks that run them. */
  lemma {:induction false} AtMostOneResult(s: State, call: Call)
    requires Starts(s, call)
    ensures NoLeftover(s, call)
       <==> forall actions :: WithinCall(actions, call) ==> ResultsSince(s, Run(Sent(s, call).0, actions), call) <= 1
  {
    if NoLeftover(s, call) {
      forall actions | WithinCall(actions, call) ensures ResultsSince(s, Run(Sent(s, call).0, actions), call) <= 1 {
        RunUnderway(s, call, actions);
        var t := Run(Sent(s, call).0, actions);
        FewResults(s, t, call, |t.tasks|);
      }
    } else {
      var k: nat :| k < |s.tasks| && s.tasks[k].call == call && s.tasks[k].status.Running?;
      var actions := LeftoverReturnsToo(s, call, k);
    }
  }

  /** Started with none left over, a call has one answer until the run's next different call. */
  lemma {:induction false} OneAnswer(s: State, call: Call, actions: seq<Action>, x: (Call, StepResult), y: (Call, StepResult))
    requires Starts(s, call) && NoLeftover(s, call) && WithinCall(actions, call)
    requires x in Answers(Sent(s, call).0, actions) && y in Answers(Sent(s, call).0, actions) && x.0 == call && y.0 == call
    ensures x.1 == y.1
  {
    RunUnderway(s, call, actions);
  }

  /** One cut off by a restart is not started again: every later send is answered with the restart failure. */
  lemma {:induction false} CutIsNotStartedAgain(t: State, call: Call, actions: seq<Action>)
    requires IsLatest(t, call) && IsHeld(t, call) && t.disk.value.result.None? && WithinCall(actions, call)
    ensures Run(Restarted(t), actions) == Restarted(t)
    ensures forall answer :: answer in Answers(Restarted(t), actions) ==> answer == (call, RESTARTED) && answer.1.ending == StepEnding.Failed
  {
    if actions != [] {
      var n := |actions| - 1;
      assert actions[n] in actions;
      CutIsNotStartedAgain(t, call, actions[..n]);
      var s := Restarted(t);
      if actions[n].Restart? {
        assert Restarted(s).tasks == s.tasks;
      }
    }
  }

  /** The states of the run below, one after each send and result. */
  lemma TwoTasksOfOneCall(a: Call, b: Call, first: StepResult, second: StepResult)
    returns (s1: State, s2: State, s3: State, s4: State)
    requires a != b
    ensures s1 == Step(IDLE, Send(a)) && s2 == Step(s1, Send(b)) && s3 == Step(s2, Send(a)) && s4 == Step(s3, Finish(0, first))
    ensures AnswerOf(IDLE, Send(a)) == None && AnswerOf(s1, Send(b)) == None && AnswerOf(s2, Send(a)) == None
    ensures AnswerOf(s3, Finish(0, first)) == Some((a, first))
    ensures Step(s4, Send(a)) == s4 && AnswerOf(s4, Send(a)) == Some((a, first)) && AnswerOf(s4, Finish(2, second)) == Some((a, second))
  {
    s1 := Step(IDLE, Send(a));
    s2 := Step(s1, Send(b));
    s3 := Step(s2, Send(a));
    s4 := Step(s3, Finish(0, first));
    assert s3.tasks == [Task(a, Running), Task(b, Running), Task(a, Running)];
  }

  /** A run's calls A, B and A again, the first still running: both tasks of A return, with different answers. */
  lemma ASecondResult(a: Call, b: Call, first: StepResult, second: StepResult)
    requires a != b && first != second
    ensures var actions := [Send(a), Send(b), Send(a), Finish(0, first), Send(a), Finish(2, second)];
            Answers(IDLE, actions) == [(a, first), (a, first), (a, second)]
  {
    NothingAnswered();
    hide Run, Answers, Step, AnswerOf;
    var s1, s2, s3, s4 := TwoTasksOfOneCall(a, b, first, second);
    var r1, r2, r3 := [Send(a)], [Send(a), Send(b)], [Send(a), Send(b), Send(a)];
    var r4, r5 := r3 + [Finish(0, first)], r3 + [Finish(0, first), Send(a)];
    assert [] + r1 == r1 && r1 + [Send(b)] == r2 && r2 + [Send(a)] == r3 && r4 + [Send(a)] == r5;
    assert r5 + [Finish(2, second)] == [Send(a), Send(b), Send(a), Finish(0, first), Send(a), Finish(2, second)];
    AnswersNext(IDLE, [], Send(a), IDLE);
    AnswersNext(IDLE, r1, Send(b), s1);
    AnswersNext(IDLE, r2, Send(a), s2);
    AnswersNext(IDLE, r3, Finish(0, first), s3);
    AnswersNext(IDLE, r4, Send(a), s4);
    AnswersNext(IDLE, r5, Finish(2, second), s4);
  }

  lemma NothingAnswered()
    ensures Run(IDLE, []) == IDLE && Answers(IDLE, []) == []
  {
  }

  lemma AnswersNext(s: State, actions: seq<Action>, a: Action, at: State)
    requires Run(s, actions) == at
    ensures Run(s, actions + [a]) == Step(at, a)
    ensures Answers(s, actions + [a]) == Answers(s, actions) + (if AnswerOf(at, a).Some? then [AnswerOf(at, a).value] else [])
  {
    assert (actions + [a])[..|actions|] == actions;
  }

  // ---------------------------------------------------------------- when a call starts

  /** A send that finds the call running only waits; any other of the call held is answered at once, with its
      result or the restart failure; and any other still starts a task of its own, and holds the call. */
  ghost predicate StartsATask(before: State, after: State, call: Call) {
    && after.tasks == before.tasks + [Task(call, Running)] && after.running == Some((call, |before.tasks|))
    && after.disk == Some(Held(call, None))
  }

  /** A call that is no attempt lets go of what the run held, so that the run's next call starts a task, unless
      it is one that still runs. */
  lemma LetGoStartsAnew(actions: seq<Action>, call: Call)
    ensures var s, after := Run(IDLE, actions), Run(IDLE, actions + [SendNoAttempt]);
            && after.tasks == s.tasks && after.running == s.running && after.disk.None?
            && if s.running.Some? && s.running.value.0 == call then Sent(after, call) == (after, None)
               else Sent(after, call).1.None? && StartsATask(after, Sent(after, call).0, call)
  {
    assert (actions + [SendNoAttempt])[..|actions|] == actions;
  }

  /** After a call was sent, and until a different one is, sending it again starts nothing while it runs or has
      a result, and a different call starts a task at once. */
  lemma SendStarts(s: State, call: Call, other: Call)
    requires call != other && Sound(s)
    ensures var after := Sent(s, call).0;
            && Sent(after, call).0 == after
            && (s.running.None? && s.disk.None? ==> StartsATask(s, after, call))
            && ((after.running.None? || after.running.value.0 != other) && (after.disk.None? || after.disk.value.call != other)
                ==> StartsATask(after, Sent(after, other).0, other) && Sent(after, other).1.None?)
  {
  }
}
