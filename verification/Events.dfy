/** The instance's event log: what each event carries, and the reads of the log as the filters they
    state. Ids are numbers, times are whole numbers, and a log is the sequence of its events in the
    order they were appended. */
module Events {

  datatype Option<+T> = None | Some(value: T)

  type Id = nat

  /** Token counts, cache reads and cache writes being part of the input. */
  datatype Tokens = Tokens(input: int, output: int, cacheRead: int, cacheCreation: int)

  const NO_TOKENS := Tokens(0, 0, 0, 0)

  function AddTokens(a: Tokens, b: Tokens): Tokens {
    Tokens(a.input + b.input, a.output + b.output, a.cacheRead + b.cacheRead, a.cacheCreation + b.cacheCreation)
  }

  datatype UsageSource = Api | ClaudeSubscription | ChatgptSubscription

  datatype DelegatedRun = DelegatedRun(tokens: Tokens, source: UsageSource, durationMs: nat, session: Option<string>)

  datatype Trigger = Scheduled | CatchUp | Manual | Signal

  datatype Origin =
    | UserOrigin
    | RoutineOrigin(name: string, trigger: Trigger, deliveryId: Option<string>)
    | FactoryRunOrigin(runId: Id)

  datatype Outcome = Work | NoWork

  datatype Mode = ReadOnly | Ask | Auto | FullAccess

  datatype Decider = Policy | User

  /** The arguments of a tool call that some reader looks at, None when absent or not a string. */
  datatype Arguments = Arguments(path: Option<string>, command: Option<string>, url: Option<string>, reason: Option<string>)

  datatype Arrival = Arrival(deliveryId: Option<string>, sha256: string, receivedAt: int)

  datatype NoticeKind = FirstFailure | Disabled

  datatype Notice = Notice(kind: NoticeKind, thread: Id, turn: Id)

  datatype Payload =
    | ModePinned(mode: Mode)
    | TurnStarted(model: string, promptVersion: Option<string>, profileVersion: Option<string>, origin: Origin)
    | MessageDelta(text: string)
    | ModelCompleted(tokens: Tokens)
    | ToolCall(callId: string, name: string, arguments: Arguments, write: Option<bool>)
    | ToolGated(callId: string, name: string, allowed: bool, decidedBy: Decider)
    | ToolResult(callId: string, name: string, output: string, error: bool, durationMs: Option<int>)
    | ApprovalRequested(approvalOf: string, name: string)
    | TakeoverRequested(takeoverOf: string)
    | TurnCompleted(tokens: Tokens, outcome: Outcome)
    | TurnFailed(tokens: Tokens, message: string)
    | TurnInterrupted(tokens: Tokens)
    | TurnRated(good: bool)
    | RunDelegated(run: DelegatedRun)
    | RunStopped
    | MemoryRecapped(tokens: Tokens, recapModel: Option<string>)
    | MemoryRecalled(nodes: seq<string>)
    | ProfileCounted(version: string, size: int)
    | RoutineFailureHandled(routine: string, notice: Option<Notice>)
    | RoutineFailuresReset(routine: string)
    | SignalReceived(signal: Origin, delivery: Arrival)
    | NotificationRaised(hasOptions: bool, answersApproval: bool)
    | NotificationAccepted(raised: nat)
    | NotificationRefused(raised: nat)
    | Other

  datatype Event = Event(sequence: nat, thread: Id, turn: Id, time: int, payload: Payload)

  datatype TurnKey = TurnKey(thread: Id, turn: Id)

  function KeyOf(e: Event): TurnKey {
    TurnKey(e.thread, e.turn)
  }

  /** An event that ends its turn. */
  predicate IsClosing(p: Payload) {
    p.TurnCompleted? || p.TurnFailed? || p.TurnInterrupted?
  }

  // ---------------------------------------------------------------- filters

  /** The items that satisfy `keep`, in order. Every bounded read of the log is one of these. */
  function Filter<T>(items: seq<T>, keep: T -> bool): (kept: seq<T>)
    ensures |kept| <= |items|
  {
    if items == [] then []
    else
      var rest := Filter(items[..|items| - 1], keep);
      if keep(items[|items| - 1]) then rest + [items[|items| - 1]] else rest
  }

  lemma FilterSnoc<T>(items: seq<T>, item: T, keep: T -> bool)
    ensures Filter(items + [item], keep) == Filter(items, keep) + (if keep(item) then [item] else [])
  {
    assert (items + [item])[..|items|] == items;
  }

  lemma {:induction false} FilterConcat<T>(a: seq<T>, b: seq<T>, keep: T -> bool)
    ensures Filter(a + b, keep) == Filter(a, keep) + Filter(b, keep)
  {
    if b == [] {
      assert a + b == a;
    } else {
      var n := |b| - 1;
      assert a + b == (a + b[..n]) + [b[n]];
      FilterSnoc(a + b[..n], b[n], keep);
      FilterConcat(a, b[..n], keep);
    }
  }

  /** Everything kept satisfies the test and comes from the items. */
  lemma {:induction false} FilterMembers<T>(items: seq<T>, keep: T -> bool)
    ensures forall x :: x in Filter(items, keep) <==> x in items && keep(x)
  {
    if items != [] {
      var n := |items| - 1;
      assert items == items[..n] + [items[n]];
      FilterMembers(items[..n], keep);
    }
  }

  lemma {:induction false} FilterAll<T>(items: seq<T>, keep: T -> bool)
    requires forall x :: x in items ==> keep(x)
    ensures Filter(items, keep) == items
  {
    if items != [] {
      var n := |items| - 1;
      assert items == items[..n] + [items[n]];
      FilterAll(items[..n], keep);
    }
  }

  lemma {:induction false} FilterNone<T>(items: seq<T>, keep: T -> bool)
    requires forall x :: x in items ==> !keep(x)
    ensures Filter(items, keep) == []
  {
    if items != [] {
      var n := |items| - 1;
      assert items == items[..n] + [items[n]];
      FilterNone(items[..n], keep);
    }
  }

  /** Two filters that agree on the items keep the same ones. */
  lemma {:induction false} FilterAgree<T>(items: seq<T>, keep: T -> bool, keep': T -> bool)
    requires forall x :: x in items ==> keep(x) == keep'(x)
    ensures Filter(items, keep) == Filter(items, keep')
  {
    if items != [] {
      var n := |items| - 1;
      assert items == items[..n] + [items[n]];
      FilterAgree(items[..n], keep, keep');
    }
  }

  /** Filtering twice keeps what passes both tests. */
  lemma {:induction false} FilterTwice<T>(items: seq<T>, first: T -> bool, second: T -> bool, both: T -> bool)
    requires forall x :: x in items ==> (both(x) <==> first(x) && second(x))
    ensures Filter(Filter(items, first), second) == Filter(items, both)
  {
    if items != [] {
      var n := |items| - 1;
      assert items == items[..n] + [items[n]];
      FilterTwice(items[..n], first, second, both);
      if first(items[n]) {
        FilterSnoc(Filter(items[..n], first), items[n], second);
      }
    }
  }

  // ---------------------------------------------------------------- the reads of the log

  function Reads(types: Payload -> bool, since: Option<int>, until: Option<int>): Event -> bool {
    (e: Event) => types(e.payload) && (since.None? || e.time >= since.value) && (until.None? || e.time < until.value)
  }

  /** The events of some types, stored from one moment and before another. */
  function EventsOf(log: seq<Event>, types: Payload -> bool, since: Option<int>, until: Option<int>): seq<Event> {
    Filter(log, Reads(types, since, until))
  }

  function InTurn(turn: Id): Event -> bool {
    (e: Event) => e.turn == turn
  }

  function TurnEvents(log: seq<Event>, turn: Id): seq<Event> {
    Filter(log, InTurn(turn))
  }

  function InThread(thread: Id): Event -> bool {
    (e: Event) => e.thread == thread
  }

  function ThreadEvents(log: seq<Event>, thread: Id): seq<Event> {
    Filter(log, InThread(thread))
  }

  /** A turn id belongs to one thread. */
  ghost predicate OneThreadEach(log: seq<Event>) {
    forall i, j :: 0 <= i < |log| && 0 <= j < |log| && log[i].turn == log[j].turn ==> log[i].thread == log[j].thread
  }

  // ---------------------------------------------------------------- times

  /** Append order never goes back in time. */
  ghost predicate Monotone(log: seq<Event>) {
    forall i, j :: 0 <= i < j < |log| ==> log[i].time <= log[j].time
  }

  /** The length of a day, times being counted in microseconds. */
  const DAY := 86400000000

  function DayOf(time: int): int {
    time / DAY
  }

  function Before(since: int): Event -> bool {
    (e: Event) => e.time < since
  }

  function From(since: int): Event -> bool {
    (e: Event) => e.time >= since
  }

  /** A log in time order is what came before a moment, then what came from it on. */
  lemma {:induction false} SplitAt(log: seq<Event>, since: int)
    requires Monotone(log)
    ensures log == Filter(log, Before(since)) + Filter(log, From(since))
  {
    if log != [] {
      var n := |log| - 1;
      assert log == log[..n] + [log[n]];
      SplitAt(log[..n], since);
      if log[n].time < since {
        FilterMembers(log[..n], From(since));
        FilterNone(log[..n], From(since));
      }
    }
  }
}
