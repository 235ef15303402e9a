/** One metrics record for every closed turn of a log: the fold, and the single pass that computes it. */
module Metrics {
  import opened Events
  import opened Pricing
  import opened Memory

  datatype ReportedRun = ReportedRun(time: int, run: DelegatedRun)

  datatype MemoryCalls = MemoryCalls(search: nat, open: nat, remember: nat, forget: nat)

  datatype Denies = Denies(policy: nat, user: nat)

  datatype ToolTime = ToolTime(readMs: int, writeMs: int)

  datatype Navigation = Navigation(
    readCalls: nat, readsBeforeFirstWrite: nat, writeCalls: nat, durationMs: int,
    distinctPaths: nat, repeatOpens: int, tokensBeforeFirstWrite: int)

  /** What an open turn has gathered so far. */
  datatype Turn = Turn(
    startedAt: int,
    model: string,
    promptVersion: Option<string>,
    profileVersion: Option<string>,
    origin: Origin,
    toolCalls: multiset<string>,
    toolWrites: map<string, Option<bool>>,
    denies: Denies,
    toolTime: ToolTime,
    memoryCalls: MemoryCalls,
    approvals: nat,
    returnedMemory: bool,
    modelCalls: seq<ModelCall>,
    modelTokens: Tokens,
    readCalls: nat,
    readsBeforeFirstWrite: nat,
    writes: nat,
    readMs: int,
    openedPaths: multiset<string>,
    readCallIds: set<string>,
    tokensBeforeFirstWrite: int,
    delegated: seq<ReportedRun>,
    recalled: seq<string>)

  datatype ClosingKind = Completed | Failed | Interrupted

  datatype Record = Record(
    key: TurnKey,
    model: Option<string>,
    promptVersion: Option<string>,
    profileVersion: Option<string>,
    origin: Option<Origin>,
    closing: ClosingKind,
    outcome: Outcome,
    startedAt: Option<int>,
    closedAt: int,
    tokens: Tokens,
    recapInput: int,
    recapOutput: int,
    cost: Option<real>,
    toolCalls: multiset<string>,
    memoryCalls: MemoryCalls,
    memoryConsulted: bool,
    approvals: nat,
    denies: Denies,
    toolTime: ToolTime,
    memoryTokens: real,
    memoryCarried: real,
    memoryCarriedCost: Option<real>,
    memoryMeasured: bool,
    rating: Option<bool>,
    navigation: Navigation,
    delegated: seq<ReportedRun>,
    recalled: seq<string>)
  {
    function Duration(): Option<int> {
      if startedAt.None? then None else Some(closedAt - startedAt.value)
    }
  }

  /** A delegated run no turn reported: a factory step's client run, under its run. */
  datatype StepRun = StepRun(runId: Id, reported: ReportedRun)

  datatype RunRecap = RunRecap(runId: Id, time: int, tokens: Tokens, cost: Option<real>)

  datatype RunRecall = RunRecall(runId: Id, time: int, nodes: seq<string>)

  /** What the pass keeps of the closed turns. A record is known by its place among the records: the
      latest of each turn, with the totals it closed with, and those whose profile is yet to be sized. */
  datatype Book = Book(
    closed: map<TurnKey, nat>,
    totals: map<TurnKey, Tokens>,
    records: seq<Record>,
    unpriced: map<TurnKey, set<string>>,
    mismatches: seq<TurnKey>,
    profiled: seq<(nat, string)>)

  datatype State = State(
    open: map<TurnKey, Turn>,
    book: Book,
    stepRuns: seq<StepRun>,
    runRecaps: seq<RunRecap>,
    runRecalls: seq<RunRecall>,
    stopped: set<Id>,
    sizes: map<string, int>)

  const EMPTY := State(map[], Book(map[], map[], [], map[], [], []), [], [], [], {}, map[])

  datatype MetricsResult = MetricsResult(
    records: seq<Record>,
    unpriced: map<TurnKey, set<string>>,
    mismatches: seq<TurnKey>,
    stepRuns: seq<StepRun>,
    runRecaps: seq<RunRecap>,
    runRecalls: seq<RunRecall>)

  // ---------------------------------------------------------------- an open turn

  function Started(e: Event): Turn
    requires e.payload.TurnStarted?
  {
    var p := e.payload;
    Turn(e.time, p.model, p.promptVersion, p.profileVersion, p.origin, multiset{}, map[], Denies(0, 0), ToolTime(0, 0),
         MemoryCalls(0, 0, 0, 0), 0, false, [], NO_TOKENS, 0, 0, 0, 0, multiset{}, {}, 0, [], [])
  }

  function CountMemoryCall(c: MemoryCalls, name: string): MemoryCalls {
    if name == "memory_search" then c.(search := c.search + 1)
    else if name == "memory_open" then c.(open := c.open + 1)
    else if name == "remember" then c.(remember := c.remember + 1)
    else if name == "forget" then c.(forget := c.forget + 1)
    else c
  }

  predicate NavigationExcluded(name: string) {
    IsMemoryTool(name) || name == "skill"
  }

  /** A read call outside memory and skills, which counts as navigation, or a write that ends it. */
  function WithNavigation(t: Turn, p: Payload): Turn
    requires p.ToolCall?
  {
    if NavigationExcluded(p.name) then t
    else if p.write == Some(false) then
      t.(readCalls := t.readCalls + 1,
         readCallIds := t.readCallIds + {p.callId},
         openedPaths := if p.arguments.path.Some? then t.openedPaths + multiset{p.arguments.path.value} else t.openedPaths,
         readsBeforeFirstWrite := t.readsBeforeFirstWrite + (if t.writes == 0 then 1 else 0))
    else if p.write == Some(true) then t.(writes := t.writes + 1)
    else t
  }

  function WithResult(calls: seq<ModelCall>, r: Result): seq<ModelCall> {
    if calls == [] then []
    else
      var n := |calls| - 1;
      calls[n := calls[n].(results := calls[n].results + [r])]
  }

  function WithToolTime(time: ToolTime, write: Option<bool>, ms: Option<int>): ToolTime {
    if ms.None? || write.None? then time
    else if write.value then time.(writeMs := time.writeMs + ms.value)
    else time.(readMs := time.readMs + ms.value)
  }

  /** The nodes, after the ones already listed, each once. */
  function WithNodes(recalled: seq<string>, nodes: seq<string>): seq<string> {
    if nodes == [] then recalled
    else
      var before := WithNodes(recalled, nodes[..|nodes| - 1]);
      var node := nodes[|nodes| - 1];
      if node in before then before else before + [node]
  }

  /** What an event of an open turn adds to it. */
  function Gather(t: Turn, e: Event): Turn {
    match e.payload
    case ModelCompleted(tokens) =>
      t.(modelCalls := t.modelCalls + [ModelCall(tokens.input, tokens.output, [])],
         modelTokens := AddTokens(t.modelTokens, tokens),
         tokensBeforeFirstWrite := t.tokensBeforeFirstWrite + (if t.writes == 0 then tokens.input + tokens.output else 0))
    case ToolCall(callId, name, _, write) =>
      WithNavigation(t.(toolCalls := t.toolCalls + multiset{name},
                        toolWrites := t.toolWrites[callId := write],
                        memoryCalls := CountMemoryCall(t.memoryCalls, name)), e.payload)
    case ToolGated(_, _, allowed, decider) =>
      if allowed then t
      else if decider == Policy then t.(denies := t.denies.(policy := t.denies.policy + 1))
      else t.(denies := t.denies.(user := t.denies.user + 1))
    case ToolResult(callId, name, output, _, ms) =>
      t.(returnedMemory := t.returnedMemory || IsMemoryTool(name),
         modelCalls := WithResult(t.modelCalls, Result(name, output)),
         toolTime := WithToolTime(t.toolTime, if callId in t.toolWrites then t.toolWrites[callId] else None, ms),
         readMs := t.readMs + (if callId in t.readCallIds && ms.Some? then ms.value else 0))
    case MemoryRecalled(nodes) => t.(recalled := WithNodes(t.recalled, nodes))
    case ApprovalRequested(_, _) => t.(approvals := t.approvals + 1)
    case RunDelegated(run) => t.(delegated := t.delegated + [ReportedRun(e.time, run)])
    case _ => t
  }

  /** The events that only an open turn gathers, and nothing else folds. */
  predicate IsGathered(p: Payload) {
    p.ModelCompleted? || p.ToolCall? || p.ToolGated? || p.ToolResult? || p.ApprovalRequested?
  }

  // ---------------------------------------------------------------- a closing

  function KindOf(p: Payload): ClosingKind
    requires IsClosing(p)
  {
    if p.TurnCompleted? then Completed else if p.TurnFailed? then Failed else Interrupted
  }

  function OutcomeOf(p: Payload): Outcome {
    if p.TurnCompleted? then p.outcome else Work
  }

  function NavigationOf(t: Turn): Navigation {
    var distinct := |set path | path in t.openedPaths|;
    Navigation(t.readCalls, t.readsBeforeFirstWrite, t.writes, t.readMs, distinct, |t.openedPaths| - distinct,
               t.tokensBeforeFirstWrite)
  }

  function CostAtClose(p: Payload, price: Option<ModelPrice>): Option<real>
    requires IsClosing(p)
  {
    if OutcomeOf(p) == NoWork then Some(0.0)
    else if price.None? then None
    else Some(TokenCost(p.tokens, price.value))
  }

  /** The record of a turn that closed, of which only the closing may be known. */
  function Closed(e: Event, turn: Option<Turn>, prices: Prices): (r: Record)
    requires IsClosing(e.payload)
    ensures r.key == KeyOf(e) && r.closedAt == e.time
  {
    var p := e.payload;
    match turn
    case None =>
      Record(KeyOf(e), None, None, None, None, KindOf(p), OutcomeOf(p), None, e.time, p.tokens, 0, 0,
             CostAtClose(p, None), multiset{}, MemoryCalls(0, 0, 0, 0), false, 0, Denies(0, 0), ToolTime(0, 0),
             0.0, 0.0, None, false, None, Navigation(0, 0, 0, 0, 0, 0, 0), [], [])
    case Some(t) =>
      var price := PriceOf(prices, Some(t.model));
      var memory := UseOf(t.modelCalls, t.returnedMemory, price);
      Record(KeyOf(e), Some(t.model), t.promptVersion, t.profileVersion, Some(t.origin), KindOf(p), OutcomeOf(p),
             Some(t.startedAt), e.time, p.tokens, 0, 0, CostAtClose(p, price), t.toolCalls, t.memoryCalls,
             t.memoryCalls.search > 0 || t.memoryCalls.open > 0, t.approvals, t.denies, t.toolTime,
             memory.tokens, memory.carried, memory.carriedCost, memory.measured, None, NavigationOf(t), t.delegated, t.recalled)
  }

  /** A closing whose totals differ from what its turn's model calls reported. */
  predicate Mismatched(p: Payload, turn: Option<Turn>)
    requires IsClosing(p)
  {
    turn.Some? && turn.value.modelCalls != [] && OutcomeOf(p) != NoWork && turn.value.modelTokens != p.tokens
  }

  function AddUnpriced(unpriced: map<TurnKey, set<string>>, key: TurnKey, model: string): map<TurnKey, set<string>> {
    unpriced[key := (if key in unpriced then unpriced[key] else {}) + {model}]
  }

  function OpenTurn(open: map<TurnKey, Turn>, key: TurnKey): Option<Turn> {
    if key in open then Some(open[key]) else None
  }

  /** Enter a closing in the book, with what its open turn gathered. */
  function BookClosing(b: Book, e: Event, turn: Option<Turn>, prices: Prices): Book
    requires IsClosing(e.payload)
  {
    var key, place := KeyOf(e), |b.records|;
    Book(b.closed[key := place],
         b.totals[key := e.payload.tokens],
         b.records + [Closed(e, turn, prices)],
         if turn.Some? && PriceOf(prices, Some(turn.value.model)).None? && OutcomeOf(e.payload) != NoWork
         then AddUnpriced(b.unpriced, key, turn.value.model) else b.unpriced,
         if Mismatched(e.payload, turn) then b.mismatches + [key] else b.mismatches,
         if turn.Some? && turn.value.modelCalls != [] && turn.value.profileVersion.Some?
         then b.profiled + [(place, turn.value.profileVersion.value)] else b.profiled)
  }

  // ---------------------------------------------------------------- after a closing

  /** A recap's cost at its model: nothing when it spent no tokens, None when unpriced. */
  function RecapCost(tokens: Tokens, model: Option<string>, prices: Prices): Option<real> {
    var price := PriceOf(prices, model);
    if price.Some? then Some(TokenCost(tokens, price.value))
    else if tokens.input + tokens.output == 0 && tokens.cacheRead == 0 && tokens.cacheCreation == 0 then Some(0.0)
    else None
  }

  /** The record with the recap's tokens in the place of the recap before it. */
  function Recapped(r: Record, main: Tokens, recap: Tokens, recapModel: Option<string>, prices: Prices): Record {
    var mainPrice := PriceOf(prices, r.model);
    var recapCost := RecapCost(recap, recapModel, prices);
    r.(tokens := Tokens(r.tokens.input + recap.input - r.recapInput,
                        r.tokens.output + recap.output - r.recapOutput,
                        main.cacheRead + recap.cacheRead,
                        main.cacheCreation + recap.cacheCreation),
       recapInput := recap.input,
       recapOutput := recap.output,
       cost := if mainPrice.Some? && recapCost.Some? then Some(TokenCost(main, mainPrice.value) + recapCost.value) else None)
  }

  predicate IsBooked(b: Book, key: TurnKey) {
    key in b.closed && b.closed[key] < |b.records| && key in b.totals
  }

  function BookRecap(b: Book, e: Event, prices: Prices): Book
    requires e.payload.MemoryRecapped? && IsBooked(b, KeyOf(e))
  {
    var key, p := KeyOf(e), e.payload;
    var place := b.closed[key];
    if b.records[place].outcome == NoWork then b
    else
      b.(records := b.records[place := Recapped(b.records[place], b.totals[key], p.tokens, p.recapModel, prices)],
         unpriced := if RecapCost(p.tokens, p.recapModel, prices).None? && p.recapModel.Some?
                     then AddUnpriced(b.unpriced, key, p.recapModel.value) else b.unpriced)
  }

  function BookRating(b: Book, e: Event): Book
    requires e.payload.TurnRated? && IsBooked(b, KeyOf(e))
  {
    var place := b.closed[KeyOf(e)];
    b.(records := b.records[place := b.records[place].(rating := Some(e.payload.good))])
  }

  // ---------------------------------------------------------------- the fold

  /** A turn is open from its start to its closing, and gathers its own events. */
  function OpenStep(open: map<TurnKey, Turn>, e: Event): map<TurnKey, Turn> {
    var key, p := KeyOf(e), e.payload;
    if p.TurnStarted? then open[key := Started(e)]
    else if IsClosing(p) then open - {key}
    else if key in open && (IsGathered(p) || p.MemoryRecalled? || p.RunDelegated?) then open[key := Gather(open[key], e)]
    else open
  }

  function BookStep(b: Book, e: Event, turn: Option<Turn>, prices: Prices): Book {
    if IsClosing(e.payload) then BookClosing(b, e, turn, prices)
    else if e.payload.MemoryRecapped? && IsBooked(b, KeyOf(e)) then BookRecap(b, e, prices)
    else if e.payload.TurnRated? && IsBooked(b, KeyOf(e)) then BookRating(b, e)
    else b
  }

  /** A delegated run reported outside any open turn is a step's. */
  function StepRunsStep(runs: seq<StepRun>, e: Event, isOpen: bool): seq<StepRun> {
    if e.payload.RunDelegated? && !isOpen then runs + [StepRun(e.thread, ReportedRun(e.time, e.payload.run))] else runs
  }

  function RecallsStep(recalls: seq<RunRecall>, e: Event, isOpen: bool): seq<RunRecall> {
    if e.payload.MemoryRecalled? && !isOpen then recalls + [RunRecall(e.thread, e.time, e.payload.nodes)] else recalls
  }

  /** The recap of a stopped run, which no closed turn takes. */
  function RecapsStep(recaps: seq<RunRecap>, e: Event, isBooked: bool, stopped: set<Id>, prices: Prices): seq<RunRecap> {
    if e.payload.MemoryRecapped? && !isBooked && e.thread in stopped
    then recaps + [RunRecap(e.thread, e.time, e.payload.tokens, RecapCost(e.payload.tokens, e.payload.recapModel, prices))]
    else recaps
  }

  /** What one event does to each variable of the pass. */
  function Step(s: State, e: Event, prices: Prices): State {
    var key := KeyOf(e);
    State(OpenStep(s.open, e),
          BookStep(s.book, e, OpenTurn(s.open, key), prices),
          StepRunsStep(s.stepRuns, e, key in s.open),
          RecapsStep(s.runRecaps, e, IsBooked(s.book, key), s.stopped, prices),
          RecallsStep(s.runRecalls, e, key in s.open),
          if e.payload.RunStopped? then s.stopped + {e.thread} else s.stopped,
          if e.payload.ProfileCounted? then s.sizes[e.payload.version := e.payload.size] else s.sizes)
  }

  function Fold(events: seq<Event>, prices: Prices): State {
    if events == [] then EMPTY
    else Step(Fold(events[..|events| - 1], prices), events[|events| - 1], prices)
  }

  /** Each closed turn's place is that of a record of its own. */
  ghost predicate ClosedPlaced(closed: map<TurnKey, nat>, records: seq<Record>) {
    forall k :: k in closed ==> closed[k] < |records| && records[closed[k]].key == k
  }

  /** The places to size are places of records, each once. */
  ghost predicate ProfilesPlaced(profiled: seq<(nat, string)>, places: nat) {
    && (forall i :: 0 <= i < |profiled| ==> profiled[i].0 < places)
    && (forall i, j :: 0 <= i < j < |profiled| ==> profiled[i].0 < profiled[j].0)
  }

  ghost predicate Placed(b: Book) {
    b.closed.Keys == b.totals.Keys && ClosedPlaced(b.closed, b.records) && ProfilesPlaced(b.profiled, |b.records|)
  }

  lemma ClosingPlacesRecord(b: Book, e: Event, turn: Option<Turn>, prices: Prices)
    requires ClosedPlaced(b.closed, b.records) && IsClosing(e.payload)
    ensures var after := BookClosing(b, e, turn, prices); ClosedPlaced(after.closed, after.records)
  {
  }

  lemma ClosingPlacesProfile(b: Book, e: Event, turn: Option<Turn>, prices: Prices)
    requires ProfilesPlaced(b.profiled, |b.records|) && IsClosing(e.payload)
    ensures var after := BookClosing(b, e, turn, prices); ProfilesPlaced(after.profiled, |after.records|)
  {
  }

  lemma ClosingPlaced(b: Book, e: Event, turn: Option<Turn>, prices: Prices)
    requires Placed(b) && IsClosing(e.payload)
    ensures Placed(BookClosing(b, e, turn, prices))
  {
    ClosingPlacesRecord(b, e, turn, prices);
    ClosingPlacesProfile(b, e, turn, prices);
  }

  lemma StepPlaced(b: Book, e: Event, turn: Option<Turn>, prices: Prices)
    requires Placed(b)
    ensures Placed(BookStep(b, e, turn, prices))
  {
    if IsClosing(e.payload) {
      ClosingPlaced(b, e, turn, prices);
    }
  }

  lemma {:induction false} FoldPlaced(events: seq<Event>, prices: Prices)
    ensures Placed(Fold(events, prices).book)
  {
    if events != [] {
      var n := |events| - 1;
      var s, e := Fold(events[..n], prices), events[n];
      FoldPlaced(events[..n], prices);
      StepPlaced(s.book, e, OpenTurn(s.open, KeyOf(e)), prices);
    }
  }

  // ---------------------------------------------------------------- profile sizes

  /** The record with its profile's size, or an estimate when the profile was never counted. */
  function Sized(r: Record, version: string, sizes: map<string, int>): Record {
    if version in sizes then r.(memoryTokens := r.memoryTokens + sizes[version] as real)
    else r.(memoryMeasured := false)
  }

  function SizeAll(records: seq<Record>, profiled: seq<(nat, string)>, sizes: map<string, int>): (sized: seq<Record>)
    ensures |sized| == |records|
  {
    if profiled == [] then records
    else
      var before := SizeAll(records, profiled[..|profiled| - 1], sizes);
      var (place, version) := profiled[|profiled| - 1];
      if place < |before| then before[place := Sized(before[place], version, sizes)] else before
  }

  function ResultOf(s: State): MetricsResult {
    MetricsResult(SizeAll(s.book.records, s.book.profiled, s.sizes), s.book.unpriced, s.book.mismatches, s.stepRuns, s.runRecaps, s.runRecalls)
  }

  function TurnMetricsOf(events: seq<Event>, prices: Prices): MetricsResult {
    ResultOf(Fold(events, prices))
  }

  // ---------------------------------------------------------------- the pass

  /** Close a turn: what it gathered becomes a record. */
  method Close(b: Book, e: Event, turn: Option<Turn>, prices: Prices) returns (after: Book)
    requires IsClosing(e.payload)
    ensures after == BookClosing(b, e, turn, prices)
  {
    hide Closed, PriceOf, AddUnpriced;
    var key, p := KeyOf(e), e.payload;
    after := b;
    if turn.Some? {
      var t := turn.value;
      if t.modelCalls != [] && OutcomeOf(p) != NoWork && t.modelTokens != p.tokens {
        after := after.(mismatches := after.mismatches + [key]);
      }
      if PriceOf(prices, Some(t.model)).None? && OutcomeOf(p) != NoWork {
        after := after.(unpriced := AddUnpriced(after.unpriced, key, t.model));
      }
      if t.modelCalls != [] && t.profileVersion.Some? {
        after := after.(profiled := after.profiled + [(|after.records|, t.profileVersion.value)]);
      }
    }
    after := after.(closed := after.closed[key := |after.records|], totals := after.totals[key := p.tokens],
                    records := after.records + [Closed(e, turn, prices)]);
  }

  /** Put a closed turn's recap in the place of the one before it. */
  method Recap(b: Book, e: Event, prices: Prices) returns (after: Book)
    requires e.payload.MemoryRecapped? && IsBooked(b, KeyOf(e))
    ensures after == BookRecap(b, e, prices)
  {
    var key, p := KeyOf(e), e.payload;
    var record := b.records[b.closed[key]];
    after := b;
    if record.outcome == NoWork {
      return;
    }
    if RecapCost(p.tokens, p.recapModel, prices).None? && p.recapModel.Some? {
      after := after.(unpriced := AddUnpriced(after.unpriced, key, p.recapModel.value));
    }
    after := after.(records := after.records[b.closed[key] := Recapped(record, b.totals[key], p.tokens, p.recapModel, prices)]);
  }

  /** Add each profiled record's profile size, once every count has been read. */
  method SizeProfiles(records: seq<Record>, profiled: seq<(nat, string)>, sizes: map<string, int>) returns (sized: seq<Record>)
    requires forall i :: 0 <= i < |profiled| ==> profiled[i].0 < |records|
    ensures sized == SizeAll(records, profiled, sizes)
  {
    sized := records;
    var j := 0;
    while j < |profiled|
      invariant 0 <= j <= |profiled|
      invariant sized == SizeAll(records, profiled[..j], sizes)
    {
      var (place, version) := profiled[j];
      assert profiled[..j + 1][..j] == profiled[..j];
      if version in sizes {
        sized := sized[place := sized[place].(memoryTokens := sized[place].memoryTokens + sizes[version] as real)];
      } else {
        sized := sized[place := sized[place].(memoryMeasured := false)];
      }
      j := j + 1;
    }
    assert profiled[..|profiled|] == profiled;
  }

  /** Fold one event into the variables of the pass. */
  method TakeEvent(s: State, e: Event, prices: Prices) returns (after: State)
    requires Placed(s.book)
    ensures after == Step(s, e, prices)
  {
    hide Gather, Started, RecapCost, BookClosing, BookRecap, BookRating;
    var key, p := KeyOf(e), e.payload;
    after := s;
    if p.TurnStarted? {
      after := s.(open := s.open[key := Started(e)]);
    } else if p.ProfileCounted? {
      after := s.(sizes := s.sizes[p.version := p.size]);
    } else if p.RunStopped? {
      after := s.(stopped := s.stopped + {e.thread});
    } else if IsGathered(p) {
      if key in s.open {
        after := s.(open := s.open[key := Gather(s.open[key], e)]);
      }
    } else if p.MemoryRecalled? {
      if key in s.open {
        after := s.(open := s.open[key := Gather(s.open[key], e)]);
      } else {
        after := s.(runRecalls := s.runRecalls + [RunRecall(e.thread, e.time, p.nodes)]);
      }
    } else if p.RunDelegated? {
      var reported := ReportedRun(e.time, p.run);
      if key in s.open {
        after := s.(open := s.open[key := Gather(s.open[key], e)]);
      } else {
        after := s.(stepRuns := s.stepRuns + [StepRun(e.thread, reported)]);
      }
    } else if IsClosing(p) {
      var book := Close(s.book, e, OpenTurn(s.open, key), prices);
      after := s.(open := s.open - {key}, book := book);
    } else if p.MemoryRecapped? {
      if key in s.book.closed {
        var book := Recap(s.book, e, prices);
        after := s.(book := book);
      } else if e.thread in s.stopped {
        var cost := RecapCost(p.tokens, p.recapModel, prices);
        after := s.(runRecaps := s.runRecaps + [RunRecap(e.thread, e.time, p.tokens, cost)]);
      }
    } else if p.TurnRated? && key in s.book.closed {
      after := s.(book := BookRating(s.book, e));
    }
  }

  /** Read the events once, keeping the turns that are open and updating the records in place. */
  method TurnMetrics(events: seq<Event>, prices: Prices) returns (result: MetricsResult)
    ensures result == TurnMetricsOf(events, prices)
  {
    hide Step, SizeAll;
    var s := EMPTY;
    var i := 0;
    while i < |events|
      invariant 0 <= i <= |events|
      invariant s == Fold(events[..i], prices)
    {
      FoldPlaced(events[..i], prices);
      assert events[..i + 1][..i] == events[..i];
      s := TakeEvent(s, events[i], prices);
      i := i + 1;
    }
    assert events[..|events|] == events;
    FoldPlaced(events, prices);
    var sized := SizeProfiles(s.book.records, s.book.profiled, s.sizes);
    result := MetricsResult(sized, s.book.unpriced, s.book.mismatches, s.stepRuns, s.runRecaps, s.runRecalls);
  }
}
