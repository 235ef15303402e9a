/** What a closed turn's record says of its tools' times, the paths it opened, the nodes it recalled and the
    memory its model calls read, told from the turn's own events since it started. */
module GatheredResults {
  import opened Events
  import opened Pricing
  import opened Memory
  import opened Metrics
  import opened Gathered

  // ---------------------------------------------------------------- what the events say

  /** Whether the latest call under an id was declared a write. */
  function DeclaredWrite(own: seq<Event>, callId: string): Option<bool> {
    if own == [] then None
    else
      var p := own[|own| - 1].payload;
      if p.ToolCall? && p.callId == callId then p.write else DeclaredWrite(own[..|own| - 1], callId)
  }

  /** The time of the results whose call was declared a write, or declared none, before them. */
  function TimeOf(own: seq<Event>, write: bool): int {
    if own == [] then 0
    else
      var n := |own| - 1;
      var p := own[n].payload;
      TimeOf(own[..n], write)
      + (if p.ToolResult? && p.durationMs.Some? && DeclaredWrite(own[..n], p.callId) == Some(write) then p.durationMs.value else 0)
  }

  /** The calls that read, outside memory and skills. */
  function ReadIds(own: seq<Event>): set<string> {
    set e | e in own && Navigates(e.payload, false) :: e.payload.callId
  }

  function ReadTime(own: seq<Event>): int {
    if own == [] then 0
    else
      var n := |own| - 1;
      var p := own[n].payload;
      ReadTime(own[..n])
      + (if p.ToolResult? && p.durationMs.Some? && p.callId in ReadIds(own[..n]) then p.durationMs.value else 0)
  }

  /** The paths those calls opened, in order. */
  function PathsOpened(own: seq<Event>): seq<string> {
    if own == [] then []
    else
      var before, p := PathsOpened(own[..|own| - 1]), own[|own| - 1].payload;
      if Navigates(p, false) && p.arguments.path.Some? then before + [p.arguments.path.value] else before
  }

  /** The nodes memory recalled, in order, as often as it did. */
  function NodesRead(own: seq<Event>): seq<string> {
    if own == [] then []
    else
      var before, p := NodesRead(own[..|own| - 1]), own[|own| - 1].payload;
      if p.MemoryRecalled? then before + p.nodes else before
  }

  /** Each item once, where it first comes. */
  function Firsts(items: seq<string>): (firsts: seq<string>)
    ensures forall x :: x in firsts <==> x in items
    ensures forall i, j :: 0 <= i < j < |firsts| ==> firsts[i] != firsts[j]
  {
    if items == [] then []
    else
      var before, last := Firsts(items[..|items| - 1]), items[|items| - 1];
      assert items == items[..|items| - 1] + [last];
      if last in before then before else before + [last]
  }

  function ResultsIn(events: seq<Event>): seq<Result> {
    if events == [] then []
    else
      var before, p := ResultsIn(events[..|events| - 1]), events[|events| - 1].payload;
      if p.ToolResult? then before + [Result(p.name, p.output)] else before
  }

  /** The place of the last call of the model. */
  function LastModelCall(own: seq<Event>): (i: Option<nat>)
    ensures i.Some? ==> i.value < |own| && own[i.value].payload.ModelCompleted?
    ensures i.Some? ==> forall j :: i.value < j < |own| ==> !own[j].payload.ModelCompleted?
    ensures i.None? ==> forall j :: 0 <= j < |own| ==> !own[j].payload.ModelCompleted?
  {
    if own == [] then None
    else if own[|own| - 1].payload.ModelCompleted? then Some(|own| - 1)
    else LastModelCall(own[..|own| - 1])
  }

  /** The calls of the model, each with the results that came back before the next. */
  function CallsMade(own: seq<Event>): seq<ModelCall> {
    var i := LastModelCall(own);
    if i.None? then []
    else
      var tokens := own[i.value].payload.tokens;
      CallsMade(own[..i.value]) + [ModelCall(tokens.input, tokens.output, ResultsIn(own[i.value + 1..]))]
  }

  predicate ReturnedMemory(own: seq<Event>) {
    exists e :: e in own && e.payload.ToolResult? && e.payload.name in MEMORY_TOOLS
  }

  // ---------------------------------------------------------------- what an open turn has gathered

  function WriteOf(writes: map<string, Option<bool>>, callId: string): Option<bool> {
    if callId in writes then writes[callId] else None
  }

  ghost predicate TimesGathered(t: Turn, own: seq<Event>) {
    && t.toolTime == ToolTime(TimeOf(own, false), TimeOf(own, true))
    && (forall callId :: WriteOf(t.toolWrites, callId) == DeclaredWrite(own, callId))
  }

  ghost predicate ReadsGathered(t: Turn, own: seq<Event>) {
    t.readMs == ReadTime(own) && t.readCallIds == ReadIds(own) && t.openedPaths == multiset(PathsOpened(own))
  }

  ghost predicate ModelsGathered(t: Turn, own: seq<Event>) {
    t.modelCalls == CallsMade(own) && t.returnedMemory == ReturnedMemory(own)
  }

  ghost predicate NodesGathered(t: Turn, own: seq<Event>) {
    t.recalled == Firsts(NodesRead(own))
  }

  ghost predicate ResultsGathered(t: Turn, own: seq<Event>) {
    TimesGathered(t, own) && ReadsGathered(t, own) && ModelsGathered(t, own) && NodesGathered(t, own)
  }

  // ---------------------------------------------------------------- one event

  lemma GatherTimes(t: Turn, e: Event)
    ensures var after, p := Gather(t, e), e.payload;
            && after.toolTime == (if p.ToolResult? then WithToolTime(t.toolTime, WriteOf(t.toolWrites, p.callId), p.durationMs) else t.toolTime)
            && after.toolWrites == (if p.ToolCall? then t.toolWrites[p.callId := p.write] else t.toolWrites)
  {
    hide WithNavigation, WithResult, WithToolTime, CountMemoryCall, WithNodes, IsMemoryTool;
    if e.payload.ToolCall? {
      var p := e.payload;
      NavigationKeepsTheRest(t.(toolCalls := t.toolCalls + multiset{p.name}, toolWrites := t.toolWrites[p.callId := p.write],
                                memoryCalls := CountMemoryCall(t.memoryCalls, p.name)), p);
    }
  }

  lemma GatherReads(t: Turn, e: Event)
    ensures var after, p := Gather(t, e), e.payload;
            && after.readMs == t.readMs
                 + (if p.ToolResult? && p.durationMs.Some? && p.callId in t.readCallIds then p.durationMs.value else 0)
            && after.readCallIds == (if Navigates(p, false) then t.readCallIds + {p.callId} else t.readCallIds)
            && after.openedPaths == (if Navigates(p, false) && p.arguments.path.Some? then t.openedPaths + multiset{p.arguments.path.value}
                                     else t.openedPaths)
  {
    NavigatesIs(e.payload, false);
    hide Navigates, WithResult, WithToolTime, CountMemoryCall, WithNodes, IsMemoryTool, NavigationExcluded;
  }

  lemma NavigationKeeps(t: Turn, p: Payload)
    requires p.ToolCall?
    ensures var after := WithNavigation(t, p);
            after.modelCalls == t.modelCalls && after.returnedMemory == t.returnedMemory && after.recalled == t.recalled
  {
    hide NavigationExcluded;
  }

  lemma GatherModels(t: Turn, e: Event)
    ensures var after, p := Gather(t, e), e.payload;
            && after.modelCalls == (if p.ModelCompleted? then t.modelCalls + [ModelCall(p.tokens.input, p.tokens.output, [])]
                                    else if p.ToolResult? then WithResult(t.modelCalls, Result(p.name, p.output)) else t.modelCalls)
            && after.returnedMemory == (t.returnedMemory || (p.ToolResult? && IsMemoryTool(p.name)))
            && after.recalled == (if p.MemoryRecalled? then WithNodes(t.recalled, p.nodes) else t.recalled)
  {
    hide WithResult, WithToolTime, CountMemoryCall, WithNodes, IsMemoryTool, WithNavigation;
    var p := e.payload;
    if p.ToolCall? {
      NavigationKeeps(t.(toolCalls := t.toolCalls + multiset{p.name}, toolWrites := t.toolWrites[p.callId := p.write],
                         memoryCalls := CountMemoryCall(t.memoryCalls, p.name)), p);
    }
  }

  lemma TimesNext(t: Turn, own: seq<Event>, e: Event)
    requires TimesGathered(t, own)
    ensures TimesGathered(Gather(t, e), own + [e])
  {
    hide Gather;
    GatherTimes(t, e);
    assert (own + [e])[..|own|] == own;
    var after := Gather(t, e);
    forall callId ensures WriteOf(after.toolWrites, callId) == DeclaredWrite(own + [e], callId) {
      assert WriteOf(t.toolWrites, callId) == DeclaredWrite(own, callId);
    }
    if e.payload.ToolResult? {
      assert WriteOf(t.toolWrites, e.payload.callId) == DeclaredWrite(own, e.payload.callId);
    }
  }

  lemma ReadIdsNext(own: seq<Event>, e: Event)
    ensures ReadIds(own + [e]) == if Navigates(e.payload, false) then ReadIds(own) + {e.payload.callId} else ReadIds(own)
  {
    hide Navigates;
    forall x ensures x in own + [e] <==> x in own || x == e {
    }
  }

  lemma PathsNext(own: seq<Event>, e: Event)
    ensures PathsOpened(own + [e])
         == if Navigates(e.payload, false) && e.payload.arguments.path.Some? then PathsOpened(own) + [e.payload.arguments.path.value]
            else PathsOpened(own)
  {
    assert (own + [e])[..|own|] == own;
  }

  lemma ReadsNext(t: Turn, own: seq<Event>, e: Event)
    requires ReadsGathered(t, own)
    ensures ReadsGathered(Gather(t, e), own + [e])
  {
    hide Gather, ReadIds, PathsOpened, Navigates;
    GatherReads(t, e);
    ReadIdsNext(own, e);
    PathsNext(own, e);
    assert (own + [e])[..|own|] == own;
  }

  lemma ResultsNext(events: seq<Event>, e: Event)
    ensures ResultsIn(events + [e])
         == if e.payload.ToolResult? then ResultsIn(events) + [Result(e.payload.name, e.payload.output)] else ResultsIn(events)
  {
    assert (events + [e])[..|events|] == events;
  }

  /** A call of the model follows the others with no result yet, and a result goes to the last call. */
  lemma CallsNext(own: seq<Event>, e: Event)
    ensures var p := e.payload;
            CallsMade(own + [e]) == if p.ModelCompleted? then CallsMade(own) + [ModelCall(p.tokens.input, p.tokens.output, [])]
                                    else if p.ToolResult? then WithResult(CallsMade(own), Result(p.name, p.output)) else CallsMade(own)
  {
    var longer := own + [e];
    assert longer[..|own|] == own;
    if e.payload.ModelCompleted? {
      assert LastModelCall(longer) == Some(|own|);
      assert longer[|own| + 1..] == [];
    } else {
      var i := LastModelCall(own);
      assert LastModelCall(longer) == i;
      if i.Some? {
        assert longer[..i.value] == own[..i.value] && longer[i.value + 1..] == own[i.value + 1..] + [e];
        ResultsNext(own[i.value + 1..], e);
      }
    }
  }

  lemma ModelsNext(t: Turn, own: seq<Event>, e: Event)
    requires ModelsGathered(t, own)
    ensures ModelsGathered(Gather(t, e), own + [e])
  {
    hide Gather, CallsMade, WithResult, IsMemoryTool;
    GatherModels(t, e);
    CallsNext(own, e);
    if e.payload.ToolResult? {
      MemoryToolsAre(e.payload.name);
    }
    forall x ensures x in own + [e] <==> x in own || x == e {
    }
    assert e in own + [e];
  }

  lemma {:induction false} NodesJoin(items: seq<string>, nodes: seq<string>)
    ensures WithNodes(Firsts(items), nodes) == Firsts(items + nodes)
  {
    if nodes == [] {
      assert items + nodes == items;
    } else {
      var n := |nodes| - 1;
      NodesJoin(items, nodes[..n]);
      assert (items + nodes)[..|items + nodes| - 1] == items + nodes[..n];
    }
  }

  lemma NodesNext(t: Turn, own: seq<Event>, e: Event)
    requires NodesGathered(t, own)
    ensures NodesGathered(Gather(t, e), own + [e])
  {
    hide Gather, Firsts, WithNodes;
    GatherModels(t, e);
    assert (own + [e])[..|own|] == own;
    if e.payload.MemoryRecalled? {
      NodesJoin(NodesRead(own), e.payload.nodes);
    }
  }

  lemma ResultsGatherNext(t: Turn, own: seq<Event>, e: Event)
    requires ResultsGathered(t, own)
    ensures ResultsGathered(Gather(t, e), own + [e])
  {
    hide Gather, TimesGathered, ReadsGathered, ModelsGathered, NodesGathered;
    TimesNext(t, own, e);
    ReadsNext(t, own, e);
    ModelsNext(t, own, e);
    NodesNext(t, own, e);
  }

  lemma StartedResults(e: Event)
    requires e.payload.TurnStarted?
    ensures ResultsGathered(Started(e), [])
  {
  }

  /** A turn's latest start. */
  function StartOf(events: seq<Event>, key: TurnKey): Option<Event> {
    if events == [] then None
    else
      var e := events[|events| - 1];
      if KeyOf(e) == key && e.payload.TurnStarted? then Some(e) else StartOf(events[..|events| - 1], key)
  }

  /** What a turn keeps of its start. */
  ghost predicate KeepsStart(t: Turn, start: Option<Event>) {
    && start.Some? && start.value.payload.TurnStarted?
    && var p := start.value.payload;
       t.startedAt == start.value.time && t.model == p.model && t.promptVersion == p.promptVersion
       && t.profileVersion == p.profileVersion && t.origin == p.origin
  }

  lemma GatherKeepsStart(t: Turn, e: Event, start: Option<Event>)
    requires KeepsStart(t, start)
    ensures KeepsStart(Gather(t, e), start)
  {
    hide WithResult, WithToolTime, CountMemoryCall, WithNodes, IsMemoryTool, NavigationExcluded;
  }

  lemma StartIsKept(e: Event)
    requires e.payload.TurnStarted?
    ensures KeepsStart(Started(e), Some(e))
  {
  }

  lemma {:induction false} OpenTurnsHaveResults(events: seq<Event>, key: TurnKey, prices: Prices)
    ensures key in Fold(events, prices).open ==>
      && ResultsGathered(Fold(events, prices).open[key], OwnSinceStart(events, key))
      && KeepsStart(Fold(events, prices).open[key], StartOf(events, key))
  {
    hide ResultsGathered, KeepsStart, Gather, Started, BookStep;
    if events != [] {
      var n := |events| - 1;
      var open, e := Fold(events[..n], prices).open, events[n];
      OpenTurnsHaveResults(events[..n], key, prices);
      if KeyOf(e) == key {
        if e.payload.TurnStarted? {
          StartedResults(e);
          StartIsKept(e);
        } else if key in open {
          ResultsGatherNext(open[key], OwnSinceStart(events[..n], key), e);
          GatherKeepsStart(open[key], e, StartOf(events[..n], key));
          if !(IsGathered(e.payload) || e.payload.MemoryRecalled? || e.payload.RunDelegated?) {
            OthersAddNothing(open[key], e);
          }
        }
      }
    }
  }

  // ---------------------------------------------------------------- what the record says

  function AsSet(items: seq<string>): set<string> {
    set x | x in items
  }

  lemma OpenedOnceEach(items: seq<string>)
    ensures (set x | x in multiset(items)) == AsSet(items)
  {
  }

  ghost predicate TellsResults(r: Record, own: seq<Event>, start: Event, prices: Prices)
    requires start.payload.TurnStarted?
  {
    var memory := UseOf(CallsMade(own), ReturnedMemory(own), PriceOf(prices, Some(start.payload.model)));
    var distinct := |AsSet(PathsOpened(own))|;
    && r.toolTime == ToolTime(TimeOf(own, false), TimeOf(own, true))
    && r.navigation.durationMs == ReadTime(own)
    && r.navigation.distinctPaths == distinct && r.navigation.repeatOpens == |PathsOpened(own)| - distinct
    && r.recalled == Firsts(NodesRead(own))
    && r.memoryTokens == memory.tokens && r.memoryCarried == memory.carried
    && r.memoryCarriedCost == memory.carriedCost && r.memoryMeasured == memory.measured
    && r.model == Some(start.payload.model) && r.startedAt == Some(start.time) && r.origin == Some(start.payload.origin)
    && r.promptVersion == start.payload.promptVersion && r.profileVersion == start.payload.profileVersion
  }

  lemma ClosedTellsResults(e: Event, t: Turn, own: seq<Event>, start: Event, prices: Prices)
    requires IsClosing(e.payload) && ResultsGathered(t, own) && KeepsStart(t, Some(start))
    ensures TellsResults(Closed(e, Some(t), prices), own, start, prices)
  {
    hide TimeOf, ReadTime, PathsOpened, NodesRead, Firsts, CallsMade, ReturnedMemory, UseOf, PriceOf, CostAtClose, DeclaredWrite;
    OpenedOnceEach(PathsOpened(own));
    assert |multiset(PathsOpened(own))| == |PathsOpened(own)|;
  }

  /** The record of a closed turn also tells, from those events, how long its reads and writes took, how many
      paths it opened and reopened, which nodes it recalled, and what memory added to its model calls; and from
      its start, the model, the versions, the origin and when it began. */
  lemma {:induction false} RecordTellsItsResults(events: seq<Event>, e: Event, prices: Prices)
    requires IsClosing(e.payload) && KeyOf(e) in Fold(events, prices).open
    ensures var before, after := Fold(events, prices).book.records, Fold(events + [e], prices).book.records;
            var start := StartOf(events, KeyOf(e));
            && |after| == |before| + 1 && start.Some? && start.value.payload.TurnStarted?
            && TellsResults(after[|before|], OwnSinceStart(events, KeyOf(e)), start.value, prices)
  {
    hide Closed, ResultsGathered, TellsResults;
    var s, key := Fold(events, prices), KeyOf(e);
    assert (events + [e])[..|events|] == events;
    OpenTurnsHaveResults(events, key, prices);
    ClosedTellsResults(e, s.open[key], OwnSinceStart(events, key), StartOf(events, key).value, prices);
  }
}
