/** What a closed turn's record says of the turn, told from the turn's own events since it started. */
module Gathered {
  import opened Events
  import opened Pricing
  import opened Memory
  import opened Metrics

  /** A turn's events since its latest start. */
  function OwnSinceStart(events: seq<Event>, key: TurnKey): seq<Event> {
    if events == [] then []
    else
      var before, e := OwnSinceStart(events[..|events| - 1], key), events[|events| - 1];
      if KeyOf(e) != key then before else if e.payload.TurnStarted? then [] else before + [e]
  }

  // ---------------------------------------------------------------- what the events say

  function Calls(name: string): Event -> bool {
    (e: Event) => e.payload.ToolCall? && e.payload.name == name
  }

  function AsksApproval(): Event -> bool {
    (e: Event) => e.payload.ApprovalRequested?
  }

  function DeniedBy(decider: Decider): Event -> bool {
    (e: Event) => e.payload.ToolGated? && !e.payload.allowed && e.payload.decidedBy == decider
  }

  function IsModelCall(): Event -> bool {
    (e: Event) => e.payload.ModelCompleted?
  }

  /** A call that reads, or one that writes, outside memory and skills. */
  predicate Navigates(p: Payload, write: bool) {
    p.ToolCall? && p.name !in MEMORY_TOOLS && p.name != "skill" && p.write == Some(write)
  }

  function NavigatesBy(write: bool): Event -> bool {
    (e: Event) => Navigates(e.payload, write)
  }

  function NamesCalled(own: seq<Event>): multiset<string> {
    if own == [] then multiset{}
    else
      var before, e := NamesCalled(own[..|own| - 1]), own[|own| - 1];
      if e.payload.ToolCall? then before + multiset{e.payload.name} else before
  }

  function TokensReported(own: seq<Event>): Tokens {
    if own == [] then NO_TOKENS
    else
      var e := own[|own| - 1];
      AddTokens(TokensReported(own[..|own| - 1]), if e.payload.ModelCompleted? then e.payload.tokens else NO_TOKENS)
  }

  function RunsReported(own: seq<Event>): seq<ReportedRun> {
    if own == [] then []
    else
      var before, e := RunsReported(own[..|own| - 1]), own[|own| - 1];
      if e.payload.RunDelegated? then before + [ReportedRun(e.time, e.payload.run)] else before
  }

  /** The events up to the first write outside memory and skills. */
  function UntilWrite(own: seq<Event>): (first: seq<Event>)
    ensures first <= own && forall e :: e in first ==> !Navigates(e.payload, true)
    ensures first == own || Navigates(own[|first|].payload, true)
  {
    if own == [] then []
    else
      var n := |own| - 1;
      var before := UntilWrite(own[..n]);
      if before == own[..n] && !Navigates(own[n].payload, true) then own else before
  }

  // ---------------------------------------------------------------- what an open turn has gathered

  ghost predicate ToolsGathered(t: Turn, own: seq<Event>) {
    && t.toolCalls == NamesCalled(own)
    && t.approvals == |Filter(own, AsksApproval())|
    && t.denies == Denies(|Filter(own, DeniedBy(Decider.Policy))|, |Filter(own, DeniedBy(Decider.User))|)
    && t.delegated == RunsReported(own)
  }

  ghost predicate MemoryGathered(t: Turn, own: seq<Event>) {
    t.memoryCalls == MemoryCalls(|Filter(own, Calls("memory_search"))|, |Filter(own, Calls("memory_open"))|,
                                 |Filter(own, Calls("remember"))|, |Filter(own, Calls("forget"))|)
  }

  ghost predicate ModelGathered(t: Turn, own: seq<Event>) {
    t.modelTokens == TokensReported(own) && |t.modelCalls| == |Filter(own, IsModelCall())|
  }

  ghost predicate NavigationGathered(t: Turn, own: seq<Event>) {
    && t.readCalls == |Filter(own, NavigatesBy(false))|
    && t.writes == |Filter(own, NavigatesBy(true))|
    && t.readsBeforeFirstWrite == |Filter(UntilWrite(own), NavigatesBy(false))|
    && var tokens := TokensReported(UntilWrite(own)); t.tokensBeforeFirstWrite == tokens.input + tokens.output
  }

  ghost predicate HasGathered(t: Turn, own: seq<Event>) {
    ToolsGathered(t, own) && MemoryGathered(t, own) && ModelGathered(t, own) && NavigationGathered(t, own)
  }

  lemma ReportedNext(own: seq<Event>, e: Event)
    ensures NamesCalled(own + [e]) == if e.payload.ToolCall? then NamesCalled(own) + multiset{e.payload.name} else NamesCalled(own)
    ensures TokensReported(own + [e]) == AddTokens(TokensReported(own), if e.payload.ModelCompleted? then e.payload.tokens else NO_TOKENS)
    ensures RunsReported(own + [e])
         == if e.payload.RunDelegated? then RunsReported(own) + [ReportedRun(e.time, e.payload.run)] else RunsReported(own)
  {
    assert (own + [e])[..|own|] == own;
  }

  function OneWhen(holds: bool): nat {
    if holds then 1 else 0
  }

  lemma NavigationKeepsTheRest(t: Turn, p: Payload)
    requires p.ToolCall?
    ensures var after := WithNavigation(t, p);
            && after.toolCalls == t.toolCalls && after.approvals == t.approvals && after.denies == t.denies
            && after.delegated == t.delegated && after.toolTime == t.toolTime && after.toolWrites == t.toolWrites
  {
    hide NavigationExcluded;
  }

  /** What one event adds to the calls, the approvals, the denials and the runs. */
  lemma GatherAdds(t: Turn, e: Event)
    ensures var after, p := Gather(t, e), e.payload;
            && after.toolCalls == (if p.ToolCall? then t.toolCalls + multiset{p.name} else t.toolCalls)
            && after.approvals == t.approvals + OneWhen(p.ApprovalRequested?)
            && after.denies == Denies(t.denies.policy + OneWhen(DeniedBy(Decider.Policy)(e)), t.denies.user + OneWhen(DeniedBy(Decider.User)(e)))
            && after.delegated == (if p.RunDelegated? then t.delegated + [ReportedRun(e.time, p.run)] else t.delegated)
  {
    hide WithNavigation, WithResult, WithToolTime, CountMemoryCall, WithNodes, IsMemoryTool;
    if e.payload.ToolCall? {
      var p := e.payload;
      NavigationKeepsTheRest(t.(toolCalls := t.toolCalls + multiset{p.name}, toolWrites := t.toolWrites[p.callId := p.write],
                                memoryCalls := CountMemoryCall(t.memoryCalls, p.name)), p);
    }
  }

  lemma GatherModel(t: Turn, e: Event)
    ensures var after, p := Gather(t, e), e.payload;
            && after.modelTokens == AddTokens(t.modelTokens, if p.ModelCompleted? then p.tokens else NO_TOKENS)
            && |after.modelCalls| == |t.modelCalls| + OneWhen(p.ModelCompleted?)
            && after.memoryCalls == if p.ToolCall? then CountMemoryCall(t.memoryCalls, p.name) else t.memoryCalls
  {
    hide NavigationExcluded, WithToolTime, CountMemoryCall, WithNodes, IsMemoryTool;
    if e.payload.ToolResult? {
      ResultsAreNoCalls(t.modelCalls, Result(e.payload.name, e.payload.output));
    }
    hide WithResult;
  }

  /** The calls that count as navigation, or end it, are those of every tool but memory's four and `skill`. */
  lemma NavigatesIs(p: Payload, write: bool)
    ensures Navigates(p, write) <==> p.ToolCall? && !NavigationExcluded(p.name) && p.write == Some(write)
  {
  }

  lemma GatherNavigation(t: Turn, e: Event)
    ensures var after, p := Gather(t, e), e.payload;
            && after.readCalls == t.readCalls + OneWhen(Navigates(p, false))
            && after.writes == t.writes + OneWhen(Navigates(p, true))
            && after.readsBeforeFirstWrite == t.readsBeforeFirstWrite + OneWhen(Navigates(p, false) && t.writes == 0)
            && after.tokensBeforeFirstWrite == t.tokensBeforeFirstWrite
                 + (if p.ModelCompleted? && t.writes == 0 then p.tokens.input + p.tokens.output else 0)
  {
    NavigatesIs(e.payload, false);
    NavigatesIs(e.payload, true);
    hide Navigates, NavigationExcluded, WithToolTime, CountMemoryCall, WithNodes, IsMemoryTool, WithResult;
  }

  lemma ToolsNext(t: Turn, own: seq<Event>, e: Event)
    requires ToolsGathered(t, own)
    ensures ToolsGathered(Gather(t, e), own + [e])
  {
    hide Gather, NamesCalled, RunsReported;
    GatherAdds(t, e);
    ReportedNext(own, e);
    FilterSnoc(own, e, AsksApproval());
    FilterSnoc(own, e, DeniedBy(Decider.Policy));
    FilterSnoc(own, e, DeniedBy(Decider.User));
    hide Filter;
  }

  lemma CallNames(name: string)
    ensures (name == "memory_search") || (name == "memory_open") || (name == "remember") || (name == "forget")
         || !IsMemoryTool(name)
    ensures "memory_search" != "memory_open" && "memory_search" != "remember" && "memory_search" != "forget"
    ensures "memory_open" != "remember" && "memory_open" != "forget" && "remember" != "forget"
  {
    assert |"memory_search"| == 13 && |"memory_open"| == 11 && |"remember"| == 8 && |"forget"| == 6;
  }

  lemma MemoryNext(t: Turn, own: seq<Event>, e: Event)
    requires MemoryGathered(t, own)
    ensures MemoryGathered(Gather(t, e), own + [e])
  {
    hide Gather;
    GatherModel(t, e);
    CallNames("");
    FilterSnoc(own, e, Calls("memory_search"));
    FilterSnoc(own, e, Calls("memory_open"));
    FilterSnoc(own, e, Calls("remember"));
    FilterSnoc(own, e, Calls("forget"));
    hide Filter;
  }

  lemma ResultsAreNoCalls(calls: seq<ModelCall>, r: Result)
    ensures |WithResult(calls, r)| == |calls|
  {
  }

  lemma ModelNext(t: Turn, own: seq<Event>, e: Event)
    requires ModelGathered(t, own)
    ensures ModelGathered(Gather(t, e), own + [e])
  {
    hide Gather, TokensReported, AddTokens;
    GatherModel(t, e);
    ReportedNext(own, e);
    FilterSnoc(own, e, IsModelCall());
    hide Filter;
  }

  /** The events up to the first write grow while there is none. */
  lemma UntilWriteNext(own: seq<Event>, e: Event)
    ensures UntilWrite(own + [e]) == if Filter(own, NavigatesBy(true)) == [] && !Navigates(e.payload, true) then UntilWrite(own) + [e] else UntilWrite(own)
    ensures Filter(own, NavigatesBy(true)) == [] <==> UntilWrite(own) == own
  {
    assert (own + [e])[..|own|] == own;
    FilterMembers(own, NavigatesBy(true));
    if UntilWrite(own) != own {
      assert own[|UntilWrite(own)|] in own;
      assert own[|UntilWrite(own)|] in Filter(own, NavigatesBy(true));
    }
    if Filter(own, NavigatesBy(true)) != [] {
      assert Filter(own, NavigatesBy(true))[0] in Filter(own, NavigatesBy(true));
    }
  }

  lemma NavigationNext(t: Turn, own: seq<Event>, e: Event)
    requires NavigationGathered(t, own)
    ensures NavigationGathered(Gather(t, e), own + [e])
  {
    hide Gather, UntilWrite, TokensReported, Navigates;
    GatherNavigation(t, e);
    FilterSnoc(own, e, NavigatesBy(true));
    FilterSnoc(own, e, NavigatesBy(false));
    UntilWriteNext(own, e);
    FilterSnoc(UntilWrite(own), e, NavigatesBy(false));
    ReportedNext(UntilWrite(own), e);
    CallsSpendNothing(e.payload);
    hide Filter;
  }

  lemma CallsSpendNothing(p: Payload)
    ensures Navigates(p, true) ==> !p.ModelCompleted? && !Navigates(p, false)
  {
  }

  lemma GatherNext(t: Turn, own: seq<Event>, e: Event)
    requires HasGathered(t, own)
    ensures HasGathered(Gather(t, e), own + [e])
  {
    hide Gather, ToolsGathered, MemoryGathered, ModelGathered, NavigationGathered;
    ToolsNext(t, own, e);
    MemoryNext(t, own, e);
    ModelNext(t, own, e);
    NavigationNext(t, own, e);
  }

  /** An event a turn does not gather adds nothing to it. */
  lemma OthersAddNothing(t: Turn, e: Event)
    requires !(IsGathered(e.payload) || e.payload.MemoryRecalled? || e.payload.RunDelegated?)
    ensures Gather(t, e) == t
  {
  }

  lemma StartedGathered(e: Event)
    requires e.payload.TurnStarted?
    ensures HasGathered(Started(e), [])
  {
  }

  lemma {:induction false} OpenTurnsGathered(events: seq<Event>, key: TurnKey, prices: Prices)
    ensures key in Fold(events, prices).open ==> HasGathered(Fold(events, prices).open[key], OwnSinceStart(events, key))
  {
    hide HasGathered, Gather, Started, BookStep;
    if events != [] {
      var n := |events| - 1;
      var open, e := Fold(events[..n], prices).open, events[n];
      OpenTurnsGathered(events[..n], key, prices);
      if KeyOf(e) == key {
        if e.payload.TurnStarted? {
          StartedGathered(e);
        } else if key in open {
          GatherNext(open[key], OwnSinceStart(events[..n], key), e);
          if !(IsGathered(e.payload) || e.payload.MemoryRecalled? || e.payload.RunDelegated?) {
            OthersAddNothing(open[key], e);
          }
        }
      }
    }
  }

  // ---------------------------------------------------------------- what the record says

  /** A record that tells what its turn's own events say. */
  ghost predicate Tells(r: Record, own: seq<Event>) {
    && r.toolCalls == NamesCalled(own)
    && r.approvals == |Filter(own, AsksApproval())|
    && r.denies == Denies(|Filter(own, DeniedBy(Decider.Policy))|, |Filter(own, DeniedBy(Decider.User))|)
    && r.delegated == RunsReported(own)
    && r.memoryCalls == MemoryCalls(|Filter(own, Calls("memory_search"))|, |Filter(own, Calls("memory_open"))|,
                                    |Filter(own, Calls("remember"))|, |Filter(own, Calls("forget"))|)
    && r.memoryConsulted == (Filter(own, Calls("memory_search")) != [] || Filter(own, Calls("memory_open")) != [])
    && r.navigation.readCalls == |Filter(own, NavigatesBy(false))|
    && r.navigation.writeCalls == |Filter(own, NavigatesBy(true))|
    && r.navigation.readsBeforeFirstWrite == |Filter(UntilWrite(own), NavigatesBy(false))|
    && var tokens := TokensReported(UntilWrite(own)); r.navigation.tokensBeforeFirstWrite == tokens.input + tokens.output
  }

  lemma ClosedTells(e: Event, t: Turn, own: seq<Event>, prices: Prices)
    requires IsClosing(e.payload) && HasGathered(t, own)
    ensures Tells(Closed(e, Some(t), prices), own)
  {
    hide Filter, NamesCalled, RunsReported, TokensReported, UntilWrite, UseOf, PriceOf, CostAtClose;
  }

  /** Closing an open turn adds a record that tells what the turn's own events say since it started: the calls
      made, those of memory's four tools, the approvals asked, the denials, the runs delegated, the reads and
      writes, and what was read and spent before the first write. */
  lemma {:induction false} RecordTellsItsTurn(events: seq<Event>, e: Event, prices: Prices)
    requires IsClosing(e.payload) && KeyOf(e) in Fold(events, prices).open
    ensures var before, after := Fold(events, prices).book.records, Fold(events + [e], prices).book.records;
            |after| == |before| + 1 && after[|before|].key == KeyOf(e) && Tells(after[|before|], OwnSinceStart(events, KeyOf(e)))
  {
    hide Closed, HasGathered, Tells;
    var s := Fold(events, prices);
    assert (events + [e])[..|events|] == events;
    OpenTurnsGathered(events, KeyOf(e), prices);
    ClosedTells(e, s.open[KeyOf(e)], OwnSinceStart(events, KeyOf(e)), prices);
  }

  /** A closing is suspect exactly when its turn called the model, worked, and closed with other totals than
      its calls reported. */
  lemma {:induction false} MismatchIsOfTheCalls(events: seq<Event>, e: Event, prices: Prices)
    requires IsClosing(e.payload) && KeyOf(e) in Fold(events, prices).open
    ensures var own := OwnSinceStart(events, KeyOf(e));
            var suspect := Filter(own, IsModelCall()) != [] && OutcomeOf(e.payload) == Work && TokensReported(own) != e.payload.tokens;
            Fold(events + [e], prices).book.mismatches == Fold(events, prices).book.mismatches + if suspect then [KeyOf(e)] else []
  {
    hide Closed, ToolsGathered, MemoryGathered, NavigationGathered, Filter, TokensReported;
    assert (events + [e])[..|events|] == events;
    OpenTurnsGathered(events, KeyOf(e), prices);
  }
}
