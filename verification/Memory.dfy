/** How many tokens memory's tool results added to a turn, and how often later calls read them. */
module Memory {
  import opened Events
  import opened Pricing

  datatype Result = Result(name: string, output: string)

  /** A model call, with the tool results that came back before the next one. */
  datatype ModelCall = ModelCall(input: int, output: int, results: seq<Result>)

  datatype MemoryUse = MemoryUse(tokens: real, carried: real, carriedCost: Option<real>, measured: bool)

  predicate IsMemoryTool(name: string) {
    name == "memory_search" || name == "memory_open" || name == "remember" || name == "forget"
  }

  function Memories(): Result -> bool {
    (r: Result) => IsMemoryTool(r.name)
  }

  function Characters(results: seq<Result>): nat {
    if results == [] then 0 else Characters(results[..|results| - 1]) + |results[|results| - 1].output|
  }

  /** Memory's characters are some of all the characters. */
  lemma {:induction false} CharactersPart(results: seq<Result>, keep: Result -> bool)
    ensures Characters(Filter(results, keep)) <= Characters(results)
  {
    if results != [] {
      var n := |results| - 1;
      CharactersPart(results[..n], keep);
      if keep(results[n]) {
        var kept := Filter(results[..n], keep);
        assert (kept + [results[n]])[..|kept|] == kept;
      }
    }
  }

  /** All of a memory-only step, or memory's share of a mixed step's characters. */
  function Share(results: seq<Result>): real {
    var memory := Filter(results, Memories());
    if memory == [] then 0.0
    else if |memory| == |results| then 1.0
    else if Characters(results) == 0 then 0.0
    else Characters(memory) as real / Characters(results) as real
  }

  lemma NotNegative(x: real, scale: real)
    requires scale > 0.0 && x * scale >= 0.0
    ensures x >= 0.0
  {
  }

  lemma RatioIsAFraction(part: nat, whole: nat)
    requires part <= whole && whole > 0
    ensures 0.0 <= part as real / whole as real <= 1.0
  {
    var ratio := part as real / whole as real;
    assert ratio * whole as real == part as real;
    NotNegative(ratio, whole as real);
    assert (1.0 - ratio) * whole as real == whole as real - part as real;
    NotNegative(1.0 - ratio, whole as real);
  }

  lemma ShareIsAFraction(results: seq<Result>)
    ensures 0.0 <= Share(results) <= 1.0
  {
    CharactersPart(results, Memories());
    if Characters(results) > 0 {
      RatioIsAFraction(Characters(Filter(results, Memories())), Characters(results));
    }
  }

  /** How much the input grew from the call at `i` to the next, beyond that call's own output. */
  function Grown(calls: seq<ModelCall>, i: nat): int
    requires i + 1 < |calls|
  {
    calls[i + 1].input - calls[i].input - calls[i].output
  }

  /** The memory tokens the step after the call at `i` added. A step whose input shrank adds none. */
  function StepTokens(calls: seq<ModelCall>, i: nat): real
    requires i + 1 < |calls|
  {
    if Grown(calls, i) < 0 then 0.0 else Grown(calls, i) as real * Share(calls[i].results)
  }

  /** The memory tokens of the first `n` steps. */
  function Added(calls: seq<ModelCall>, n: nat): real
    requires n == 0 || n < |calls|
  {
    if n == 0 then 0.0 else Added(calls, n - 1) + StepTokens(calls, n - 1)
  }

  function Times(tokens: real, calls: int): real {
    tokens * calls as real
  }

  /** The first `n` steps' tokens, each times the calls after the one it led to. */
  function Carried(calls: seq<ModelCall>, n: nat): real
    requires n == 0 || n < |calls|
  {
    if n == 0 then 0.0
    else Carried(calls, n - 1) + Times(StepTokens(calls, n - 1), |calls| - (n - 1) - 2)
  }

  predicate NoShrink(calls: seq<ModelCall>, n: nat)
    requires n == 0 || n < |calls|
  {
    forall i :: 0 <= i < n ==> Grown(calls, i) >= 0
  }

  function Steps(calls: seq<ModelCall>): (n: nat)
    ensures n == 0 || n < |calls|
  {
    if calls == [] then 0 else |calls| - 1
  }

  function UseOf(calls: seq<ModelCall>, returnedMemory: bool, price: Option<ModelPrice>): MemoryUse {
    var carried := Carried(calls, Steps(calls));
    MemoryUse(Added(calls, Steps(calls)), carried,
              if price.None? then None else Some(CacheReadCost(carried, price.value)),
              (calls != [] || !returnedMemory) && NoShrink(calls, Steps(calls)))
  }

  /** One pass over each call and the next. */
  method CountMemory(calls: seq<ModelCall>, returnedMemory: bool, price: Option<ModelPrice>) returns (use: MemoryUse)
    ensures use == UseOf(calls, returnedMemory, price)
  {
    hide Share, CacheReadCost;
    var tokens, carried := 0.0, 0.0;
    var measured := calls != [] || !returnedMemory;
    var index := 0;
    while index + 1 < |calls|
      invariant 0 <= index <= Steps(calls)
      invariant tokens == Added(calls, index) && carried == Carried(calls, index)
      invariant measured == ((calls != [] || !returnedMemory) && NoShrink(calls, index))
    {
      var call, following := calls[index], calls[index + 1];
      var grown := following.input - call.input - call.output;
      assert grown == Grown(calls, index);
      if grown < 0 {
        measured := false;
        assert Times(StepTokens(calls, index), |calls| - index - 2) == 0.0;
      } else {
        var step := grown as real * Share(call.results);
        assert step == StepTokens(calls, index);
        tokens := tokens + step;
        carried := carried + Times(step, |calls| - index - 2);
      }
      index := index + 1;
    }
    var carriedCost := None;
    if price.Some? {
      carriedCost := Some(CacheReadCost(carried, price.value));
    }
    use := MemoryUse(tokens, carried, carriedCost, measured);
  }

  // ---------------------------------------------------------------- what the counts mean

  /** The memory tokens already in the context before the step that led to the call at `j`. */
  function InContextBefore(calls: seq<ModelCall>, j: nat): real
    requires j < |calls|
  {
    if j < 2 then 0.0 else Added(calls, j - 1)
  }

  /** What the first `n` model calls read again, call by call. */
  function ReadAgain(calls: seq<ModelCall>, n: nat): real
    requires n <= |calls|
  {
    if n == 0 then 0.0 else ReadAgain(calls, n - 1) + InContextBefore(calls, n - 1)
  }

  lemma TimesRegroups(before: real, step: real, left: int)
    ensures Times(before, left + 1) + Times(step, left) == before + Times(before + step, left)
  {
  }

  /** After the first `n` steps, the tokens carried are what `n + 1` calls read again, plus what each of
      the calls left will read of them. */
  lemma {:induction false} CarriedSoFar(calls: seq<ModelCall>, n: nat)
    requires n < |calls|
    ensures Carried(calls, n) == ReadAgain(calls, n + 1) + Times(Added(calls, n), |calls| - n - 1)
  {
    if n == 0 {
      assert ReadAgain(calls, 1) == ReadAgain(calls, 0) + InContextBefore(calls, 0);
    } else {
      CarriedSoFar(calls, n - 1);
      TimesRegroups(Added(calls, n - 1), StepTokens(calls, n - 1), |calls| - n - 1);
      assert InContextBefore(calls, n) == Added(calls, n - 1);
    }
  }

  /** Carried tokens, counted forwards from each step, are the sum over the model calls of the memory
      tokens added before the step that led to that call. */
  lemma CarriedIsReadAgain(calls: seq<ModelCall>, returnedMemory: bool, price: Option<ModelPrice>)
    ensures UseOf(calls, returnedMemory, price).carried == ReadAgain(calls, |calls|)
  {
    if calls != [] {
      CarriedSoFar(calls, |calls| - 1);
      assert Times(Added(calls, |calls| - 1), 0) == 0.0;
    }
  }

  /** The outputs of the first `n` calls. */
  function Outputs(calls: seq<ModelCall>, n: nat): int
    requires n <= |calls|
  {
    if n == 0 then 0 else Outputs(calls, n - 1) + calls[n - 1].output
  }

  lemma FractionOf(grown: real, share: real)
    requires 0.0 <= grown && 0.0 <= share <= 1.0
    ensures 0.0 <= grown * share <= grown
  {
    assert grown * (1.0 - share) >= 0.0;
  }

  /** A step that did not shrink adds at most what it grew by. */
  lemma StepWithinGrowth(calls: seq<ModelCall>, i: nat)
    requires i + 1 < |calls| && Grown(calls, i) >= 0
    ensures 0.0 <= StepTokens(calls, i) <= Grown(calls, i) as real
  {
    ShareIsAFraction(calls[i].results);
    hide Share;
    FractionOf(Grown(calls, i) as real, Share(calls[i].results));
  }

  lemma {:induction false} AddedWithinGrowth(calls: seq<ModelCall>, n: nat)
    requires n < |calls| && NoShrink(calls, n)
    ensures 0.0 <= Added(calls, n) <= (calls[n].input - calls[0].input - Outputs(calls, n)) as real
  {
    hide StepTokens;
    if n > 0 {
      AddedWithinGrowth(calls, n - 1);
      StepWithinGrowth(calls, n - 1);
      assert (calls[n].input - calls[0].input - Outputs(calls, n)) as real
          == (calls[n - 1].input - calls[0].input - Outputs(calls, n - 1)) as real + Grown(calls, n - 1) as real;
    }
  }

  /** When no step shrank the input, memory's tokens are at most what the input grew by from the first
      call to the last beyond the outputs of every call but the last. */
  lemma MemoryWithinGrowth(calls: seq<ModelCall>, returnedMemory: bool, price: Option<ModelPrice>)
    requires calls != [] && NoShrink(calls, |calls| - 1)
    ensures var use := UseOf(calls, returnedMemory, price);
            && use.measured
            && 0.0 <= use.tokens
            && use.tokens <= (calls[|calls| - 1].input - calls[0].input - Outputs(calls, |calls| - 1)) as real
  {
    AddedWithinGrowth(calls, |calls| - 1);
  }

  // ---------------------------------------------------------------- what a step adds

  /** The characters of the results of some tools. */
  function OutputLength(results: seq<Result>, tools: set<string>): nat {
    if results == [] then 0
    else
      var before, r := OutputLength(results[..|results| - 1], tools), results[|results| - 1];
      if r.name in tools then before + |r.output| else before
  }

  const MEMORY_TOOLS := {"memory_search", "memory_open", "remember", "forget"}

  lemma {:induction false} LengthsAreCharacters(results: seq<Result>)
    ensures OutputLength(results, MEMORY_TOOLS) <= Characters(results)
    ensures OutputLength(results, MEMORY_TOOLS) == Characters(Filter(results, Memories()))
  {
    if results != [] {
      var n := |results| - 1;
      LengthsAreCharacters(results[..n]);
      var kept := Filter(results[..n], Memories());
      assert (kept + [results[n]])[..|kept|] == kept;
    }
  }

  ghost predicate SomeOf(results: seq<Result>, tools: set<string>) {
    exists r :: r in results && r.name in tools
  }

  ghost predicate AllOf(results: seq<Result>, tools: set<string>) {
    forall r :: r in results ==> r.name in tools
  }

  lemma {:induction false} KeptAll<T>(items: seq<T>, keep: T -> bool)
    ensures |Filter(items, keep)| == |items| <==> forall x :: x in items ==> keep(x)
    ensures Filter(items, keep) == [] <==> forall x :: x in items ==> !keep(x)
  {
    FilterMembers(items, keep);
    if items != [] {
      var n := |items| - 1;
      assert items == items[..n] + [items[n]];
      KeptAll(items[..n], keep);
      if x :| x in items && keep(x) {
        assert x in Filter(items, keep);
      }
    }
  }

  lemma MemoryToolsAre(name: string)
    ensures IsMemoryTool(name) <==> name in MEMORY_TOOLS
  {
  }

  lemma MemoriesAre(results: seq<Result>)
    ensures (forall r :: r in results ==> Memories()(r)) <==> AllOf(results, MEMORY_TOOLS)
    ensures (forall r :: r in results ==> !Memories()(r)) <==> !SomeOf(results, MEMORY_TOOLS)
  {
  }

  lemma RatioTimes(part: nat, whole: nat)
    requires whole > 0
    ensures part as real / whole as real * whole as real == part as real
  {
  }

  /** A share of a step whose results are some memory's and some not, by its definition. */
  lemma MixedShare(results: seq<Result>)
    requires Filter(results, Memories()) != [] && |Filter(results, Memories())| != |results|
    ensures var memory, whole := Characters(Filter(results, Memories())), Characters(results);
            Share(results) == if whole == 0 then 0.0 else memory as real / whole as real
  {
    hide Filter, Characters;
  }

  lemma WholeShare(results: seq<Result>)
    ensures Filter(results, Memories()) == [] ==> Share(results) == 0.0
    ensures Filter(results, Memories()) != [] && |Filter(results, Memories())| == |results| ==> Share(results) == 1.0
  {
    hide Filter, Characters;
  }

  /** Memory's part of a step's growth: none when none of its results is memory's, all when all are, and
      otherwise the part of the results' characters that memory's results are. */
  lemma ShareIsOfTheCharacters(results: seq<Result>)
    ensures !SomeOf(results, MEMORY_TOOLS) ==> Share(results) == 0.0
    ensures SomeOf(results, MEMORY_TOOLS) && AllOf(results, MEMORY_TOOLS) ==> Share(results) == 1.0
    ensures SomeOf(results, MEMORY_TOOLS) && !AllOf(results, MEMORY_TOOLS) ==>
      && Share(results) * Characters(results) as real == OutputLength(results, MEMORY_TOOLS) as real
      && (Characters(results) == 0 ==> Share(results) == 0.0)
  {
    LengthsAreCharacters(results);
    KeptAll(results, Memories());
    MemoriesAre(results);
    WholeShare(results);
    hide Filter, Characters, Share, OutputLength, SomeOf, AllOf;
    if SomeOf(results, MEMORY_TOOLS) && !AllOf(results, MEMORY_TOOLS) {
      MixedShare(results);
      if Characters(results) > 0 {
        RatioTimes(OutputLength(results, MEMORY_TOOLS), Characters(results));
      }
    }
  }

  lemma {:induction false} EarlierSteps(calls: seq<ModelCall>, c: ModelCall, n: nat)
    requires n < |calls|
    ensures Added(calls + [c], n) == Added(calls, n)
    ensures Carried(calls + [c], n) == Carried(calls, n) + Added(calls, n)
    ensures NoShrink(calls + [c], n) == NoShrink(calls, n)
  {
    hide Share, Times;
    if n > 0 {
      EarlierSteps(calls, c, n - 1);
      assert StepTokens(calls + [c], n - 1) == StepTokens(calls, n - 1);
      OneMoreTime(StepTokens(calls, n - 1), |calls| - (n - 1) - 2);
    }
    assert forall i :: 0 <= i < n ==> Grown(calls + [c], i) == Grown(calls, i);
  }

  lemma OneMoreTime(tokens: real, calls: int)
    ensures Times(tokens, calls + 1) == Times(tokens, calls) + tokens
  {
  }

  /** One more model call: what the input grew by since the call before it, beyond that call's output, is
      memory's by the share of the results in between; a smaller input adds nothing, and makes the count an
      estimate. And the new call reads again all that memory had added before it. */
  lemma OneMoreCall(calls: seq<ModelCall>, c: ModelCall, returnedMemory: bool, price: Option<ModelPrice>)
    requires calls != []
    ensures var before, after := UseOf(calls, returnedMemory, price), UseOf(calls + [c], returnedMemory, price);
            var last := calls[|calls| - 1];
            var grown := c.input - last.input - last.output;
            && after.tokens == before.tokens + (if grown < 0 then 0.0 else grown as real * Share(last.results))
            && after.carried == before.carried + before.tokens
            && (after.measured <==> before.measured && grown >= 0)
  {
    hide Share, CacheReadCost;
    var n := |calls| - 1;
    EarlierSteps(calls, c, n);
    assert Grown(calls + [c], n) == c.input - calls[n].input - calls[n].output;
    assert StepTokens(calls + [c], n) == if Grown(calls + [c], n) < 0 then 0.0 else Grown(calls + [c], n) as real * Share(calls[n].results);
    assert Times(StepTokens(calls + [c], n), 0) == 0.0;
  }

  /** Before a second call nothing was added or read again, and the count is exact unless memory returned
      something to no call. What was carried costs as much as so many cache reads, where the model is priced. */
  lemma FirstCall(calls: seq<ModelCall>, returnedMemory: bool, price: Option<ModelPrice>)
    ensures var use := UseOf(calls, returnedMemory, price);
            && (|calls| <= 1 ==> use.tokens == 0.0 && use.carried == 0.0 && (use.measured <==> calls != [] || !returnedMemory))
            && (use.carriedCost.Some? <==> price.Some?)
            && (price.Some? ==> use.carriedCost == Some(CacheReadCost(use.carried, price.value)))
  {
  }
}
