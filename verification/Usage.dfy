/** Token totals of the completed turns of a range, thread by thread. */
module Usage {
  import opened Events
  import opened Pricing
  import opened Metrics
  import opened MetricsWindow
  import opened WindowProof
  import opened WindowReport

  datatype TurnUsage = TurnUsage(turn: Id, tokens: Tokens, recapInput: int, recapOutput: int, delegated: seq<ReportedRun>)

  datatype ThreadUsage = ThreadUsage(thread: Id, tokens: Tokens, turns: seq<TurnUsage>)

  function SumTurns(turns: seq<TurnUsage>): Tokens {
    if turns == [] then NO_TOKENS else AddTokens(SumTurns(turns[..|turns| - 1]), turns[|turns| - 1].tokens)
  }

  function UsageOf(r: Record, range: TimeRange): TurnUsage {
    TurnUsage(r.key.turn, r.tokens, r.recapInput, r.recapOutput, Filter(r.delegated, ReportedWithin(range)))
  }

  function Counted(range: TimeRange): Record -> bool {
    (r: Record) => r.closing == Completed && range.Includes(r.closedAt)
  }

  /** The threads in order of their first counted turn, and each thread's turns. */
  function CountedThreads(records: seq<Record>, range: TimeRange): seq<Id> {
    if records == [] then []
    else
      var before, r := CountedThreads(records[..|records| - 1], range), records[|records| - 1];
      if Counted(range)(r) && r.key.thread !in before then before + [r.key.thread] else before
  }

  function TurnsOf(records: seq<Record>, range: TimeRange, thread: Id): seq<TurnUsage> {
    if records == [] then []
    else
      var before, r := TurnsOf(records[..|records| - 1], range, thread), records[|records| - 1];
      if Counted(range)(r) && r.key.thread == thread then before + [UsageOf(r, range)] else before
  }

  function UsageTotals(records: seq<Record>, range: TimeRange): seq<ThreadUsage> {
    var threads := CountedThreads(records, range);
    seq(|threads|, i requires 0 <= i < |threads| =>
      ThreadUsage(threads[i], SumTurns(TurnsOf(records, range, threads[i])), TurnsOf(records, range, threads[i])))
  }

  /** Read the records once, filling each thread's turns as they come. */
  method CountUsage(records: seq<Record>, range: TimeRange) returns (usage: seq<ThreadUsage>)
    ensures usage == UsageTotals(records, range)
  {
    hide UsageOf, SumTurns;
    var threads: seq<Id> := [];
    var turns: map<Id, seq<TurnUsage>> := map[];
    var i := 0;
    while i < |records|
      invariant 0 <= i <= |records|
      invariant threads == CountedThreads(records[..i], range)
      invariant forall thread :: (if thread in turns then turns[thread] else []) == TurnsOf(records[..i], range, thread)
      invariant forall thread :: thread in turns <==> thread in threads
    {
      var r := records[i];
      assert records[..i + 1][..i] == records[..i];
      if r.closing == Completed && range.Includes(r.closedAt) {
        var thread := r.key.thread;
        if thread !in turns {
          threads := threads + [thread];
          turns := turns[thread := []];
        }
        turns := turns[thread := turns[thread] + [UsageOf(r, range)]];
      }
      i := i + 1;
    }
    assert records[..|records|] == records;
    usage := seq(|threads|, j requires 0 <= j < |threads| =>
      var own := if threads[j] in turns then turns[threads[j]] else [];
      ThreadUsage(threads[j], SumTurns(own), own));
  }

  // ---------------------------------------------------------------- from the window

  lemma {:induction false} OnlyTheRangeCounts(records: seq<Record>, range: TimeRange, thread: Id)
    ensures CountedThreads(Filter(records, ClosedWithin(range)), range) == CountedThreads(records, range)
    ensures TurnsOf(Filter(records, ClosedWithin(range)), range, thread) == TurnsOf(records, range, thread)
  {
    if records != [] {
      var n := |records| - 1;
      OnlyTheRangeCounts(records[..n], range, thread);
      var kept := Filter(records[..n], ClosedWithin(range));
      if ClosedWithin(range)(records[n]) {
        assert (kept + [records[n]])[..|kept|] == kept;
      }
    }
  }

  lemma UsageOfTheRange(records: seq<Record>, range: TimeRange)
    ensures UsageTotals(Filter(records, ClosedWithin(range)), range) == UsageTotals(records, range)
  {
    OnlyTheRangeCounts(records, range, 0);
    forall thread ensures TurnsOf(Filter(records, ClosedWithin(range)), range, thread) == TurnsOf(records, range, thread) {
      OnlyTheRangeCounts(records, range, thread);
    }
  }

  /** A range's usage read from the window is the one read from the whole log. */
  lemma {:induction false} WindowCounts(log: seq<Event>, range: TimeRange, prices: Prices)
    requires WellFormed(log)
    ensures UsageTotals(TurnMetricsOf(MetricsEvents(log, range.since), prices).records, range)
         == UsageTotals(TurnMetricsOf(log, prices).records, range)
  {
    hide TurnMetricsOf, UsageTotals, WellFormed;
    WindowReports(log, range, prices);
    UsageOfTheRange(TurnMetricsOf(log, prices).records, range);
    UsageOfTheRange(TurnMetricsOf(MetricsEvents(log, range.since), prices).records, range);
  }

  // ---------------------------------------------------------------- what the threads count together

  function SumCounted(records: seq<Record>, range: TimeRange): Tokens {
    if records == [] then NO_TOKENS
    else
      var before, r := SumCounted(records[..|records| - 1], range), records[|records| - 1];
      if Counted(range)(r) then AddTokens(before, r.tokens) else before
  }

  function SumThreads(records: seq<Record>, range: TimeRange, threads: seq<Id>): Tokens {
    if threads == [] then NO_TOKENS
    else
      var n := |threads| - 1;
      AddTokens(SumThreads(records, range, threads[..n]), SumTurns(TurnsOf(records, range, threads[n])))
  }

  ghost predicate DistinctIds(threads: seq<Id>) {
    forall i, j :: 0 <= i < j < |threads| ==> threads[i] != threads[j]
  }

  lemma UsageTokens(r: Record, range: TimeRange)
    ensures UsageOf(r, range).tokens == r.tokens
  {
  }

  /** A counted turn adds to its own thread, and to no other. */
  lemma {:induction false} TurnAddsOnce(records: seq<Record>, range: TimeRange, threads: seq<Id>)
    requires records != [] && DistinctIds(threads)
    ensures var n := |records| - 1;
            var before, r := SumThreads(records[..n], range, threads), records[n];
            SumThreads(records, range, threads) == if Counted(range)(r) && r.key.thread in threads then AddTokens(before, r.tokens) else before
  {
    hide UsageOf, Counted;
    if threads != [] {
      var n, k := |records| - 1, |threads| - 1;
      TurnAddsOnce(records, range, threads[..k]);
      var before := TurnsOf(records[..n], range, threads[k]);
      UsageTokens(records[n], range);
      assert (before + [UsageOf(records[n], range)])[..|before|] == before;
    }
  }

  lemma {:induction false} NoRecordsCount(range: TimeRange, threads: seq<Id>)
    ensures SumThreads([], range, threads) == NO_TOKENS
  {
    if threads != [] {
      NoRecordsCount(range, threads[..|threads| - 1]);
    }
  }

  lemma {:induction false} ThreadsAddUp(records: seq<Record>, range: TimeRange, threads: seq<Id>)
    requires DistinctIds(threads) && forall t :: t in CountedThreads(records, range) ==> t in threads
    ensures SumThreads(records, range, threads) == SumCounted(records, range)
  {
    if records == [] {
      NoRecordsCount(range, threads);
    } else {
      ThreadsAddUp(records[..|records| - 1], range, threads);
      TurnAddsOnce(records, range, threads);
    }
  }

  lemma {:induction false} ThreadsAreDistinct(records: seq<Record>, range: TimeRange)
    ensures DistinctIds(CountedThreads(records, range))
  {
    if records != [] {
      ThreadsAreDistinct(records[..|records| - 1], range);
    }
  }

  /** The threads' totals add up to the tokens of the turns counted: every one is in one thread. */
  lemma UsageAddsUp(records: seq<Record>, range: TimeRange)
    ensures SumThreads(records, range, CountedThreads(records, range)) == SumCounted(records, range)
  {
    ThreadsAreDistinct(records, range);
    ThreadsAddUp(records, range, CountedThreads(records, range));
  }

  // ---------------------------------------------------------------- which turns a thread counts

  /** A thread's entry for a turn that completed in the range: its tokens, its recap's, and its runs of the
      range. */
  ghost predicate Tells(t: TurnUsage, r: Record, range: TimeRange) {
    && t.turn == r.key.turn && t.tokens == r.tokens && t.recapInput == r.recapInput && t.recapOutput == r.recapOutput
    && forall run :: run in t.delegated <==> run in r.delegated && Within(run.time, range)
  }

  ghost predicate CountsIn(records: seq<Record>, range: TimeRange, thread: Id, r: Record) {
    r in records && r.key.thread == thread && r.closing == Completed && Within(r.closedAt, range)
  }

  lemma CountedIs(range: TimeRange, r: Record)
    ensures Counted(range)(r) <==> r.closing == Completed && Within(r.closedAt, range)
  {
  }

  lemma {:induction false} ThreadCounts(records: seq<Record>, range: TimeRange, thread: Id)
    ensures thread in CountedThreads(records, range) <==> exists r :: CountsIn(records, range, thread, r)
  {
    hide Counted, Within;
    if records != [] {
      var n := |records| - 1;
      ThreadCounts(records[..n], range, thread);
      CountedIs(range, records[n]);
      assert records == records[..n] + [records[n]];
      if r :| CountsIn(records[..n], range, thread, r) {
        assert CountsIn(records, range, thread, r);
      }
      if r :| CountsIn(records, range, thread, r) {
        assert r == records[n] || CountsIn(records[..n], range, thread, r);
      }
      if Counted(range)(records[n]) && records[n].key.thread == thread {
        assert CountsIn(records, range, thread, records[n]);
      }
    }
  }

  /** A turn that counts has its entry in its thread. */
  lemma {:induction false} TurnHasEntry(records: seq<Record>, range: TimeRange, thread: Id, r: Record)
    requires CountsIn(records, range, thread, r)
    ensures exists t :: t in TurnsOf(records, range, thread) && Tells(t, r, range)
  {
    hide Tells, UsageOf, Counted, Within;
    var n := |records| - 1;
    assert records == records[..n] + [records[n]];
    CountedIs(range, records[n]);
    if r == records[n] {
      UsageTells(r, range);
      assert UsageOf(r, range) in TurnsOf(records, range, thread);
    } else {
      TurnHasEntry(records[..n], range, thread, r);
      var t :| t in TurnsOf(records[..n], range, thread) && Tells(t, r, range);
      assert t in TurnsOf(records, range, thread);
    }
  }

  /** An entry of a thread is of a turn that counts in it. */
  lemma {:induction false} EntryHasTurn(records: seq<Record>, range: TimeRange, thread: Id, t: TurnUsage)
    requires t in TurnsOf(records, range, thread)
    ensures exists r :: CountsIn(records, range, thread, r) && Tells(t, r, range)
  {
    hide Tells, UsageOf, Counted, Within;
    var n := |records| - 1;
    assert records == records[..n] + [records[n]];
    CountedIs(range, records[n]);
    UsageTells(records[n], range);
    if t in TurnsOf(records[..n], range, thread) {
      EntryHasTurn(records[..n], range, thread, t);
      var r :| CountsIn(records[..n], range, thread, r) && Tells(t, r, range);
      assert CountsIn(records, range, thread, r);
    } else {
      assert CountsIn(records, range, thread, records[n]);
    }
  }

  /** One thread's first counted turn comes before any of another's. */
  ghost predicate CountsBefore(records: seq<Record>, range: TimeRange, first: Id, second: Id) {
    exists a :: 0 <= a < |records| && CountsIn([records[a]], range, first, records[a])
                && forall b :: 0 <= b <= a ==> !CountsIn([records[b]], range, second, records[b])
  }

  lemma {:induction false} ThreadsInOrder(records: seq<Record>, range: TimeRange, i: nat, j: nat)
    requires i < j < |CountedThreads(records, range)|
    ensures CountsBefore(records, range, CountedThreads(records, range)[i], CountedThreads(records, range)[j])
  {
    hide Counted, Within;
    var n := |records| - 1;
    var before, threads := CountedThreads(records[..n], range), CountedThreads(records, range);
    CountedIs(range, records[n]);
    if j < |before| {
      ThreadsInOrder(records[..n], range, i, j);
      var a :| 0 <= a < n && CountsIn([records[..n][a]], range, before[i], records[..n][a])
               && forall b :: 0 <= b <= a ==> !CountsIn([records[..n][b]], range, before[j], records[..n][b]);
      assert CountsIn([records[a]], range, before[i], records[a]);
      assert forall b :: 0 <= b <= a ==> records[..n][b] == records[b];
    } else {
      ThreadCounts(records[..n], range, before[i]);
      ThreadCounts(records[..n], range, threads[j]);
      var r :| CountsIn(records[..n], range, before[i], r);
      var a :| 0 <= a < n && records[..n][a] == r;
      assert CountsIn([records[a]], range, before[i], records[a]);
      forall b | 0 <= b <= a ensures !CountsIn([records[b]], range, threads[j], records[b]) {
        assert records[..n][b] == records[b] && !CountsIn(records[..n], range, threads[j], records[b]);
      }
    }
  }

  lemma UsageTells(r: Record, range: TimeRange)
    ensures Tells(UsageOf(r, range), r, range)
  {
    FilterMembers(r.delegated, ReportedWithin(range));
  }

  /** Usage has a thread for each in which a turn completed in the range, once, in the order of the first; and in
      it exactly those turns, each with its own tokens. */
  lemma UsageHoldsCompleted(records: seq<Record>, range: TimeRange, thread: Id)
    ensures var usage := UsageTotals(records, range);
            && (forall i, j :: 0 <= i < j < |usage| ==>
                  usage[i].thread != usage[j].thread && CountsBefore(records, range, usage[i].thread, usage[j].thread))
            && ((exists i :: 0 <= i < |usage| && usage[i].thread == thread) <==> exists r :: CountsIn(records, range, thread, r))
            && forall i :: 0 <= i < |usage| && usage[i].thread == thread ==>
                 && usage[i].tokens == SumTurns(usage[i].turns)
                 && (forall r :: CountsIn(records, range, thread, r) ==> exists t :: t in usage[i].turns && Tells(t, r, range))
                 && (forall t :: t in usage[i].turns ==> exists r :: CountsIn(records, range, thread, r) && Tells(t, r, range))
  {
    ThreadsAreDistinct(records, range);
    ThreadCounts(records, range, thread);
    hide CountedThreads, TurnsOf, CountsIn, Tells, SumTurns, CountsBefore;
    var threads, usage := CountedThreads(records, range), UsageTotals(records, range);
    assert |usage| == |threads| && forall i :: 0 <= i < |threads| ==> usage[i].thread == threads[i];
    forall i, j | 0 <= i < j < |threads| ensures CountsBefore(records, range, threads[i], threads[j]) {
      ThreadsInOrder(records, range, i, j);
    }
    if thread in threads {
      var i :| 0 <= i < |threads| && threads[i] == thread;
      assert usage[i].thread == thread;
    }
    forall r | CountsIn(records, range, thread, r) ensures exists t :: t in TurnsOf(records, range, thread) && Tells(t, r, range) {
      TurnHasEntry(records, range, thread, r);
    }
    forall t | t in TurnsOf(records, range, thread) ensures exists r :: CountsIn(records, range, thread, r) && Tells(t, r, range) {
      EntryHasTurn(records, range, thread, t);
    }
  }
}
