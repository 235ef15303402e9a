/** A coding client counts a session's running total, and a session may go on over several steps. Each step
    records only what the earlier runs of its session had not counted. */
module OwnTokens {
  import opened Events

  function Larger(a: int, b: int): int {
    if a >= b then a else b
  }

  /** Two totals column by column, the larger of each. */
  function Highest(a: Tokens, b: Tokens): Tokens {
    Tokens(Larger(a.input, b.input), Larger(a.output, b.output), Larger(a.cacheRead, b.cacheRead),
           Larger(a.cacheCreation, b.cacheCreation))
  }

  function InSession(session: Option<string>): DelegatedRun -> bool {
    (run: DelegatedRun) => run.session == session
  }

  function SumTokens(runs: seq<DelegatedRun>): Tokens {
    if runs == [] then NO_TOKENS else AddTokens(SumTokens(runs[..|runs| - 1]), runs[|runs| - 1].tokens)
  }

  /** What the runs of a session count together. */
  function SessionTokens(runs: seq<DelegatedRun>, session: Option<string>): Tokens {
    SumTokens(Filter(runs, InSession(session)))
  }

  function Excess(total: int, counted: int): int {
    Larger(total - counted, 0)
  }

  /** The run with only its own tokens: what the earlier runs of its session counted comes off. */
  function OwnRun(run: DelegatedRun, earlier: seq<DelegatedRun>): DelegatedRun {
    if run.session.None? then run
    else
      var before := SessionTokens(earlier, run.session);
      run.(tokens := Tokens(Excess(run.tokens.input, before.input), Excess(run.tokens.output, before.output),
                            Excess(run.tokens.cacheRead, before.cacheRead), Excess(run.tokens.cacheCreation, before.cacheCreation)))
  }

  /** What is recorded for the readings of one step after another. */
  function Recorded(readings: seq<DelegatedRun>): seq<DelegatedRun> {
    if readings == [] then []
    else
      var earlier := Recorded(readings[..|readings| - 1]);
      earlier + [OwnRun(readings[|readings| - 1], earlier)]
  }

  /** The highest running total yet read of a session, in each column. */
  function HighestRead(readings: seq<DelegatedRun>, session: Option<string>): Tokens {
    if readings == [] then NO_TOKENS
    else
      var before, run := HighestRead(readings[..|readings| - 1], session), readings[|readings| - 1];
      if run.session == session then Highest(before, run.tokens) else before
  }

  lemma SessionNext(runs: seq<DelegatedRun>, run: DelegatedRun, session: Option<string>)
    ensures SessionTokens(runs + [run], session)
         == if run.session == session then AddTokens(SessionTokens(runs, session), run.tokens) else SessionTokens(runs, session)
  {
    FilterSnoc(runs, run, InSession(session));
    var kept := Filter(runs, InSession(session));
    if run.session == session {
      assert (kept + [run])[..|kept|] == kept;
    }
  }

  /** Whatever was recorded before it, a run of a session raises what the session counts to its own reading,
      and leaves it where it was higher. */
  lemma {:induction false} RunReachesItsReading(run: DelegatedRun, earlier: seq<DelegatedRun>)
    requires run.session.Some?
    ensures SessionTokens(earlier + [OwnRun(run, earlier)], run.session) == Highest(SessionTokens(earlier, run.session), run.tokens)
  {
    SessionNext(earlier, OwnRun(run, earlier), run.session);
  }

  /** The tokens recorded for a session add up to the highest running total yet read of it, in each column,
      whatever order the readings rise or fall in and whatever other sessions run between. */
  lemma {:induction false} RecordedIsHighestRead(readings: seq<DelegatedRun>, session: Option<string>)
    requires session.Some?
    ensures SessionTokens(Recorded(readings), session) == HighestRead(readings, session)
  {
    if readings != [] {
      var n := |readings| - 1;
      var earlier, run := Recorded(readings[..n]), readings[n];
      RecordedIsHighestRead(readings[..n], session);
      if run.session == session {
        RunReachesItsReading(run, earlier);
      } else {
        SessionNext(earlier, OwnRun(run, earlier), session);
      }
    }
  }

  /** Column by column, one total within another. */
  predicate Within(a: Tokens, b: Tokens) {
    a.input <= b.input && a.output <= b.output && a.cacheRead <= b.cacheRead && a.cacheCreation <= b.cacheCreation
  }

  lemma HighestWithin(a: Tokens, b: Tokens, bound: Tokens)
    ensures Within(Highest(a, b), bound) <==> Within(a, bound) && Within(b, bound)
  {
  }

  /** The highest total is the least that holds nothing and every reading of the session, in each column. */
  lemma {:induction false} HighestIsLeastAbove(readings: seq<DelegatedRun>, session: Option<string>, bound: Tokens)
    ensures Within(HighestRead(readings, session), bound)
       <==> Within(NO_TOKENS, bound) && forall run :: run in readings && run.session == session ==> Within(run.tokens, bound)
  {
    hide Within, Highest;
    if readings != [] {
      var n := |readings| - 1;
      HighestIsLeastAbove(readings[..n], session, bound);
      HighestWithin(HighestRead(readings[..n], session), readings[n].tokens, bound);
      assert readings == readings[..n] + [readings[n]];
      assert readings[n] in readings;
    }
  }

  /** A run of no session is recorded as it was read, and any other with nothing changed but its tokens. */
  lemma {:induction false} WithoutSessionAsRead(readings: seq<DelegatedRun>)
    ensures |Recorded(readings)| == |readings|
    ensures forall i :: 0 <= i < |readings| && readings[i].session.None? ==> Recorded(readings)[i] == readings[i]
    ensures forall i :: 0 <= i < |readings| ==>
              Recorded(readings)[i] == readings[i].(tokens := Recorded(readings)[i].tokens)
  {
    if readings != [] {
      WithoutSessionAsRead(readings[..|readings| - 1]);
    }
  }
}
