/** Running the tool node again is the same as never having stopped it; and whatever is loaded in between,
    what it stores is stored once. */
module ToolReplay {
  import opened Events
  import opened Gate
  import opened ToolNode

  // ---------------------------------------------------------------- one pass that never stops

  /** Whoever answers, told the answers given so far and what is asked. */
  type Answerer = (seq<Answer>, Request) -> Answer

  /** The pass that asks as it goes, with the answers it was given. */
  function Online(ctx: Context, node: Node, calls: seq<ModelCall>, answerer: Answerer): (Pass, seq<Answer>) {
    if calls == [] then (Untouched(node), [])
    else
      var n := |calls| - 1;
      var (p, given) := Online(ctx, node, calls[..n], answerer);
      if Asks(ctx, node, p.granted, p.readOnly, calls[n]).None? then (SettlePlainly(ctx, node, p, n, calls[n]), given)
      else
        var a := answerer(given, RequestOf(ctx, node, p.granted, p.readOnly, n, calls[n]));
        (SettleAnswered(ctx, node, p, n, calls[n], a), given + [a])
  }

  /** Answers a run does not come to change nothing. */
  lemma {:induction false} UnusedAnswers(ctx: Context, node: Node, calls: seq<ModelCall>, answers: seq<Answer>, more: seq<Answer>)
    requires PassOver(ctx, node, calls, answers).parked.None?
    ensures PassOver(ctx, node, calls, answers + more) == PassOver(ctx, node, calls, answers)
  {
    hide Asks, SettlePlainly, SettleAnswered, RequestOf;
    if calls != [] {
      var n := |calls| - 1;
      UnusedAnswers(ctx, node, calls[..n], answers, more);
      PassBounds(ctx, node, calls[..n], answers);
    }
  }

  lemma SettlingKeeps(ctx: Context, node: Node, p: Pass, index: nat, call: ModelCall, a: Answer)
    ensures SettlePlainly(ctx, node, p, index, call).used == p.used && SettlePlainly(ctx, node, p, index, call).parked == p.parked
    ensures SettleAnswered(ctx, node, p, index, call, a).used == p.used + 1 && SettleAnswered(ctx, node, p, index, call, a).parked == None
    ensures p.resolutions <= SettlePlainly(ctx, node, p, index, call).resolutions
    ensures p.resolutions <= SettleAnswered(ctx, node, p, index, call, a).resolutions
  {
  }

  /** The run with `k` of the online pass's answers: it waits for just what the online pass asked next, and
      every call it decided it decided alike; with all of them it is the online pass. */
  ghost predicate Follows(ctx: Context, node: Node, calls: seq<ModelCall>, answerer: Answerer, k: nat)
    requires k <= |Online(ctx, node, calls, answerer).1|
  {
    var (final, given) := Online(ctx, node, calls, answerer);
    var p := PassOver(ctx, node, calls, given[..k]);
    if k == |given| then p == final && p.parked.None? && p.used == k
    else p.parked.Some? && given[k] == answerer(given[..k], p.parked.value) && p.resolutions <= final.resolutions
  }

  lemma {:induction false} ReplayFollows(ctx: Context, node: Node, calls: seq<ModelCall>, answerer: Answerer, k: nat)
    requires k <= |Online(ctx, node, calls, answerer).1|
    ensures Follows(ctx, node, calls, answerer, k)
  {
    hide Asks, SettlePlainly, SettleAnswered, RequestOf;
    var (final, given) := Online(ctx, node, calls, answerer);
    if calls != [] {
      var n := |calls| - 1;
      var (p, earlier) := Online(ctx, node, calls[..n], answerer);
      var interrupts := Asks(ctx, node, p.granted, p.readOnly, calls[n]).Some?;
      var a := answerer(earlier, RequestOf(ctx, node, p.granted, p.readOnly, n, calls[n]));
      assert given == if interrupts then earlier + [a] else earlier;
      SettlingKeeps(ctx, node, p, n, calls[n], a);
      if k < |earlier| {
        ReplayFollows(ctx, node, calls[..n], answerer, k);
        assert given[..k] == earlier[..k];
      } else {
        ReplayFollows(ctx, node, calls[..n], answerer, |earlier|);
        assert earlier[..|earlier|] == earlier;
        assert given[..|given|] == given;
        if k == |earlier| {
          assert given[..k] == earlier;
        } else {
          UnusedAnswers(ctx, node, calls[..n], earlier, [a]);
        }
      }
    }
  }

  /** The answers given after `k` resumes, each to what the run before it waited for. */
  function AnswersAfter(ctx: Context, node: Node, calls: seq<ModelCall>, answerer: Answerer, k: nat): seq<Answer> {
    if k == 0 then []
    else
      var answers := AnswersAfter(ctx, node, calls, answerer, k - 1);
      var p := PassOver(ctx, node, calls, answers);
      if p.parked.Some? then answers + [answerer(answers, p.parked.value)] else answers
  }

  function Least(a: nat, b: nat): nat {
    if a <= b then a else b
  }

  lemma {:induction false} AnswersFollow(ctx: Context, node: Node, calls: seq<ModelCall>, answerer: Answerer, k: nat)
    ensures var given := Online(ctx, node, calls, answerer).1;
            AnswersAfter(ctx, node, calls, answerer, k) == given[..Least(k, |given|)]
  {
    hide Online, PassOver;
    var given := Online(ctx, node, calls, answerer).1;
    if k > 0 {
      AnswersFollow(ctx, node, calls, answerer, k - 1);
      ReplayFollows(ctx, node, calls, answerer, Least(k - 1, |given|));
    }
  }

  /** Stopping at every ask and running again from the start asks what one online pass asks, in the same
      order and of the same calls, decides every call alike, and ends as it does. */
  lemma {:induction false} RerunIsOnline(ctx: Context, node: Node, calls: seq<ModelCall>, answerer: Answerer, k: nat)
    ensures var (final, given) := Online(ctx, node, calls, answerer);
            var p := PassOver(ctx, node, calls, AnswersAfter(ctx, node, calls, answerer, k));
            && AnswersAfter(ctx, node, calls, answerer, k) == given[..Least(k, |given|)]
            && p.resolutions <= final.resolutions
            && (p.parked.None? <==> k >= |given|)
            && (k >= |given| ==> p == final)
  {
    hide Online, PassOver, AnswersAfter;
    var given := Online(ctx, node, calls, answerer).1;
    AnswersFollow(ctx, node, calls, answerer, k);
    ReplayFollows(ctx, node, calls, answerer, Least(k, |given|));
  }

  // ---------------------------------------------------------------- grants and marks

  /** The tools whose approvals were answered with a verdict, in the order answered. */
  function AnsweredWith(resolutions: seq<Resolution>, verdict: Verdict): seq<string> {
    if resolutions == [] then []
    else
      var before, r := AnsweredWith(resolutions[..|resolutions| - 1], verdict), resolutions[|resolutions| - 1];
      if r.reply.Some? && r.reply.value.ToApproval? && r.reply.value.answer.verdict == verdict then before + [r.name] else before
  }

  ghost predicate GrantsAre(node: Node, p: Pass) {
    && p.granted == node.granted + AnsweredWith(p.resolutions, AllowInRoutine)
    && p.readOnly == node.readOnly + AnsweredWith(p.resolutions, MarkReadOnly)
  }

  /** A call decided as the gate decides it: alone, with a takeover that was answered, or as the user said. */
  predicate DecidedBy(ctx: Context, call: ModelCall, d: Decision, r: Resolution) {
    && r.name == call.name && r.rule == d.rule
    && (if TakesOver(ctx, call, d) then
          r.reply == Some(ToTakeover) && r.allowed && r.decidedBy == (if d.action == AskUser then Decider.User else Decider.Policy)
        else if d.action == AskUser then
          r.reply.Some? && r.reply.value.ToApproval? && r.allowed == (r.reply.value.answer.verdict != Denied) && r.decidedBy == Decider.User
        else
          r.reply.None? && r.allowed == (d.action == Allow) && r.decidedBy == Decider.Policy)
  }

  lemma AnsweredWithNext(resolutions: seq<Resolution>, r: Resolution, verdict: Verdict)
    ensures AnsweredWith(resolutions + [r], verdict)
         == if r.reply.Some? && r.reply.value.ToApproval? && r.reply.value.answer.verdict == verdict
            then AnsweredWith(resolutions, verdict) + [r.name] else AnsweredWith(resolutions, verdict)
  {
    assert (resolutions + [r])[..|resolutions|] == resolutions;
  }

  lemma PlainlyGrants(ctx: Context, node: Node, p: Pass, index: nat, call: ModelCall)
    requires p.parked.None? && GrantsAre(node, p) && Asks(ctx, node, p.granted, p.readOnly, call).None?
    ensures var after := SettlePlainly(ctx, node, p, index, call);
            && GrantsAre(node, after) && after.parked.None? && |after.resolutions| == |p.resolutions| + 1
            && after.resolutions == p.resolutions + [after.resolutions[|p.resolutions|]]
            && DecidedBy(ctx, call, Decide(ctx, node, p.granted, p.readOnly, call), after.resolutions[|p.resolutions|])
  {
    hide Decide, IdOf, AnsweredWith;
    var r := SettlePlainly(ctx, node, p, index, call).resolutions[|p.resolutions|];
    AnsweredWithNext(p.resolutions, r, AllowInRoutine);
    AnsweredWithNext(p.resolutions, r, MarkReadOnly);
  }

  lemma AnsweredGrants(ctx: Context, node: Node, p: Pass, index: nat, call: ModelCall, a: Answer)
    requires p.parked.None? && GrantsAre(node, p) && Asks(ctx, node, p.granted, p.readOnly, call).Some?
    ensures var after := SettleAnswered(ctx, node, p, index, call, a);
            && GrantsAre(node, after) && after.parked.None? && |after.resolutions| == |p.resolutions| + 1
            && after.resolutions == p.resolutions + [after.resolutions[|p.resolutions|]]
            && DecidedBy(ctx, call, Decide(ctx, node, p.granted, p.readOnly, call), after.resolutions[|p.resolutions|])
  {
    hide Decide, IdOf, AnsweredWith;
    var r := SettleAnswered(ctx, node, p, index, call, a).resolutions[|p.resolutions|];
    AnsweredWithNext(p.resolutions, r, AllowInRoutine);
    AnsweredWithNext(p.resolutions, r, MarkReadOnly);
    assert node.granted + (AnsweredWith(p.resolutions, AllowInRoutine) + [call.name])
        == node.granted + AnsweredWith(p.resolutions, AllowInRoutine) + [call.name];
    assert node.readOnly + (AnsweredWith(p.resolutions, MarkReadOnly) + [call.name])
        == node.readOnly + AnsweredWith(p.resolutions, MarkReadOnly) + [call.name];
  }

  /** A settled call is entered under what the answers before it granted. */
  lemma SettleGrants(ctx: Context, node: Node, p: Pass, index: nat, call: ModelCall, answers: seq<Answer>)
    requires p.parked.None? && GrantsAre(node, p)
    ensures GrantsAre(node, Settle(ctx, node, p, index, call, answers))
    ensures var after := Settle(ctx, node, p, index, call, answers);
            && (after.parked.Some? ==> after.resolutions == p.resolutions)
            && (after.parked.None? ==>
                  exists r :: after.resolutions == p.resolutions + [r]
                              && DecidedBy(ctx, call, Decide(ctx, node, p.granted, p.readOnly, call), r))
  {
    hide SettlePlainly, SettleAnswered, Asks, Decide, DecidedBy, AnsweredWith, RequestOf;
    if Asks(ctx, node, p.granted, p.readOnly, call).None? {
      PlainlyGrants(ctx, node, p, index, call);
    } else if p.used < |answers| {
      AnsweredGrants(ctx, node, p, index, call, answers[p.used]);
    }
  }

  /** What the gate decides of a call, under the grants and marks of the calls before it. */
  function DecisionUnder(ctx: Context, node: Node, earlier: seq<Resolution>, call: ModelCall): Decision {
    Decide(ctx, node, node.granted + AnsweredWith(earlier, AllowInRoutine),
           node.readOnly + AnsweredWith(earlier, MarkReadOnly), call)
  }

  ghost predicate DecidedUnderGrants(ctx: Context, node: Node, calls: seq<ModelCall>, resolutions: seq<Resolution>) {
    |resolutions| <= |calls|
    && forall j :: 0 <= j < |resolutions| ==>
         DecidedBy(ctx, calls[j], DecisionUnder(ctx, node, resolutions[..j], calls[j]), resolutions[j])
  }

  lemma DecidedNext(ctx: Context, node: Node, calls: seq<ModelCall>, earlier: seq<Resolution>, r: Resolution)
    requires calls != [] && |earlier| == |calls| - 1 && DecidedUnderGrants(ctx, node, calls[..|calls| - 1], earlier)
    requires DecidedBy(ctx, calls[|calls| - 1], DecisionUnder(ctx, node, earlier, calls[|calls| - 1]), r)
    ensures DecidedUnderGrants(ctx, node, calls, earlier + [r])
  {
    hide DecidedBy, DecisionUnder;
    var longer := earlier + [r];
    forall j | 0 <= j < |longer|
      ensures DecidedBy(ctx, calls[j], DecisionUnder(ctx, node, longer[..j], calls[j]), longer[j])
    {
      assert longer[..j] == earlier[..j];
      assert earlier[..|earlier|] == earlier;
    }
  }

  /** Every call is decided under the grants and marks of the node and of every answer before it in the
      message, whether it was given in this run or replayed. */
  lemma {:induction false} GrantsApplyToLaterCalls(ctx: Context, node: Node, calls: seq<ModelCall>, answers: seq<Answer>)
    ensures var p := PassOver(ctx, node, calls, answers);
            GrantsAre(node, p) && DecidedUnderGrants(ctx, node, calls, p.resolutions)
  {
    hide Settle, Decide, DecidedBy;
    if calls != [] {
      var n := |calls| - 1;
      var q := PassOver(ctx, node, calls[..n], answers);
      GrantsApplyToLaterCalls(ctx, node, calls[..n], answers);
      PassBounds(ctx, node, calls[..n], answers);
      if q.parked.None? {
        SettleGrants(ctx, node, q, n, calls[n], answers);
        var after := Settle(ctx, node, q, n, calls[n], answers);
        if after.parked.None? {
          var r :| after.resolutions == q.resolutions + [r]
                   && DecidedBy(ctx, calls[n], Decide(ctx, node, q.granted, q.readOnly, calls[n]), r);
          DecidedNext(ctx, node, calls, q.resolutions, r);
        }
      }
    }
  }

  // ---------------------------------------------------------------- when what is loaded changes

  /** The calls that were answered, by place, and what each was asked. */
  function Answered(resolutions: seq<Resolution>): seq<(nat, Question)> {
    if resolutions == [] then []
    else
      var n := |resolutions| - 1;
      var before := Answered(resolutions[..n]);
      if resolutions[n].reply.None? then before
      else before + [(n, if resolutions[n].reply.value.ToTakeover? then ForTakeover else ForApproval)]
  }

  /** What a call asks in a context, once the calls before it were decided in another. */
  function AsksAt(ctx: Context, decidedIn: Context, node: Node, calls: seq<ModelCall>, answers: seq<Answer>, j: nat): Option<Question>
    requires j < |calls|
  {
    var p := PassOver(decidedIn, node, calls[..j], answers);
    Asks(ctx, node, p.granted, p.readOnly, calls[j])
  }

  /** In what is loaded at the resume, the calls decided so far and the one that waits ask what they asked. */
  ghost predicate SameQuestions(before: Context, after: Context, node: Node, calls: seq<ModelCall>, answers: seq<Answer>, n: nat)
    requires n <= |calls|
  {
    forall j :: 0 <= j < n ==> AsksAt(after, before, node, calls, answers, j) == AsksAt(before, before, node, calls, answers, j)
  }

  /** Two passes that decided as many calls, with the same answers given to the same questions. */
  ghost predicate InStep(p: Pass, q: Pass) {
    && p.parked.None? && q.parked.None? && p.granted == q.granted && p.readOnly == q.readOnly && p.used == q.used
    && |p.resolutions| == |q.resolutions| && Answered(p.resolutions) == Answered(q.resolutions)
  }

  lemma AnsweredNext(resolutions: seq<Resolution>, r: Resolution)
    ensures Answered(resolutions + [r])
         == Answered(resolutions)
            + (if r.reply.None? then [] else [(|resolutions|, if r.reply.value.ToTakeover? then ForTakeover else ForApproval)])
  {
    assert (resolutions + [r])[..|resolutions|] == resolutions;
  }

  lemma SettleInStep(before: Context, after: Context, node: Node, p: Pass, q: Pass, index: nat, call: ModelCall,
                     answers: seq<Answer>, a: Answer)
    requires InStep(p, q) && p.used <= |answers| && |p.resolutions| == index
    requires Asks(before, node, p.granted, p.readOnly, call) == Asks(after, node, p.granted, p.readOnly, call)
    requires Settle(before, node, p, index, call, answers).parked.None?
    ensures InStep(Settle(before, node, p, index, call, answers), Settle(after, node, q, index, call, answers + [a]))
  {
    hide Decide, Answered, IdOf;
    var r := Settle(before, node, p, index, call, answers).resolutions[index];
    var r' := Settle(after, node, q, index, call, answers + [a]).resolutions[index];
    AnsweredNext(p.resolutions, r);
    AnsweredNext(q.resolutions, r');
  }

  /** While the questions are the same, the rerun stays in step with the run that parked. */
  lemma {:induction false} RunsInStep(before: Context, after: Context, node: Node, calls: seq<ModelCall>, answers: seq<Answer>, a: Answer)
    requires PassOver(before, node, calls, answers).parked.None?
    requires SameQuestions(before, after, node, calls, answers, |calls|)
    ensures InStep(PassOver(before, node, calls, answers), PassOver(after, node, calls, answers + [a]))
  {
    hide Settle, Asks, InStep;
    if calls == [] {
      StartInStep(node);
    } else {
      var n := |calls| - 1;
      assert SameQuestions(before, after, node, calls[..n], answers, n) by {
        forall j | 0 <= j < n
          ensures AsksAt(after, before, node, calls[..n], answers, j) == AsksAt(before, before, node, calls[..n], answers, j)
        {
          assert calls[..n][..j] == calls[..j];
          assert AsksAt(after, before, node, calls, answers, j) == AsksAt(before, before, node, calls, answers, j);
        }
      }
      RunsInStep(before, after, node, calls[..n], answers, a);
      PassBounds(before, node, calls[..n], answers);
      var p, q := PassOver(before, node, calls[..n], answers), PassOver(after, node, calls[..n], answers + [a]);
      assert AsksAt(after, before, node, calls, answers, n) == AsksAt(before, before, node, calls, answers, n);
      StepsOn(p, q);
      SettleInStep(before, after, node, p, q, n, calls[n], answers, a);
    }
  }

  lemma StartInStep(node: Node)
    ensures InStep(Untouched(node), Untouched(node))
  {
  }

  lemma StepsOn(p: Pass, q: Pass)
    requires InStep(p, q)
    ensures q.parked.None? && p.granted == q.granted && p.readOnly == q.readOnly && p.used == q.used
  {
  }

  function KindOf(r: Resolution): Option<Question> {
    if r.reply.None? then None else if r.reply.value.ToTakeover? then Some(ForTakeover) else Some(ForApproval)
  }

  lemma {:induction false} AnsweredMembers(resolutions: seq<Resolution>, j: nat, question: Question)
    ensures (j, question) in Answered(resolutions) <==> j < |resolutions| && KindOf(resolutions[j]) == Some(question)
  {
    if resolutions != [] {
      var n := |resolutions| - 1;
      AnsweredMembers(resolutions[..n], j, question);
    }
  }

  /** A run decides the calls of a longer message as it decides those of its beginning. */
  lemma {:induction false} PassPrefix(ctx: Context, node: Node, calls: seq<ModelCall>, i: nat, answers: seq<Answer>)
    requires i <= |calls|
    ensures PassOver(ctx, node, calls[..i], answers).resolutions <= PassOver(ctx, node, calls, answers).resolutions
  {
    hide Asks, SettlePlainly, SettleAnswered, RequestOf;
    if i == |calls| {
      assert calls[..i] == calls;
    } else {
      var n := |calls| - 1;
      assert calls[..n][..i] == calls[..i];
      PassPrefix(ctx, node, calls[..n], i, answers);
      var p := PassOver(ctx, node, calls[..n], answers);
      SettlingKeeps(ctx, node, p, n, calls[n], if p.used < |answers| then answers[p.used] else Answer(Denied, None));
    }
  }

  lemma SettleKind(ctx: Context, node: Node, p: Pass, index: nat, call: ModelCall, answers: seq<Answer>)
    requires p.parked.None? && (p.used < |answers| || Asks(ctx, node, p.granted, p.readOnly, call).None?)
    ensures var after := Settle(ctx, node, p, index, call, answers);
            && after.parked.None? && |after.resolutions| == |p.resolutions| + 1
            && KindOf(after.resolutions[|p.resolutions|]) == Asks(ctx, node, p.granted, p.readOnly, call)
  {
    hide Decide;
  }

  /** A call that gets an answer, or needs none, is entered with what it asked. */
  lemma KindAt(ctx: Context, node: Node, calls: seq<ModelCall>, answers: seq<Answer>, j: nat)
    requires j < |calls|
    requires var p := PassOver(ctx, node, calls[..j], answers);
             p.parked.None? && (p.used < |answers| || Asks(ctx, node, p.granted, p.readOnly, calls[j]).None?)
    ensures var all := PassOver(ctx, node, calls, answers).resolutions;
            j < |all| && KindOf(all[j]) == AsksAt(ctx, ctx, node, calls, answers, j)
  {
    hide Settle, Asks, KindOf;
    var first := calls[..j + 1];
    assert first[..j] == calls[..j];
    PassBounds(ctx, node, calls[..j], answers);
    SettleKind(ctx, node, PassOver(ctx, node, calls[..j], answers), j, calls[j], answers);
    PassPrefix(ctx, node, calls, j + 1, answers);
  }

  /** A run that waits had settled every call before the one it waits at, and used every answer. */
  lemma {:induction false} ParkedAt(ctx: Context, node: Node, calls: seq<ModelCall>, answers: seq<Answer>) returns (i: nat)
    requires PassOver(ctx, node, calls, answers).parked.Some?
    ensures i == |PassOver(ctx, node, calls, answers).resolutions| && i < |calls|
    ensures var p := PassOver(ctx, node, calls[..i], answers);
            && p.parked.None? && p.used == |answers| && p.resolutions == PassOver(ctx, node, calls, answers).resolutions
            && Asks(ctx, node, p.granted, p.readOnly, calls[i]).Some?
  {
    hide Asks, RequestOf;
    var n := |calls| - 1;
    var p := PassOver(ctx, node, calls[..n], answers);
    PassBounds(ctx, node, calls[..n], answers);
    if p.parked.Some? {
      i := ParkedAt(ctx, node, calls[..n], answers);
      assert calls[..n][..i] == calls[..i];
    } else {
      SettleParks(ctx, node, p, n, calls[n], answers);
      i := n;
    }
  }

  lemma SettleNoAnswer(ctx: Context, node: Node, p: Pass, index: nat, call: ModelCall, answers: seq<Answer>)
    requires p.used == |answers|
    ensures var after := Settle(ctx, node, p, index, call, answers);
            after.used == p.used && Answered(after.resolutions) == Answered(p.resolutions)
  {
    hide Decide;
  }

  /** Once its answers are used, a run answers no further call. */
  lemma {:induction false} NoFurther(ctx: Context, node: Node, calls: seq<ModelCall>, i: nat, answers: seq<Answer>)
    requires i <= |calls| && PassOver(ctx, node, calls[..i], answers).used == |answers|
    ensures PassOver(ctx, node, calls, answers).used == |answers|
    ensures Answered(PassOver(ctx, node, calls, answers).resolutions) == Answered(PassOver(ctx, node, calls[..i], answers).resolutions)
  {
    hide Settle, Answered;
    if i == |calls| {
      assert calls[..i] == calls;
    } else {
      var n := |calls| - 1;
      assert calls[..n][..i] == calls[..i];
      NoFurther(ctx, node, calls[..n], i, answers);
      SettleNoAnswer(ctx, node, PassOver(ctx, node, calls[..n], answers), n, calls[n], answers);
    }
  }

  lemma QuestionsBefore(before: Context, after: Context, node: Node, calls: seq<ModelCall>, answers: seq<Answer>, i: nat)
    requires i <= |calls| && SameQuestions(before, after, node, calls, answers, i)
    ensures SameQuestions(before, after, node, calls[..i], answers, i)
  {
    hide Asks, PassOver;
    forall j | 0 <= j < i
      ensures AsksAt(after, before, node, calls[..i], answers, j) == AsksAt(before, before, node, calls[..i], answers, j)
    {
      assert calls[..i][..j] == calls[..j];
      assert AsksAt(after, before, node, calls, answers, j) == AsksAt(before, before, node, calls, answers, j);
    }
  }

  /** Up to where the run parked, a rerun that is asked the same so far is in step with it. */
  lemma InStepBefore(before: Context, after: Context, node: Node, calls: seq<ModelCall>, answers: seq<Answer>, a: Answer, j: nat)
    requires PassOver(before, node, calls, answers).parked.Some? && j <= |PassOver(before, node, calls, answers).resolutions|
    requires j <= |calls| && SameQuestions(before, after, node, calls, answers, j)
    ensures InStep(PassOver(before, node, calls[..j], answers), PassOver(after, node, calls[..j], answers + [a]))
    ensures PassOver(before, node, calls[..j], answers).used <= |answers|
  {
    hide InStep, Settle, Asks;
    var i := ParkedAt(before, node, calls, answers);
    PassBounds(before, node, calls[..j], answers);
    if PassOver(before, node, calls[..j], answers).parked.Some? {
      assert calls[..i][..j] == calls[..j];
      StaysParked(before, node, calls[..i], j, answers);
      assert false;
    }
    QuestionsBefore(before, after, node, calls, answers, j);
    RunsInStep(before, after, node, calls[..j], answers, a);
  }

  /** Asked the same throughout, the rerun gives the new answer to the call that waited for it. */
  lemma SameQuestionsKeep(before: Context, after: Context, node: Node, calls: seq<ModelCall>, answers: seq<Answer>, a: Answer, i: nat)
    requires PassOver(before, node, calls, answers).parked.Some? && i == |PassOver(before, node, calls, answers).resolutions| < |calls|
    requires SameQuestions(before, after, node, calls, answers, i + 1)
    ensures AsksAt(before, before, node, calls, answers, i).Some?
    ensures Answered(PassOver(after, node, calls, answers + [a]).resolutions)
         == Answered(PassOver(before, node, calls, answers).resolutions) + [(i, AsksAt(before, before, node, calls, answers, i).value)]
  {
    hide Asks, Settle;
    var at := ParkedAt(before, node, calls, answers);
    InStepBefore(before, after, node, calls, answers, a, i);
    assert AsksAt(after, before, node, calls, answers, i) == AsksAt(before, before, node, calls, answers, i);
    var q := PassOver(after, node, calls[..i], answers + [a]);
    var first := calls[..i + 1];
    assert first[..i] == calls[..i];
    PassBounds(before, node, calls[..i], answers);
    SettleAnswers(after, node, q, i, calls[i], answers + [a]);
    NoFurther(after, node, calls, i + 1, answers + [a]);
  }

  lemma SettleAnswers(ctx: Context, node: Node, p: Pass, index: nat, call: ModelCall, answers: seq<Answer>)
    requires p.parked.None? && p.used < |answers| && |p.resolutions| == index
    requires Asks(ctx, node, p.granted, p.readOnly, call).Some?
    ensures var after := Settle(ctx, node, p, index, call, answers);
            && after.used == p.used + 1
            && Answered(after.resolutions) == Answered(p.resolutions) + [(index, Asks(ctx, node, p.granted, p.readOnly, call).value)]
  {
    hide Decide;
  }

  /** At the first question that differs, the rerun answers a call the run did not, or misses one it did. */
  lemma DifferentQuestionsMove(before: Context, after: Context, node: Node, calls: seq<ModelCall>, answers: seq<Answer>, a: Answer, i: nat, j: nat)
    requires PassOver(before, node, calls, answers).parked.Some? && i == |PassOver(before, node, calls, answers).resolutions| < |calls|
    requires j <= i && SameQuestions(before, after, node, calls, answers, j)
    requires AsksAt(after, before, node, calls, answers, j) != AsksAt(before, before, node, calls, answers, j)
    requires AsksAt(before, before, node, calls, answers, i).Some?
    ensures Answered(PassOver(after, node, calls, answers + [a]).resolutions)
         != Answered(PassOver(before, node, calls, answers).resolutions) + [(i, AsksAt(before, before, node, calls, answers, i).value)]
  {
    hide Asks, Settle;
    InStepBefore(before, after, node, calls, answers, a, j);
    KindAt(after, node, calls, answers + [a], j);
    var p, q := PassOver(before, node, calls, answers).resolutions, PassOver(after, node, calls, answers + [a]).resolutions;
    var was, now := AsksAt(before, before, node, calls, answers, j), AsksAt(after, before, node, calls, answers, j);
    if j < i {
      KindBefore(before, node, calls, answers, j);
    }
    if was.Some? {
      AnsweredMembers(p, j, was.value);
      AnsweredMembers(q, j, was.value);
    } else {
      AnsweredMembers(p, j, now.value);
      AnsweredMembers(q, j, now.value);
    }
  }

  lemma KindBefore(ctx: Context, node: Node, calls: seq<ModelCall>, answers: seq<Answer>, j: nat)
    requires j < |PassOver(ctx, node, calls, answers).resolutions| && j < |calls|
    ensures KindOf(PassOver(ctx, node, calls, answers).resolutions[j]) == AsksAt(ctx, ctx, node, calls, answers, j)
  {
    hide Settle, Asks, KindOf;
    var p := PassOver(ctx, node, calls[..j], answers);
    PassBounds(ctx, node, calls[..j], answers);
    if p.parked.Some? {
      StaysParked(ctx, node, calls, j, answers);
      assert false;
    }
    if p.used == |answers| && Asks(ctx, node, p.granted, p.readOnly, calls[j]).Some? {
      var first := calls[..j + 1];
      assert first[..j] == calls[..j];
      SettleWaits(ctx, node, p, j, calls[j], answers);
      StaysParked(ctx, node, calls, j + 1, answers);
      assert false;
    }
    KindAt(ctx, node, calls, answers, j);
  }

  lemma SettleWaits(ctx: Context, node: Node, p: Pass, index: nat, call: ModelCall, answers: seq<Answer>)
    requires p.used == |answers| && Asks(ctx, node, p.granted, p.readOnly, call).Some?
    ensures var after := Settle(ctx, node, p, index, call, answers); after.parked.Some? && after.resolutions == p.resolutions
  {
  }

  /** Permissions, mode and tools are loaded anew at a resume. The stored answers go, in order, to whatever
      asks then: each stays with the call it was given for, and the new one goes to the call that waits,
      exactly when every call up to that one is asked what it was asked. */
  lemma {:induction false} AnswersStayWithTheirCalls(before: Context, after: Context, node: Node, calls: seq<ModelCall>, answers: seq<Answer>, a: Answer)
    requires PassOver(before, node, calls, answers).parked.Some?
    ensures var p, q := PassOver(before, node, calls, answers), PassOver(after, node, calls, answers + [a]);
            var i := |p.resolutions|;
            && i < |calls| && AsksAt(before, before, node, calls, answers, i).Some?
            && (Answered(q.resolutions) == Answered(p.resolutions) + [(i, AsksAt(before, before, node, calls, answers, i).value)]
                <==> SameQuestions(before, after, node, calls, answers, i + 1))
  {
    hide Asks, PassOver, Answered;
    var i := ParkedAt(before, node, calls, answers);
    if SameQuestions(before, after, node, calls, answers, i + 1) {
      SameQuestionsKeep(before, after, node, calls, answers, a, i);
    } else {
      var j := FirstDifference(before, after, node, calls, answers, i + 1);
      DifferentQuestionsMove(before, after, node, calls, answers, a, i, j);
    }
  }

  lemma {:induction false} FirstDifference(before: Context, after: Context, node: Node, calls: seq<ModelCall>, answers: seq<Answer>, n: nat)
    returns (j: nat)
    requires n <= |calls| && !SameQuestions(before, after, node, calls, answers, n)
    ensures j < n && SameQuestions(before, after, node, calls, answers, j)
    ensures AsksAt(after, before, node, calls, answers, j) != AsksAt(before, before, node, calls, answers, j)
  {
    hide AsksAt;
    if n > 0 && !SameQuestions(before, after, node, calls, answers, n - 1) {
      j := FirstDifference(before, after, node, calls, answers, n - 1);
    } else {
      j := n - 1;
    }
  }

  const WRITES := Tool(true, false, false, false, false, false)

  lemma OverrideDecides(ctx: Context, node: Node, granted: seq<string>, readOnly: seq<string>, call: ModelCall)
    requires ToolOf(ctx, call.name) == Some(WRITES) && call.arguments == NO_ARGUMENTS && call.name in ctx.policy.tools
    ensures Decide(ctx, node, granted, readOnly, call) == Decision(ctx.policy.tools[call.name], ToolOverride(call.name))
    ensures Asks(ctx, node, granted, readOnly, call) == if ctx.policy.tools[call.name] == AskUser then Some(ForApproval) else None
  {
  }

  lemma PassOfTwo(ctx: Context, node: Node, a: ModelCall, b: ModelCall, answers: seq<Answer>)
    ensures var p := Settle(ctx, node, Untouched(node), 0, a, answers);
            PassOver(ctx, node, [a, b], answers) == if p.parked.Some? then p else Settle(ctx, node, p, 1, b, answers)
  {
    hide Settle;
    assert [a, b][..1] == [a] && [a][..0] == [];
    assert PassOver(ctx, node, [a], answers) == Settle(ctx, node, Untouched(node), 0, a, answers);
  }

  const NO_ARGUMENTS := Arguments(None, None, None, None)

  function Named(name: string): ModelCall {
    ModelCall(name, name, NO_ARGUMENTS)
  }

  function Overriding(first: Action): Context {
    Context(World((p, c) => false, c => false, (n, x) => false),
            Gate.Policy.Policy(map["first" := first, "second" := AskUser], [], []), Ask,
            map["first" := WRITES, "second" := WRITES])
  }

  const TWO_CALLS := [Named("first"), Named("second")]
  const NEW_NODE := Node(0, [], [], {})
  const YES := Answer(Approved, None)

  lemma MovedPass()
    ensures PassOver(Overriding(AskUser), NEW_NODE, TWO_CALLS, []).parked.Some?
    ensures PassOver(Overriding(Allow), NEW_NODE, TWO_CALLS, [YES])
         == Pass([Resolution(Given("first"), "first", true, ToolOverride("first"), Decider.Policy, None),
                  Resolution(Given("second"), "second", true, ToolOverride("second"), Decider.User, Some(ToApproval(YES)))], [], [], 1, None)
  {
    hide Decide, Asks, RequestOf;
    assert |"first"| != |"second"| && "first" != "" && "second" != "";
    OverrideDecides(Overriding(AskUser), NEW_NODE, [], [], TWO_CALLS[0]);
    PassOfTwo(Overriding(AskUser), NEW_NODE, TWO_CALLS[0], TWO_CALLS[1], []);
    OverrideDecides(Overriding(Allow), NEW_NODE, [], [], TWO_CALLS[0]);
    OverrideDecides(Overriding(Allow), NEW_NODE, [], [], TWO_CALLS[1]);
    PassOfTwo(Overriding(Allow), NEW_NODE, TWO_CALLS[0], TWO_CALLS[1], [YES]);
  }

  /** Two calls of writing tools for which the answer does move: the policy asked about the first when the run
      parked and allows it when the run resumes, so the second call runs on the answer given for the first. */
  lemma {:induction false} AnAnswerMoves(outputs: Outputs)
    ensures PassOver(Overriding(AskUser), NEW_NODE, TWO_CALLS, []).parked.Some?
    ensures Answered(PassOver(Overriding(Allow), NEW_NODE, TWO_CALLS, [YES]).resolutions) == [(1, ForApproval)]
    ensures var rs, answer := PassOver(Overriding(Allow), NEW_NODE, TWO_CALLS, [YES]).resolutions, outputs(Given("second"));
            |rs| == 2 && ResultOf(rs[1], Overriding(Allow).tools.Keys, outputs) == Resulted(Given("second"), "second", Ran(answer.0, answer.1))
  {
    hide PassOver;
    MovedPass();
    var rs := PassOver(Overriding(Allow), NEW_NODE, TWO_CALLS, [YES]).resolutions;
    assert |rs| == 2 && |rs[..1]| == 1 && rs[..1][..0] == [];
    assert Answered(rs[..1]) == [];
    assert [] + [(1, ForApproval)] == [(1, ForApproval)];
  }
}
