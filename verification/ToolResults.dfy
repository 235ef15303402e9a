/** What the model is told of its tool calls: each gate entry says what was decided of its call, and the entry
    after it is that call's result, which is the tool's own output only when the gate let the call through. */
module ToolResults {
  import opened Events
  import opened Gate
  import opened ToolNode
  import opened ToolOnce

  /** A gate entry and its call's result: a denial says by whom, by what rule and why, a call let through gives
      its tool's own output, or that no such tool is there. */
  ghost predicate Answers(gate: Entry, result: Entry, tools: set<string>, outputs: Outputs) {
    && gate.Gated? && result.Resulted? && result.call == gate.call && result.name == gate.name
    && (result.output.WasDenied? <==> !gate.allowed)
    && (result.output.Ran? <==> gate.allowed && gate.name in tools)
    && match result.output
       case WasDenied(name, decidedBy, rule, reason) =>
         name == gate.name && decidedBy == gate.decidedBy && rule == gate.rule && reason == gate.reason
       case Ran(text, error) => (text, error) == outputs(gate.call)
       case NotAvailable(name) => name == gate.name
  }

  /** Every gate is followed by its call's result, and a result stands nowhere else. */
  ghost predicate Paired(entries: seq<Entry>, tools: set<string>, outputs: Outputs) {
    && (forall k :: 0 <= k < |entries| && entries[k].Gated? ==> k + 1 < |entries| && Answers(entries[k], entries[k + 1], tools, outputs))
    && (forall k :: 0 <= k < |entries| && entries[k].Resulted? ==> k > 0 && entries[k - 1].Gated?)
  }

  lemma PairedConcat(a: seq<Entry>, b: seq<Entry>, tools: set<string>, outputs: Outputs)
    requires Paired(a, tools, outputs) && Paired(b, tools, outputs)
    ensures Paired(a + b, tools, outputs)
  {
    hide Answers;
    var both := a + b;
    forall k | 0 <= k < |both| && both[k].Gated? ensures k + 1 < |both| && Answers(both[k], both[k + 1], tools, outputs) {
      if k < |a| {
        assert a[k].Gated?;
      } else {
        assert b[k - |a|].Gated?;
      }
    }
    forall k | 0 <= k < |both| && both[k].Resulted? ensures k > 0 && both[k - 1].Gated? {
      if k < |a| {
        assert a[k].Resulted?;
      } else {
        assert b[k - |a|].Resulted?;
      }
    }
  }

  lemma ResolutionPaired(r: Resolution, tools: set<string>, outputs: Outputs)
    ensures Paired([GateOf(r), ResultOf(r, tools, outputs)], tools, outputs)
  {
  }

  lemma {:induction false} EndingsPaired(resolutions: seq<Resolution>, tools: set<string>, outputs: Outputs)
    ensures Paired(Endings(resolutions, tools, outputs), tools, outputs)
  {
    hide Paired, GateOf, ResultOf;
    if resolutions == [] {
      NothingPaired(tools, outputs);
    } else {
      var n := |resolutions| - 1;
      EndingsPaired(resolutions[..n], tools, outputs);
      ResolutionPaired(resolutions[n], tools, outputs);
      PairedConcat(Endings(resolutions[..n], tools, outputs), [GateOf(resolutions[n]), ResultOf(resolutions[n], tools, outputs)],
                   tools, outputs);
    }
  }

  lemma NothingPaired(tools: set<string>, outputs: Outputs)
    ensures Paired([], tools, outputs)
  {
  }

  lemma CallsPaired(entries: seq<Entry>, tools: set<string>, outputs: Outputs)
    requires forall e :: e in entries ==> e.Called?
    ensures Paired(entries, tools, outputs)
  {
    forall k | 0 <= k < |entries| ensures entries[k].Called? {
      assert entries[k] in entries;
    }
  }

  lemma {:induction false} EmitsOnlyCalls(s: Store, node: Node, calls: seq<ModelCall>)
    ensures s.log <= EmitCalls(s, node, calls).log
    ensures forall e :: e in EmitCalls(s, node, calls).log[|s.log|..] ==> e.Called?
  {
    if calls != [] {
      EmitsOnlyCalls(s, node, calls[..|calls| - 1]);
    }
  }

  /** Whatever a run of the node stores, a result follows each gate: a denied call's says that it was denied,
      and a tool's own output stands only where the gate let its call through. */
  lemma {:induction false} ResultsFollowGates(s: Store, ctx: Context, node: Node, calls: seq<ModelCall>, answers: seq<Answer>, outputs: Outputs)
    ensures var after := NodeRun(s, ctx, node, calls, answers, outputs);
            s.log <= after.log && Paired(after.log[|s.log|..], ctx.tools.Keys, outputs)
  {
    hide PassOver, EmitCalls, Finish, Endings, Paired, CallsIn;
    var p := PassOver(ctx, node, calls, answers);
    var called := EmitCalls(s, node, FirstCalls(calls, Reached(p)));
    EmitsOnlyCalls(s, node, FirstCalls(calls, Reached(p)));
    CallsPaired(called.log[|s.log|..], ctx.tools.Keys, outputs);
    if p.parked.None? {
      FinishStores(called, p.resolutions, ctx.tools.Keys, outputs);
      EndingsPaired(p.resolutions, ctx.tools.Keys, outputs);
      PairedConcat(called.log[|s.log|..], Endings(p.resolutions, ctx.tools.Keys, outputs), ctx.tools.Keys, outputs);
      var after := NodeRun(s, ctx, node, calls, answers, outputs);
      assert after.log[|s.log|..] == called.log[|s.log|..] + Endings(p.resolutions, ctx.tools.Keys, outputs);
    }
  }

  // ---------------------------------------------------------------- what the gates say

  lemma {:induction false} EndingsAt(resolutions: seq<Resolution>, tools: set<string>, outputs: Outputs, i: nat)
    requires i < |resolutions|
    ensures |Endings(resolutions, tools, outputs)| == 2 * |resolutions|
    ensures Endings(resolutions, tools, outputs)[2 * i] == GateOf(resolutions[i])
  {
    hide GateOf, ResultOf;
    var n := |resolutions| - 1;
    if i < n {
      EndingsAt(resolutions[..n], tools, outputs, i);
    } else if n > 0 {
      EndingsAt(resolutions[..n], tools, outputs, 0);
    }
  }

  /** Once a run decides every call, the gate entry of each, in call order, has the call's own id, or one of its
      place where the model gave none, its name, and what was decided of it, by what rule, by whom, and with the
      reason an approval was answered with. */
  lemma {:induction false} GatesTellDecisions(s: Store, ctx: Context, node: Node, calls: seq<ModelCall>, answers: seq<Answer>,
                                             outputs: Outputs, i: nat)
    requires PassOver(ctx, node, calls, answers).parked.None? && i < |calls|
    ensures var log, resolutions := NodeRun(s, ctx, node, calls, answers, outputs).log, PassOver(ctx, node, calls, answers).resolutions;
            && |resolutions| == |calls| && |log| >= 2 * |calls|
            && var r, call := resolutions[i], calls[i];
               log[|log| - 2 * (|calls| - i)]
               == Gated(if call.id == "" then Derived(node.message, i) else Given(call.id), call.name, r.allowed, r.rule, r.decidedBy,
                        if r.reply.Some? && r.reply.value.ToApproval? then r.reply.value.answer.reason else None)
  {
    hide PassOver, EmitCalls, Finish, Endings;
    var p := PassOver(ctx, node, calls, answers);
    PassBounds(ctx, node, calls, answers);
    ResolvesInOrder(ctx, node, calls, answers);
    var called := EmitCalls(s, node, FirstCalls(calls, Reached(p)));
    FinishStores(called, p.resolutions, ctx.tools.Keys, outputs);
    EndingsAt(p.resolutions, ctx.tools.Keys, outputs, i);
  }

  // ---------------------------------------------------------------- what the node waits for

  lemma SettleParked(ctx: Context, node: Node, p: Pass, index: nat, call: ModelCall, answers: seq<Answer>)
    requires p.parked.None? && Settle(ctx, node, p, index, call, answers).parked.Some?
    ensures Settle(ctx, node, p, index, call, answers)
         == p.(parked := Some(RequestOf(ctx, node, p.granted, p.readOnly, index, call)))
    ensures Asks(ctx, node, p.granted, p.readOnly, call).Some?
  {
  }

  /** A run that waits has decided the calls before the one it waits at. It asks about that call: to take over
      the browser, with the reason the call gives, when it is the takeover tool's and the gate does not deny it;
      or else to approve it, under the rule by which the gate says to ask. */
  lemma {:induction false} WaitsForItsCall(ctx: Context, node: Node, calls: seq<ModelCall>, answers: seq<Answer>)
    requires PassOver(ctx, node, calls, answers).parked.Some?
    ensures var p := PassOver(ctx, node, calls, answers);
            var n := |p.resolutions|;
            && n < |calls|
            && var call := calls[n];
               var tool := if call.name in ctx.tools then Some(ctx.tools[call.name]) else None;
               var d := Evaluate(ctx.world, ctx.policy, ctx.mode, call.name, call.arguments, tool,
                                 call.name in p.granted, call.name in p.readOnly, node.seenUrls);
               var id := if call.id == "" then Derived(node.message, n) else Given(call.id);
               if tool.Some? && call.name == "browser_takeover" && d.action != Deny && call.arguments.reason.Some?
               then p.parked == Some(Takeover(id, call.arguments.reason.value))
               else d.action == AskUser && p.parked == Some(Approval(id, call.name, d.rule))
  {
    hide Settle, Evaluate;
    var n := |calls| - 1;
    var q := PassOver(ctx, node, calls[..n], answers);
    if q.parked.Some? {
      WaitsForItsCall(ctx, node, calls[..n], answers);
    } else {
      PassBounds(ctx, node, calls[..n], answers);
      SettleParked(ctx, node, q, n, calls[n], answers);
    }
  }

  // ---------------------------------------------------------------- the turn

  /** Every gate of a turn's log is followed by its call's result, with the tools of the run that decided the
      call's message, and a result stands nowhere else. */
  ghost predicate TurnPaired(log: seq<Entry>, messages: seq<Message>, outputs: Outputs) {
    && (forall k :: 0 <= k < |log| && log[k].Gated? ==> k + 1 < |log| && AnsweredIn(log[k], log[k + 1], messages, outputs))
    && (forall k :: 0 <= k < |log| && log[k].Resulted? ==> k > 0 && log[k - 1].Gated?)
  }

  ghost predicate AnsweredIn(gate: Entry, result: Entry, messages: seq<Message>, outputs: Outputs) {
    exists m :: m in messages && gate.Gated? && HasCall(m, gate.call) && Answers(gate, result, m.last.ctx.tools.Keys, outputs)
  }

  lemma {:induction false} EndingsAreOf(m: Message, resolutions: seq<Resolution>, tools: set<string>, outputs: Outputs)
    requires forall r :: r in resolutions ==> HasCall(m, r.call)
    ensures forall e :: e in Endings(resolutions, tools, outputs) ==> e.Gated? || e.Resulted?
    ensures forall e :: e in Endings(resolutions, tools, outputs) && e.Gated? ==> HasCall(m, e.call)
  {
    hide HasCall;
    if resolutions != [] {
      EndingsAreOf(m, resolutions[..|resolutions| - 1], tools, outputs);
    }
  }

  lemma MessagePaired(m: Message, outputs: Outputs)
    requires ResolvesEach(m)
    ensures Paired(EntriesOf(m, outputs), m.last.ctx.tools.Keys, outputs)
    ensures forall e :: e in EntriesOf(m, outputs) && e.Gated? ==> HasCall(m, e.call)
  {
    hide Paired, Endings, CallsOf, ResolutionsOf;
    var tools, resolutions := m.last.ctx.tools.Keys, ResolutionsOf(m);
    forall e | e in CallsOf(m.node, m.calls) ensures e.Called? {
      CallsOfMembers(m.node, m.calls, e);
    }
    CallsPaired(CallsOf(m.node, m.calls), tools, outputs);
    EndingsPaired(resolutions, tools, outputs);
    PairedConcat(CallsOf(m.node, m.calls), Endings(resolutions, tools, outputs), tools, outputs);
    EndingsAreOf(m, resolutions, tools, outputs);
  }

  lemma {:induction false} EntriesPaired(messages: seq<Message>, outputs: Outputs)
    requires forall m :: m in messages ==> ResolvesEach(m)
    ensures TurnPaired(TurnEntries(messages, outputs), messages, outputs)
  {
    hide EntriesOf, ResolvesEach, Answers, HasCall;
    if messages != [] {
      var n := |messages| - 1;
      var m := messages[n];
      var before, own := TurnEntries(messages[..n], outputs), EntriesOf(m, outputs);
      EntriesPaired(messages[..n], outputs);
      MessagePaired(m, outputs);
      var log := before + own;
      forall k | 0 <= k < |log| && log[k].Gated? ensures k + 1 < |log| && AnsweredIn(log[k], log[k + 1], messages, outputs) {
        if k < |before| {
          assert AnsweredIn(before[k], before[k + 1], messages[..n], outputs);
        } else {
          assert own[k - |before|] in own && m in messages;
        }
      }
      forall k | 0 <= k < |log| && log[k].Resulted? ensures k > 0 && log[k - 1].Gated? {
        assert if k < |before| then before[k].Resulted? else own[k - |before|].Resulted?;
      }
    }
  }

  /** Over any number of messages, parks, resumes and restarts of a turn, each gate its log holds is followed by
      its call's result: the tool's own output if and only if the gate let the call through to a tool that is
      there, and a denial with the gate's own decider, rule and reason if and only if it did not. */
  lemma {:induction false} TurnResultsFollowGates(messages: seq<Message>, outputs: Outputs)
    requires UniqueIds(messages) && forall m :: m in messages ==> Answered(m)
    ensures TurnPaired(TurnStore(messages, outputs).log, messages, outputs)
  {
    hide UniqueIds, Answered, TurnPaired;
    StoresEachOnce(messages, outputs);
    EntriesPaired(messages, outputs);
  }
}
