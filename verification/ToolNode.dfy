/** The tool node: every call of a model message is decided, in order, before any of them runs. A call that
    asks the user stops the node, and the node runs again from its start with the answers given so far. */
module ToolNode {
  import opened Events
  import opened Gate

  /** The model's own id of a call, or one derived from its place when the model gave none. */
  datatype CallId = Given(id: string) | Derived(message: nat, index: nat)

  datatype ModelCall = ModelCall(id: string, name: string, arguments: Arguments)

  datatype Verdict = Approved | AllowInRoutine | MarkReadOnly | Denied

  datatype Answer = Answer(verdict: Verdict, reason: Option<string>)

  /** What the node asks the user, with an id that comes out the same each time the node runs. */
  datatype Request = Takeover(call: CallId, reason: string) | Approval(call: CallId, name: string, rule: Rule)

  /** What is loaded anew each time the node runs. */
  datatype Context = Context(world: World, policy: Policy, mode: Mode, tools: map<string, Tool>)

  /** What the checkpoint holds when the node starts, the same each time it runs. */
  datatype Node = Node(message: nat, granted: seq<string>, readOnly: seq<string>, seenUrls: set<string>)

  datatype Reply = ToTakeover | ToApproval(answer: Answer)

  datatype Resolution = Resolution(
    call: CallId, name: string, allowed: bool, rule: Rule, decidedBy: Decider, reply: Option<Reply>)

  /** How far one run of the node came: the calls decided, what the answers granted, how many of them it
      used, and what it waits for. */
  datatype Pass = Pass(
    resolutions: seq<Resolution>, granted: seq<string>, readOnly: seq<string>, used: nat, parked: Option<Request>)

  const BROWSER_TAKEOVER := "browser_takeover"

  function IdOf(node: Node, index: nat, call: ModelCall): CallId {
    if call.id != "" then Given(call.id) else Derived(node.message, index)
  }

  function ToolOf(ctx: Context, name: string): Option<Tool> {
    if name in ctx.tools then Some(ctx.tools[name]) else None
  }

  function Decide(ctx: Context, node: Node, granted: seq<string>, readOnly: seq<string>, call: ModelCall): Decision {
    Evaluate(ctx.world, ctx.policy, ctx.mode, call.name, call.arguments, ToolOf(ctx, call.name),
             call.name in granted, call.name in readOnly, node.seenUrls)
  }

  /** The takeover tool asks the user itself, unless the gate denies it. */
  predicate TakesOver(ctx: Context, call: ModelCall, d: Decision) {
    ToolOf(ctx, call.name).Some? && call.name == BROWSER_TAKEOVER && d.action != Deny && call.arguments.reason.Some?
  }

  datatype Question = ForTakeover | ForApproval

  /** What a call makes the node ask, if anything. */
  function Asks(ctx: Context, node: Node, granted: seq<string>, readOnly: seq<string>, call: ModelCall): Option<Question> {
    var d := Decide(ctx, node, granted, readOnly, call);
    if TakesOver(ctx, call, d) then Some(ForTakeover) else if d.action == AskUser then Some(ForApproval) else None
  }

  function RequestOf(ctx: Context, node: Node, granted: seq<string>, readOnly: seq<string>, index: nat, call: ModelCall): Request {
    var d := Decide(ctx, node, granted, readOnly, call);
    if TakesOver(ctx, call, d) then Takeover(IdOf(node, index, call), call.arguments.reason.value)
    else Approval(IdOf(node, index, call), call.name, d.rule)
  }

  /** Decide a call that no one has to be asked about. */
  function SettlePlainly(ctx: Context, node: Node, p: Pass, index: nat, call: ModelCall): Pass {
    var d := Decide(ctx, node, p.granted, p.readOnly, call);
    p.(resolutions := p.resolutions + [Resolution(IdOf(node, index, call), call.name, d.action == Allow, d.rule, Decider.Policy, None)])
  }

  /** Decide a call with the user's answer. A takeover answered is allowed whatever the answer says. */
  function SettleAnswered(ctx: Context, node: Node, p: Pass, index: nat, call: ModelCall, a: Answer): Pass {
    var d := Decide(ctx, node, p.granted, p.readOnly, call);
    var id := IdOf(node, index, call);
    if TakesOver(ctx, call, d) then
      Pass(p.resolutions + [Resolution(id, call.name, true, d.rule, if d.action == AskUser then Decider.User else Decider.Policy, Some(ToTakeover))],
           p.granted, p.readOnly, p.used + 1, None)
    else
      Pass(p.resolutions + [Resolution(id, call.name, a.verdict != Denied, d.rule, User, Some(ToApproval(a)))],
           if a.verdict == AllowInRoutine then p.granted + [call.name] else p.granted,
           if a.verdict == MarkReadOnly then p.readOnly + [call.name] else p.readOnly,
           p.used + 1, None)
  }

  /** Decide the next call: alone, with the next answer, or not at all until one is given. */
  function Settle(ctx: Context, node: Node, p: Pass, index: nat, call: ModelCall, answers: seq<Answer>): Pass {
    if Asks(ctx, node, p.granted, p.readOnly, call).None? then SettlePlainly(ctx, node, p, index, call)
    else if p.used < |answers| then SettleAnswered(ctx, node, p, index, call, answers[p.used])
    else p.(parked := Some(RequestOf(ctx, node, p.granted, p.readOnly, index, call)))
  }

  function Untouched(node: Node): Pass {
    Pass([], node.granted, node.readOnly, 0, None)
  }

  /** One run of the node over the calls, from its start. */
  function PassOver(ctx: Context, node: Node, calls: seq<ModelCall>, answers: seq<Answer>): Pass {
    if calls == [] then Untouched(node)
    else
      var n := |calls| - 1;
      var p := PassOver(ctx, node, calls[..n], answers);
      if p.parked.Some? then p else Settle(ctx, node, p, n, calls[n], answers)
  }

  lemma {:induction false} PassBounds(ctx: Context, node: Node, calls: seq<ModelCall>, answers: seq<Answer>)
    ensures var p := PassOver(ctx, node, calls, answers);
            && p.used <= |answers| && (p.parked.Some? ==> p.used == |answers| && |p.resolutions| < |calls|)
            && (p.parked.None? ==> |p.resolutions| == |calls|)
  {
    if calls != [] {
      PassBounds(ctx, node, calls[..|calls| - 1], answers);
    }
  }

  // ---------------------------------------------------------------- what the node stores

  /** What the model reads of a call: what its tool gave, that no such tool is there, or by whom it was denied. */
  datatype Output =
    | Ran(text: string, error: bool)
    | NotAvailable(name: string)
    | WasDenied(name: string, decidedBy: Decider, rule: Rule, reason: Option<string>)

  datatype Entry =
    | Called(call: CallId)
    | Gated(call: CallId, name: string, allowed: bool, rule: Rule, decidedBy: Decider, reason: Option<string>)
    | Resulted(call: CallId, name: string, output: Output)

  /** A turn's stored entries, and the calls the process remembers having stored. */
  datatype Store = Store(log: seq<Entry>, emitted: set<CallId>)

  function EmitOnce(s: Store, id: CallId): Store {
    if id in s.emitted then s else Store(s.log + [Called(id)], s.emitted + {id})
  }

  function EmitCalls(s: Store, node: Node, calls: seq<ModelCall>): Store {
    if calls == [] then s
    else EmitOnce(EmitCalls(s, node, calls[..|calls| - 1]), IdOf(node, |calls| - 1, calls[|calls| - 1]))
  }

  /** The tools' own outputs, by call. */
  type Outputs = CallId -> (string, bool)

  /** The reason the user gave with an approval's answer. */
  function ReasonOf(r: Resolution): Option<string> {
    if r.reply.Some? && r.reply.value.ToApproval? then r.reply.value.answer.reason else None
  }

  function GateOf(r: Resolution): Entry {
    Gated(r.call, r.name, r.allowed, r.rule, r.decidedBy, ReasonOf(r))
  }

  function ResultOf(r: Resolution, tools: set<string>, outputs: Outputs): Entry {
    Resulted(r.call, r.name,
             if !r.allowed then WasDenied(r.name, r.decidedBy, r.rule, ReasonOf(r))
             else if r.name !in tools then NotAvailable(r.name)
             else Ran(outputs(r.call).0, outputs(r.call).1))
  }

  /** Store each call's gate, then its result, and forget the call. */
  function Finish(s: Store, resolutions: seq<Resolution>, tools: set<string>, outputs: Outputs): Store {
    if resolutions == [] then s
    else
      var before, r := Finish(s, resolutions[..|resolutions| - 1], tools, outputs), resolutions[|resolutions| - 1];
      Store(before.log + [GateOf(r), ResultOf(r, tools, outputs)], before.emitted - {r.call})
  }

  function Reached(p: Pass): nat {
    |p.resolutions| + (if p.parked.Some? then 1 else 0)
  }

  lemma ReachedWithin(ctx: Context, node: Node, calls: seq<ModelCall>, answers: seq<Answer>)
    ensures Reached(PassOver(ctx, node, calls, answers)) <= |calls|
  {
    PassBounds(ctx, node, calls, answers);
  }

  function FirstCalls(calls: seq<ModelCall>, n: nat): seq<ModelCall> {
    if n <= |calls| then calls[..n] else calls
  }

  /** What one run of the node stores. */
  function NodeRun(s: Store, ctx: Context, node: Node, calls: seq<ModelCall>, answers: seq<Answer>, outputs: Outputs): Store {
    var p := PassOver(ctx, node, calls, answers);
    var called := EmitCalls(s, node, FirstCalls(calls, Reached(p)));
    if p.parked.Some? then called else Finish(called, p.resolutions, ctx.tools.Keys, outputs)
  }

  /** The calls a log holds. */
  function CallsIn(log: seq<Entry>): set<CallId> {
    set e | e in log && e.Called? :: e.call
  }

  /** On a resume, a process that remembers none of the turn's calls takes them from its log. */
  function Restored(s: Store): Store {
    if s.emitted == {} then s.(emitted := CallsIn(s.log)) else s
  }

  /** The part of the runner that decides and runs a message's calls, for one turn. */
  class ToolRunner {
    var log: seq<Entry>
    var emitted: set<CallId>

    constructor (log: seq<Entry>)
      ensures Value() == Store(log, {})
    {
      this.log, emitted := log, {};
    }

    function Value(): Store
      reads this
    {
      Store(log, emitted)
    }

    method EmitToolCallOnce(id: CallId)
      modifies this
      ensures Value() == EmitOnce(old(Value()), id)
    {
      if id in emitted {
        return;
      }
      log := log + [Called(id)];
      emitted := emitted + {id};
    }

    method RestoreEmittedToolCalls()
      modifies this`emitted
      ensures Value() == Restored(old(Value()))
    {
      if emitted != {} {
        return;
      }
      emitted := CallsIn(log);
    }

    /** Decide every call, stopping at the first that waits for an answer; only then run them, in order. */
    method CallTools(ctx: Context, node: Node, calls: seq<ModelCall>, answers: seq<Answer>, outputs: Outputs) returns (pass: Pass)
      modifies this
      ensures pass == PassOver(ctx, node, calls, answers)
      ensures Value() == NodeRun(old(Value()), ctx, node, calls, answers, outputs)
    {
      hide Settle;
      pass := Untouched(node);
      var i := 0;
      while i < |calls|
        invariant 0 <= i <= |calls|
        invariant pass == PassOver(ctx, node, calls[..i], answers) && pass.parked.None?
        invariant Value() == EmitCalls(old(Value()), node, calls[..i])
      {
        assert calls[..i + 1][..i] == calls[..i];
        var call := calls[i];
        EmitToolCallOnce(IdOf(node, i, call));
        var next := Settle(ctx, node, pass, i, call, answers);
        i := i + 1;
        if next.parked.Some? {
          SettleParks(ctx, node, pass, i - 1, call, answers);
          StaysParked(ctx, node, calls, i, answers);
          PassBounds(ctx, node, calls[..i - 1], answers);
          pass := next;
          assert FirstCalls(calls, Reached(pass)) == calls[..i];
          return;
        }
        pass := next;
      }
      assert calls[..|calls|] == calls;
      PassBounds(ctx, node, calls, answers);
      assert FirstCalls(calls, Reached(pass)) == calls;
      RunCalls(pass.resolutions, ctx.tools.Keys, outputs);
    }

    method RunCalls(resolutions: seq<Resolution>, tools: set<string>, outputs: Outputs)
      modifies this
      ensures Value() == Finish(old(Value()), resolutions, tools, outputs)
    {
      var i := 0;
      while i < |resolutions|
        invariant 0 <= i <= |resolutions|
        invariant Value() == Finish(old(Value()), resolutions[..i], tools, outputs)
      {
        assert resolutions[..i + 1][..i] == resolutions[..i];
        var r := resolutions[i];
        log := log + [GateOf(r)];
        var output: Output;
        if !r.allowed {
          output := WasDenied(r.name, r.decidedBy, r.rule, ReasonOf(r));
        } else if r.name !in tools {
          output := NotAvailable(r.name);
        } else {
          output := Ran(outputs(r.call).0, outputs(r.call).1);
        }
        log := log + [Resulted(r.call, r.name, output)];
        emitted := emitted - {r.call};
        i := i + 1;
      }
      assert resolutions[..|resolutions|] == resolutions;
    }
  }

  lemma SettleParks(ctx: Context, node: Node, p: Pass, index: nat, call: ModelCall, answers: seq<Answer>)
    requires p.parked.None? && Settle(ctx, node, p, index, call, answers).parked.Some?
    ensures Settle(ctx, node, p, index, call, answers).resolutions == p.resolutions
  {
  }

  /** A run that waits at a call goes no further. */
  lemma {:induction false} StaysParked(ctx: Context, node: Node, calls: seq<ModelCall>, i: nat, answers: seq<Answer>)
    requires i <= |calls| && PassOver(ctx, node, calls[..i], answers).parked.Some?
    ensures PassOver(ctx, node, calls, answers) == PassOver(ctx, node, calls[..i], answers)
  {
    hide Settle;
    if i < |calls| {
      var n := |calls| - 1;
      assert calls[..n][..i] == calls[..i];
      StaysParked(ctx, node, calls[..n], i, answers);
    } else {
      assert calls[..i] == calls;
    }
  }
}
