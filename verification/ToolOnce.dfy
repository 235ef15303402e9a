/** What the tool node stores for a turn, over any number of messages, parks, resumes and restarts of the
    process: each message's calls once, and once all are decided each call's gate and result, in call order. */
module ToolOnce {
  import opened Events
  import opened Gate
  import opened ToolNode

  /** One run of the node: whether the process restarted before it, what it loaded and the answers it had. */
  datatype Visit = Visit(restarted: bool, ctx: Context, answers: seq<Answer>)

  /** A restart forgets what the process remembered; a resume takes it from the log if need be. */
  function Resumed(s: Store, v: Visit): Store {
    Restored(if v.restarted then s.(emitted := {}) else s)
  }

  /** The first visit comes to the message, and each later one resumes it. */
  function Visited(s: Store, node: Node, calls: seq<ModelCall>, visits: seq<Visit>, outputs: Outputs): Store {
    if visits == [] then s
    else
      var n := |visits| - 1;
      var before := Visited(s, node, calls, visits[..n], outputs);
      NodeRun(if n == 0 then before else Resumed(before, visits[n]), visits[n].ctx, node, calls, visits[n].answers, outputs)
  }

  predicate Parks(node: Node, calls: seq<ModelCall>, v: Visit) {
    PassOver(v.ctx, node, calls, v.answers).parked.Some?
  }

  function CallsOf(node: Node, calls: seq<ModelCall>): seq<Entry> {
    if calls == [] then []
    else CallsOf(node, calls[..|calls| - 1]) + [Called(IdOf(node, |calls| - 1, calls[|calls| - 1]))]
  }

  /** Each call's gate and result, in call order. */
  function Endings(resolutions: seq<Resolution>, tools: set<string>, outputs: Outputs): seq<Entry> {
    if resolutions == [] then []
    else
      var r := resolutions[|resolutions| - 1];
      Endings(resolutions[..|resolutions| - 1], tools, outputs) + [GateOf(r), ResultOf(r, tools, outputs)]
  }

  // ---------------------------------------------------------------- a message's calls

  predicate DistinctCalls(node: Node, calls: seq<ModelCall>) {
    forall i, j :: 0 <= i < j < |calls| ==> IdOf(node, i, calls[i]) != IdOf(node, j, calls[j])
  }

  /** A message's calls have ids of their own, which no stored call of the turn has. */
  ghost predicate FreshCalls(s: Store, node: Node, calls: seq<ModelCall>) {
    DistinctCalls(node, calls) && forall i :: 0 <= i < |calls| ==> IdOf(node, i, calls[i]) !in CallsIn(s.log)
  }

  /** The process remembers no call that is not stored. */
  ghost predicate Remembers(s: Store) {
    s.emitted <= CallsIn(s.log)
  }

  /** The first `m` calls are stored and remembered, and no other. */
  ghost predicate StoredUpTo(first: Store, s: Store, node: Node, calls: seq<ModelCall>, m: nat)
    requires m <= |calls|
  {
    && s.log == first.log + CallsOf(node, calls[..m])
    && forall i :: 0 <= i < |calls| ==> (IdOf(node, i, calls[i]) in s.emitted <==> i < m)
  }

  lemma {:induction false} CallsOfMembers(node: Node, calls: seq<ModelCall>, e: Entry)
    ensures e in CallsOf(node, calls) <==> exists i :: 0 <= i < |calls| && e == Called(IdOf(node, i, calls[i]))
  {
    if calls != [] {
      var n := |calls| - 1;
      CallsOfMembers(node, calls[..n], e);
      if e in CallsOf(node, calls[..n]) {
        var i :| 0 <= i < n && e == Called(IdOf(node, i, calls[..n][i]));
        assert e == Called(IdOf(node, i, calls[i]));
      }
      if i :| 0 <= i < |calls| && e == Called(IdOf(node, i, calls[i])) {
        if i < n {
          assert e == Called(IdOf(node, i, calls[..n][i]));
        }
      }
    }
  }

  /** Where the first `m` calls are stored, one of them is not stored again, and the next is. */
  lemma EmitNext(first: Store, s: Store, node: Node, calls: seq<ModelCall>, m: nat, r: nat)
    requires r < |calls| && r <= m <= |calls| && FreshCalls(first, node, calls) && StoredUpTo(first, s, node, calls, m)
    ensures StoredUpTo(first, EmitOnce(s, IdOf(node, r, calls[r])), node, calls, if r < m then m else m + 1)
  {
    hide IdOf, CallsIn;
    if r == m {
      assert calls[..m + 1][..m] == calls[..m];
    }
  }

  /** Storing the first `r` calls where the first `m` are stored stores those between. */
  lemma {:induction false} EmitsOnce(first: Store, s: Store, node: Node, calls: seq<ModelCall>, m: nat, r: nat)
    requires m <= |calls| && r <= |calls| && FreshCalls(first, node, calls) && StoredUpTo(first, s, node, calls, m)
    ensures StoredUpTo(first, EmitCalls(s, node, calls[..r]), node, calls, if m <= r then r else m)
  {
    hide StoredUpTo, FreshCalls, EmitOnce, IdOf;
    if r == 0 {
    } else {
      EmitsOnce(first, s, node, calls, m, r - 1);
      var shorter := calls[..r - 1];
      assert calls[..r][..r - 1] == shorter;
      EmitNext(first, EmitCalls(s, node, shorter), node, calls, if m <= r - 1 then r - 1 else m, r - 1);
    }
  }

  /** After a restart the calls stored are remembered again. */
  lemma ResumesStored(first: Store, s: Store, node: Node, calls: seq<ModelCall>, m: nat, v: Visit)
    requires 0 < m <= |calls| && FreshCalls(first, node, calls) && StoredUpTo(first, s, node, calls, m)
    ensures StoredUpTo(first, Resumed(s, v), node, calls, m)
  {
    if v.restarted {
      forall i | 0 <= i < |calls| ensures IdOf(node, i, calls[i]) in CallsIn(s.log) <==> i < m {
        var e := Called(IdOf(node, i, calls[i]));
        CallsOfMembers(node, calls[..m], e);
        if i < m {
          assert e == Called(IdOf(node, i, calls[..m][i]));
          assert e in s.log;
        }
      }
    } else {
      assert IdOf(node, 0, calls[0]) in s.emitted;
    }
  }

  lemma {:induction false} FinishStores(s: Store, resolutions: seq<Resolution>, tools: set<string>, outputs: Outputs)
    ensures Finish(s, resolutions, tools, outputs).log == s.log + Endings(resolutions, tools, outputs)
    ensures forall id :: id in Finish(s, resolutions, tools, outputs).emitted
                     <==> id in s.emitted && forall i :: 0 <= i < |resolutions| ==> resolutions[i].call != id
  {
    if resolutions != [] {
      var n := |resolutions| - 1;
      FinishStores(s, resolutions[..n], tools, outputs);
    }
  }

  /** A run's resolutions are of the calls in order. */
  lemma {:induction false} ResolvesInOrder(ctx: Context, node: Node, calls: seq<ModelCall>, answers: seq<Answer>)
    ensures var p := PassOver(ctx, node, calls, answers);
            && |p.resolutions| <= |calls|
            && forall i :: 0 <= i < |p.resolutions| ==> p.resolutions[i].call == IdOf(node, i, calls[i]) && p.resolutions[i].name == calls[i].name
  {
    hide Decide;
    if calls != [] {
      ResolvesInOrder(ctx, node, calls[..|calls| - 1], answers);
      PassBounds(ctx, node, calls[..|calls| - 1], answers);
    }
  }

  // ---------------------------------------------------------------- any number of visits

  lemma {:induction false} ParksStore(first: Store, node: Node, calls: seq<ModelCall>, visits: seq<Visit>, outputs: Outputs)
    returns (m: nat)
    requires FreshCalls(first, node, calls) && Remembers(first) && visits != [] && forall v :: v in visits ==> Parks(node, calls, v)
    ensures 0 < m <= |calls| && StoredUpTo(first, Visited(first, node, calls, visits, outputs), node, calls, m)
  {
    hide StoredUpTo, FreshCalls, Remembers, PassOver, EmitCalls;
    var n := |visits| - 1;
    var v := visits[n];
    assert Parks(node, calls, v);
    var before := Visited(first, node, calls, visits[..n], outputs);
    var from: nat, start := 0, before;
    if n == 0 {
      NothingStored(first, node, calls);
    } else {
      from := ParksStore(first, node, calls, visits[..n], outputs);
      ResumesStored(first, before, node, calls, from, v);
      start := Resumed(before, v);
    }
    var r := Reached(PassOver(v.ctx, node, calls, v.answers));
    ReachedWithin(v.ctx, node, calls, v.answers);
    EmitsOnce(first, start, node, calls, from, r);
    m := if from <= r then r else from;
  }

  lemma NothingStored(first: Store, node: Node, calls: seq<ModelCall>)
    requires FreshCalls(first, node, calls) && Remembers(first)
    ensures StoredUpTo(first, first, node, calls, 0)
  {
  }

  /** While a message parks, however often and whatever it loads, a beginning of its calls is stored, each once. */
  lemma WaitingStores(first: Store, node: Node, calls: seq<ModelCall>, visits: seq<Visit>, outputs: Outputs)
    requires FreshCalls(first, node, calls) && Remembers(first) && forall v :: v in visits ==> Parks(node, calls, v)
    ensures exists m :: 0 <= m <= |calls| && Visited(first, node, calls, visits, outputs).log == first.log + CallsOf(node, calls[..m])
  {
    if visits == [] {
      NothingStored(first, node, calls);
    } else {
      var m := ParksStore(first, node, calls, visits, outputs);
    }
  }

  /** A run that decides every call, from wherever the runs before it left the store. */
  lemma LastRunStores(first: Store, start: Store, node: Node, calls: seq<ModelCall>, from: nat, last: Visit, outputs: Outputs)
    requires from <= |calls| && FreshCalls(first, node, calls) && StoredUpTo(first, start, node, calls, from)
    requires !Parks(node, calls, last)
    ensures var s := NodeRun(start, last.ctx, node, calls, last.answers, outputs);
            var p := PassOver(last.ctx, node, calls, last.answers);
            && |p.resolutions| == |calls|
            && (forall i :: 0 <= i < |calls| ==> p.resolutions[i].call == IdOf(node, i, calls[i]))
            && s.log == first.log + CallsOf(node, calls) + Endings(p.resolutions, last.ctx.tools.Keys, outputs)
            && (forall i :: 0 <= i < |calls| ==> IdOf(node, i, calls[i]) !in s.emitted)
  {
    hide PassOver, EmitCalls, Finish, CallsOf, Endings, FreshCalls, IdOf;
    var p := PassOver(last.ctx, node, calls, last.answers);
    PassBounds(last.ctx, node, calls, last.answers);
    ResolvesInOrder(last.ctx, node, calls, last.answers);
    EmitsOnce(first, start, node, calls, from, |calls|);
    assert calls[..|calls|] == calls;
    FinishStores(EmitCalls(start, node, calls), p.resolutions, last.ctx.tools.Keys, outputs);
  }

  /** Once a run decides every call, each is stored once, then each call's gate and its result, in call order;
      and none of the message's calls is remembered. */
  lemma AnsweredStores(first: Store, node: Node, calls: seq<ModelCall>, visits: seq<Visit>, last: Visit, outputs: Outputs)
    requires FreshCalls(first, node, calls) && Remembers(first)
    requires (forall v :: v in visits ==> Parks(node, calls, v)) && !Parks(node, calls, last)
    ensures var s := Visited(first, node, calls, visits + [last], outputs);
            var p := PassOver(last.ctx, node, calls, last.answers);
            && |p.resolutions| == |calls|
            && (forall i :: 0 <= i < |calls| ==> p.resolutions[i].call == IdOf(node, i, calls[i]))
            && s.log == first.log + CallsOf(node, calls) + Endings(p.resolutions, last.ctx.tools.Keys, outputs)
            && (forall i :: 0 <= i < |calls| ==> IdOf(node, i, calls[i]) !in s.emitted)
  {
    hide PassOver, NodeRun, CallsOf, Endings, StoredUpTo, FreshCalls, Remembers, Resumed, IdOf;
    var n := |visits|;
    assert (visits + [last])[..n] == visits;
    var before := Visited(first, node, calls, visits, outputs);
    if n == 0 {
      NothingStored(first, node, calls);
      LastRunStores(first, first, node, calls, 0, last, outputs);
    } else {
      var from := ParksStore(first, node, calls, visits, outputs);
      ResumesStored(first, before, node, calls, from, last);
      LastRunStores(first, Resumed(before, last), node, calls, from, last, outputs);
    }
  }

  // ---------------------------------------------------------------- what the process remembers

  lemma {:induction false} EmitRemembers(s: Store, node: Node, calls: seq<ModelCall>)
    requires Remembers(s)
    ensures Remembers(EmitCalls(s, node, calls))
  {
    if calls != [] {
      var n := |calls| - 1;
      EmitRemembers(s, node, calls[..n]);
      var before, id := EmitCalls(s, node, calls[..n]), IdOf(node, n, calls[n]);
      assert Called(id) in before.log + [Called(id)];
    }
  }

  lemma {:induction false} FinishRemembers(s: Store, resolutions: seq<Resolution>, tools: set<string>, outputs: Outputs)
    requires Remembers(s)
    ensures Remembers(Finish(s, resolutions, tools, outputs))
  {
    if resolutions != [] {
      FinishRemembers(s, resolutions[..|resolutions| - 1], tools, outputs);
    }
  }

  /** However a message is visited, nothing is remembered that is not stored. */
  lemma {:induction false} VisitsRemember(s: Store, node: Node, calls: seq<ModelCall>, visits: seq<Visit>, outputs: Outputs)
    requires Remembers(s)
    ensures Remembers(Visited(s, node, calls, visits, outputs))
  {
    hide PassOver, EmitCalls, Finish;
    if visits != [] {
      var n := |visits| - 1;
      var v := visits[n];
      VisitsRemember(s, node, calls, visits[..n], outputs);
      var before := Visited(s, node, calls, visits[..n], outputs);
      var start := if n == 0 then before else Resumed(before, v);
      var p := PassOver(v.ctx, node, calls, v.answers);
      EmitRemembers(start, node, FirstCalls(calls, Reached(p)));
      FinishRemembers(EmitCalls(start, node, FirstCalls(calls, Reached(p))), p.resolutions, v.ctx.tools.Keys, outputs);
    }
  }

  // ---------------------------------------------------------------- the messages of a turn

  /** A message of the model: its calls, the visits at which it waited, and the one at which it did not. */
  datatype Message = Message(node: Node, calls: seq<ModelCall>, visits: seq<Visit>, last: Visit)

  ghost predicate Waits(m: Message) {
    forall v :: v in m.visits ==> Parks(m.node, m.calls, v)
  }

  ghost predicate Answered(m: Message) {
    Waits(m) && !Parks(m.node, m.calls, m.last)
  }

  /** What a turn has stored, and what the process remembers of it, after its messages. */
  function TurnStore(messages: seq<Message>, outputs: Outputs): Store {
    if messages == [] then Store([], {})
    else
      var m := messages[|messages| - 1];
      Visited(TurnStore(messages[..|messages| - 1], outputs), m.node, m.calls, m.visits + [m.last], outputs)
  }

  function ResolutionsOf(m: Message): seq<Resolution> {
    PassOver(m.last.ctx, m.node, m.calls, m.last.answers).resolutions
  }

  /** A message's calls, each once, then each call's gate and result. */
  function EntriesOf(m: Message, outputs: Outputs): seq<Entry> {
    CallsOf(m.node, m.calls) + Endings(ResolutionsOf(m), m.last.ctx.tools.Keys, outputs)
  }

  /** Each of a message's calls is resolved, in order. */
  predicate ResolvesEach(m: Message) {
    |ResolutionsOf(m)| == |m.calls| && forall i :: 0 <= i < |m.calls| ==> ResolutionsOf(m)[i].call == IdOf(m.node, i, m.calls[i])
  }

  function TurnEntries(messages: seq<Message>, outputs: Outputs): seq<Entry> {
    if messages == [] then []
    else TurnEntries(messages[..|messages| - 1], outputs) + EntriesOf(messages[|messages| - 1], outputs)
  }

  predicate HasCall(m: Message, id: CallId) {
    exists i :: 0 <= i < |m.calls| && IdOf(m.node, i, m.calls[i]) == id
  }

  /** No call of a message has an id that another of its calls has, or a call of an earlier message. */
  ghost predicate UniqueIds(messages: seq<Message>) {
    && (forall m :: m in messages ==> DistinctCalls(m.node, m.calls))
    && (forall a, b, id :: 0 <= a < b < |messages| && HasCall(messages[a], id) ==> !HasCall(messages[b], id))
  }

  lemma {:induction false} EndingsCallNothing(resolutions: seq<Resolution>, tools: set<string>, outputs: Outputs)
    ensures CallsIn(Endings(resolutions, tools, outputs)) == {}
  {
    if resolutions != [] {
      EndingsCallNothing(resolutions[..|resolutions| - 1], tools, outputs);
    }
  }

  lemma CallsInMessage(m: Message, outputs: Outputs, id: CallId)
    ensures id in CallsIn(EntriesOf(m, outputs)) <==> HasCall(m, id)
  {
    hide ResolutionsOf, Endings, CallsOf, IdOf;
    var resolutions := ResolutionsOf(m);
    EndingsCallNothing(resolutions, m.last.ctx.tools.Keys, outputs);
    assert Called(id) in Endings(resolutions, m.last.ctx.tools.Keys, outputs)
      ==> id in CallsIn(Endings(resolutions, m.last.ctx.tools.Keys, outputs));
    CallsOfMembers(m.node, m.calls, Called(id));
  }

  /** The calls stored are the calls of the messages. */
  lemma {:induction false} CallsInTurn(messages: seq<Message>, outputs: Outputs, id: CallId)
    ensures id in CallsIn(TurnEntries(messages, outputs)) <==> exists a :: 0 <= a < |messages| && HasCall(messages[a], id)
  {
    hide EntriesOf, HasCall;
    if messages != [] {
      var n := |messages| - 1;
      CallsInTurn(messages[..n], outputs, id);
      CallsInMessage(messages[n], outputs, id);
      var before, own := TurnEntries(messages[..n], outputs), EntriesOf(messages[n], outputs);
      assert Called(id) in before + own <==> Called(id) in before || Called(id) in own;
      if a :| 0 <= a < n && HasCall(messages[..n][a], id) {
        assert HasCall(messages[a], id);
      }
      if a :| 0 <= a < |messages| && HasCall(messages[a], id) {
        assert a < n ==> messages[..n][a] == messages[a];
      }
    }
  }

  /** A message's calls are fresh after the messages before it. */
  lemma NextIsFresh(messages: seq<Message>, m: Message, s: Store, outputs: Outputs)
    requires UniqueIds(messages + [m]) && s.log == TurnEntries(messages, outputs)
    ensures FreshCalls(s, m.node, m.calls)
  {
    hide TurnEntries, IdOf, CallsIn;
    var n, all := |messages|, messages + [m];
    assert m in all;
    forall i | 0 <= i < |m.calls| ensures IdOf(m.node, i, m.calls[i]) !in CallsIn(s.log) {
      var id := IdOf(m.node, i, m.calls[i]);
      CallsInTurn(messages, outputs, id);
      assert HasCall(all[n], id);
      forall a | 0 <= a < n ensures !HasCall(messages[a], id) {
        assert all[a] == messages[a];
      }
    }
  }

  lemma FirstMessages(messages: seq<Message>, m: Message)
    requires UniqueIds(messages + [m])
    ensures UniqueIds(messages)
  {
    hide HasCall, DistinctCalls;
    var all := messages + [m];
    assert forall a :: 0 <= a < |messages| ==> all[a] == messages[a];
  }

  /** What one more message stores. */
  lemma MessageStores(messages: seq<Message>, m: Message, outputs: Outputs)
    requires UniqueIds(messages + [m]) && Answered(m)
    requires TurnStore(messages, outputs).log == TurnEntries(messages, outputs) && Remembers(TurnStore(messages, outputs))
    ensures TurnStore(messages + [m], outputs).log == TurnEntries(messages, outputs) + EntriesOf(m, outputs)
    ensures Remembers(TurnStore(messages + [m], outputs)) && ResolvesEach(m)
  {
    hide UniqueIds, FreshCalls, Remembers, Visited, PassOver, CallsOf, Endings, TurnEntries;
    var s := TurnStore(messages, outputs);
    assert (messages + [m])[..|messages|] == messages;
    NextIsFresh(messages, m, s, outputs);
    AnsweredStores(s, m.node, m.calls, m.visits, m.last, outputs);
    VisitsRemember(s, m.node, m.calls, m.visits + [m.last], outputs);
  }

  /** Over any number of messages, parks, resumes and restarts of a turn, each model tool call is stored once:
      the turn's log is, message by message, its calls in order, then each call's gate and its result. */
  lemma {:induction false} StoresEachOnce(messages: seq<Message>, outputs: Outputs)
    requires UniqueIds(messages) && forall m :: m in messages ==> Answered(m)
    ensures TurnStore(messages, outputs).log == TurnEntries(messages, outputs)
    ensures Remembers(TurnStore(messages, outputs)) && forall m :: m in messages ==> ResolvesEach(m)
  {
    hide UniqueIds, Answered, EntriesOf, ResolvesEach;
    if messages != [] {
      hide TurnStore, Remembers;
      var n := |messages| - 1;
      assert messages == messages[..n] + [messages[n]];
      FirstMessages(messages[..n], messages[n]);
      StoresEachOnce(messages[..n], outputs);
      MessageStores(messages[..n], messages[n], outputs);
    }
  }

  /** While a message of a turn parks, however often and whatever it loads, a beginning of its calls is stored
      after what the messages before it stored: no gate and no result, so no tool of it has run before every
      ask was answered. */
  lemma {:induction false} ParkedStoresCalls(messages: seq<Message>, m: Message, outputs: Outputs)
    requires UniqueIds(messages + [m]) && (forall before :: before in messages ==> Answered(before)) && Waits(m)
    ensures exists n :: 0 <= n <= |m.calls| && Visited(TurnStore(messages, outputs), m.node, m.calls, m.visits, outputs).log
                                            == TurnEntries(messages, outputs) + CallsOf(m.node, m.calls[..n])
  {
    hide UniqueIds, Answered, Visited, TurnStore, TurnEntries, CallsOf, FreshCalls, Remembers;
    FirstMessages(messages, m);
    StoresEachOnce(messages, outputs);
    NextIsFresh(messages, m, TurnStore(messages, outputs), outputs);
    WaitingStores(TurnStore(messages, outputs), m.node, m.calls, m.visits, outputs);
  }
}
