/** Over every interleaving of appends, sends, losses, reconnects and late frames, a client delivers exactly
    the events past what it asked for, in order and without gap or repeat. */
module DeliveryTheorem {
  import opened Events
  import opened Delivery

  /** A thread's events are numbered from one, in order. */
  ghost predicate Numbered(thread: seq<Event>) {
    forall i :: 0 <= i < |thread| ==> thread[i].sequence == i + 1
  }

  /** The events past a sequence. */
  function After(thread: seq<Event>, after: nat): seq<Event> {
    if after <= |thread| then thread[after..] else []
  }

  /** Everything the client delivered, read or not. */
  function Delivered(c: Client): seq<Event> {
    c.read + c.queued
  }

  lemma AfterSnoc(thread: seq<Event>, after: nat)
    requires thread != []
    ensures After(thread, after) == After(thread[..|thread| - 1], after) + (if |thread| - 1 < after then [] else [thread[|thread| - 1]])
  {
  }

  lemma {:induction false} FilterPast(thread: seq<Event>, after: nat)
    requires Numbered(thread)
    ensures Filter(thread, Past(after)) == After(thread, after)
  {
    if thread != [] {
      AfterSnoc(thread, after);
      hide After;
      FilterPast(thread[..|thread| - 1], after);
    }
  }

  // ---------------------------------------------------------------- what is on its way

  function ItemOf(entry: Entry): seq<Event> {
    if entry.Item? then [entry.event] else []
  }

  function EntryItems(buffer: seq<Entry>): seq<Event> {
    if buffer == [] then [] else ItemOf(buffer[0]) + EntryItems(buffer[1..])
  }

  function EventOf(frame: Frame): seq<Event> {
    if frame.ItemFrame? then [frame.event] else []
  }

  function FrameItems(wire: seq<Frame>): seq<Event> {
    if wire == [] then [] else EventOf(wire[0]) + FrameItems(wire[1..])
  }

  function Pipeline(c: Connection): seq<Event> {
    FrameItems(c.wire) + EntryItems(c.buffer) + (if c.stage.Streaming? then Outstanding(c.stage.source) else [])
  }

  lemma {:induction false} EntrySnoc(buffer: seq<Entry>, entry: Entry)
    ensures EntryItems(buffer + [entry]) == EntryItems(buffer) + ItemOf(entry)
  {
    hide ItemOf;
    var longer := buffer + [entry];
    if buffer == [] {
      assert longer[1..] == [];
    } else {
      assert longer[1..] == buffer[1..] + [entry] && longer[0] == buffer[0];
      EntrySnoc(buffer[1..], entry);
    }
  }

  lemma {:induction false} FrameSnoc(wire: seq<Frame>, frame: Frame)
    ensures FrameItems(wire + [frame]) == FrameItems(wire) + EventOf(frame)
  {
    hide EventOf;
    var longer := wire + [frame];
    if wire == [] {
      assert longer[1..] == [];
    } else {
      assert longer[1..] == wire[1..] + [frame] && longer[0] == wire[0];
      FrameSnoc(wire[1..], frame);
    }
  }

  lemma {:induction false} FramePrefix(wire: seq<Frame>, kept: nat)
    requires kept <= |wire|
    ensures FrameItems(wire[..kept]) <= FrameItems(wire)
  {
    if kept > 0 {
      FramePrefix(wire[1..], kept - 1);
      assert wire[..kept][1..] == wire[1..][..kept - 1];
    }
  }

  /** What one connection carries is a run of the thread that begins no later than the next event to
      deliver, and reaches the thread's end while the stream is open. */
  ghost predicate Carries(thread: seq<Event>, start: nat, position: nat, c: Connection, from: nat, to: nat) {
    && from <= to <= |thread| && from <= position && (start <= from || from == to)
    && Pipeline(c) == thread[from..to]
    && (c.stage.Requested? ==> start <= c.stage.after <= position && c.wire == [] && c.buffer == [])
    && (c.stage.Streaming? ==> to == |thread| && start <= c.stage.source.after <= position
                               && (c.stage.source.after <= from || from == |thread|))
  }

  ghost predicate Sound(thread: seq<Event>, start: nat, position: nat, c: Connection) {
    exists from, to :: Carries(thread, start, position, c, from, to)
  }

  ghost predicate ClientSound(thread: seq<Event>, c: Client) {
    && Delivered(c) <= After(thread, c.after)
    && (c.open ==> Position(c) == c.after + |Delivered(c)| && (c.lastSequence.None? <==> Delivered(c) == []))
  }

  /** The invariant of every reachable state. */
  ghost predicate Invariant(s: System) {
    && Numbered(s.thread)
    && ClientSound(s.thread, s.client)
    && (s.client.open ==> forall i :: 0 <= i < |s.connections| ==> Sound(s.thread, s.client.after, Position(s.client), s.connections[i]))
  }

  // ---------------------------------------------------------------- each step keeps it

  lemma AcceptPipeline(thread: seq<Event>, c: Connection)
    requires Numbered(thread) && c.stage.Requested? && c.wire == [] && c.buffer == []
    ensures Pipeline(Accept(c, thread)) == After(thread, c.stage.after)
  {
    FilterPast(thread, c.stage.after);
    hide After;
    FrameSnoc([], SubscribedFrame(|thread|));
    assert [] + [SubscribedFrame(|thread|)] == [SubscribedFrame(|thread|)];
  }

  lemma AcceptSound(thread: seq<Event>, start: nat, position: nat, c: Connection)
    requires Numbered(thread) && Sound(thread, start, position, c) && c.stage.Requested?
    ensures Sound(thread, start, position, Accept(c, thread))
  {
    AcceptPipeline(thread, c);
    hide Pipeline;
    var after := c.stage.after;
    var from := if after <= |thread| then after else |thread|;
    assert After(thread, after) == thread[from..|thread|];
    assert Carries(thread, start, position, Accept(c, thread), from, |thread|);
  }

  /** A connection that carries a beginning of what it carried, or all of it with its stream still open,
      stays sound. */
  lemma ShorterSound(thread: seq<Event>, start: nat, position: nat, c: Connection, d: Connection)
    requires Sound(thread, start, position, c) && Pipeline(d) <= Pipeline(c) && !d.stage.Requested?
    requires d.stage.Streaming? ==> c.stage.Streaming? && d.stage.source.after == c.stage.source.after && Pipeline(d) == Pipeline(c)
    ensures Sound(thread, start, position, d)
  {
    hide Pipeline;
    var from: nat, to: nat :| Carries(thread, start, position, c, from, to);
    assert Pipeline(d) == Pipeline(c)[..|Pipeline(d)|] == thread[from..from + |Pipeline(d)|];
    assert Carries(thread, start, position, d, from, from + |Pipeline(d)|);
  }

  lemma RefusePipeline(c: Connection)
    requires c.stage.Requested?
    ensures Pipeline(Refuse(c)) == Pipeline(c)
  {
    FrameSnoc(c.wire, ErrorFrame);
  }

  lemma FillPipeline(c: Connection)
    requires c.stage.Streaming?
    ensures Pipeline(Fill(c)) <= Pipeline(c)
    ensures Fill(c).stage.Streaming? ==> Fill(c).stage.source.after == c.stage.source.after && Pipeline(Fill(c)) == Pipeline(c)
  {
    hide FrameItems, EntryItems, Outstanding;
    NextIsFirst(c.stage.source);
    var (event, source) := Next(c.stage.source);
    if event.None? {
    } else if |c.buffer| >= SUBSCRIPTION_QUEUE_LIMIT {
      EntrySnoc(c.buffer, Overflowed);
    } else {
      EntrySnoc(c.buffer, Entry.Item(event.value));
      EventMoves(FrameItems(c.wire) + EntryItems(c.buffer), event.value, Outstanding(source));
      assert FrameItems(c.wire) + (EntryItems(c.buffer) + [event.value]) == FrameItems(c.wire) + EntryItems(c.buffer) + [event.value];
    }
  }

  lemma EventMoves(a: seq<Event>, e: Event, b: seq<Event>)
    ensures a + ([e] + b) == a + [e] + b
  {
  }

  lemma DrainPipeline(c: Connection)
    requires c.buffer != []
    ensures Pipeline(Drain(c)) <= Pipeline(c)
    ensures c.buffer[0].Item? ==> Pipeline(Drain(c)) == Pipeline(c)
  {
    var rest := EntryItems(c.buffer[1..]);
    hide FrameItems;
    if c.buffer[0].Item? {
      FrameSnoc(c.wire, ItemFrame(c.buffer[0].event));
      EventMoves(FrameItems(c.wire), c.buffer[0].event, rest);
    } else {
      FrameSnoc(c.wire, ErrorFrame);
      FrameSnoc(c.wire + [ErrorFrame], EndFrame);
      assert c.wire + [ErrorFrame] + [EndFrame] == Drain(c).wire;
    }
  }

  lemma CutPipeline(c: Connection, kept: nat)
    ensures Pipeline(Cut(c, kept)) <= Pipeline(c)
  {
    FramePrefix(c.wire, if kept <= |c.wire| then kept else |c.wire|);
    assert c.wire[..|c.wire|] == c.wire;
  }

  lemma RefuseSound(thread: seq<Event>, start: nat, position: nat, c: Connection)
    requires Sound(thread, start, position, c) && c.stage.Requested?
    ensures Sound(thread, start, position, Refuse(c))
  {
    RefusePipeline(c);
    ShorterSound(thread, start, position, c, Refuse(c));
  }

  lemma FillSound(thread: seq<Event>, start: nat, position: nat, c: Connection)
    requires Sound(thread, start, position, c) && c.stage.Streaming?
    ensures Sound(thread, start, position, Fill(c))
  {
    FillPipeline(c);
    ShorterSound(thread, start, position, c, Fill(c));
  }

  lemma DrainSound(thread: seq<Event>, start: nat, position: nat, c: Connection)
    requires Sound(thread, start, position, c) && c.buffer != []
    ensures Sound(thread, start, position, Drain(c))
  {
    DrainPipeline(c);
    ShorterSound(thread, start, position, c, Drain(c));
  }

  lemma CutSound(thread: seq<Event>, start: nat, position: nat, c: Connection, kept: nat)
    requires Sound(thread, start, position, c)
    ensures Sound(thread, start, position, Cut(c, kept))
  {
    CutPipeline(c, kept);
    ShorterSound(thread, start, position, c, Cut(c, kept));
  }

  lemma ArrivalPipeline(c: Connection, e: Event)
    ensures Pipeline(ArrivedAt(c, e)) == Pipeline(c) + (if c.stage.Streaming? && e.sequence > c.stage.source.after then [e] else [])
  {
    hide FrameItems, EntryItems, Outstanding;
    if c.stage.Streaming? {
      ArrivalIsOutstanding(c.stage.source, e);
      assert FrameItems(c.wire) + EntryItems(c.buffer) + (Outstanding(c.stage.source) + [e])
          == FrameItems(c.wire) + EntryItems(c.buffer) + Outstanding(c.stage.source) + [e];
    }
  }

  lemma AppendSound(thread: seq<Event>, start: nat, position: nat, c: Connection, e: Event)
    requires Sound(thread, start, position, c) && e.sequence == |thread| + 1
    ensures Sound(thread + [e], start, position, ArrivedAt(c, e))
  {
    ArrivalPipeline(c, e);
    hide Pipeline;
    var from: nat, to: nat :| Carries(thread, start, position, c, from, to);
    var d := ArrivedAt(c, e);
    if !c.stage.Streaming? {
      assert (thread + [e])[from..to] == thread[from..to];
      assert Carries(thread + [e], start, position, d, from, to);
    } else if e.sequence > c.stage.source.after {
      assert (thread + [e])[from..to + 1] == thread[from..to] + [e];
      assert Carries(thread + [e], start, position, d, from, to + 1);
    } else {
      assert Carries(thread + [e], start, position, d, to + 1, to + 1);
    }
  }

  /** What a connection carries stays sound as the client moves on. */
  lemma LaterSound(thread: seq<Event>, start: nat, position: nat, later: nat, c: Connection)
    requires Sound(thread, start, position, c) && position <= later
    ensures Sound(thread, start, later, c)
  {
    var from: nat, to: nat :| Carries(thread, start, position, c, from, to);
    assert Carries(thread, start, later, c, from, to);
  }

  lemma WirePipeline(c: Connection)
    requires c.wire != []
    ensures Pipeline(c) == EventOf(c.wire[0]) + Pipeline(c.(wire := c.wire[1..]))
  {
    hide EventOf, EntryItems, Outstanding;
  }

  /** Receiving a frame that carries no event leaves what the connection carries. */
  lemma ReceivedSound(thread: seq<Event>, start: nat, position: nat, c: Connection) returns (from: nat)
    requires Sound(thread, start, position, c) && c.wire != []
    ensures Sound(thread, start, position + (if c.wire[0].ItemFrame? && from == position then 1 else 0), c.(wire := c.wire[1..]))
    ensures from <= position && (c.wire[0].ItemFrame? ==> start <= from < |thread| && c.wire[0].event == thread[from])
  {
    var to: nat;
    from, to :| Carries(thread, start, position, c, from, to);
    var rest := c.(wire := c.wire[1..]);
    WirePipeline(c);
    hide Pipeline;
    if c.wire[0].ItemFrame? {
      assert Pipeline(c)[0] == thread[from] && Pipeline(rest) == Pipeline(c)[1..] == thread[from + 1..to];
      assert Carries(thread, start, if from == position then position + 1 else position, rest, from + 1, to);
    } else {
      assert Pipeline(c) == Pipeline(rest);
      assert Carries(thread, start, position, rest, from, to);
    }
  }

  lemma DeliverSound(thread: seq<Event>, client: Client, from: nat)
    requires Numbered(thread) && ClientSound(thread, client) && client.open && client.after <= from <= Position(client) && from < |thread|
    ensures ClientSound(thread, Deliver(client, thread[from])) && Deliver(client, thread[from]).open
    ensures Deliver(client, thread[from]).after == client.after
    ensures Position(Deliver(client, thread[from])) == Position(client) + (if from == Position(client) then 1 else 0)
  {
    var k := |Delivered(client)|;
    if from == Position(client) {
      assert After(thread, client.after)[k] == thread[from];
      assert Delivered(Deliver(client, thread[from])) == Delivered(client) + [thread[from]];
    }
  }

  lemma ClosingSound(thread: seq<Event>, client: Client)
    requires ClientSound(thread, client)
    ensures ClientSound(thread, client.(open := false)) && Position(client.(open := false)) == Position(client)
    ensures ClientSound(thread, client.(open := false, failed := true))
         && Position(client.(open := false, failed := true)) == Position(client)
  {
  }

  /** A frame from any socket, late or not, is either the next event, one delivered already, or no event. */
  lemma AnswerSound(thread: seq<Event>, client: Client, c: Connection)
    requires Numbered(thread) && ClientSound(thread, client) && client.open
    requires Sound(thread, client.after, Position(client), c) && c.wire != []
    ensures ClientSound(thread, Answer(client, c.wire[0])) && Position(client) <= Position(Answer(client, c.wire[0]))
    ensures Answer(client, c.wire[0]).after == client.after
    ensures Sound(thread, client.after, Position(Answer(client, c.wire[0])), c.(wire := c.wire[1..]))
  {
    hide Sound, ClientSound;
    var from := ReceivedSound(thread, client.after, Position(client), c);
    if c.wire[0].ItemFrame? {
      DeliverSound(thread, client, from);
      hide Deliver, Position;
    } else {
      ClosingSound(thread, client);
    }
  }

  lemma AppendInvariant(s: System, threadId: Id, turn: Id, time: int, payload: Payload)
    requires Invariant(s)
    ensures Invariant(Appended(s, threadId, turn, time, payload))
  {
    hide Sound;
    var e := Event(|s.thread| + 1, threadId, turn, time, payload);
    var t := Appended(s, threadId, turn, time, payload);
    if s.client.after <= |s.thread| {
      assert After(t.thread, s.client.after) == After(s.thread, s.client.after) + [e];
    }
    if s.client.open {
      forall i | 0 <= i < |t.connections| ensures Sound(t.thread, t.client.after, Position(t.client), t.connections[i]) {
        AppendSound(s.thread, s.client.after, Position(s.client), s.connections[i], e);
      }
    }
  }

  lemma OpenInvariant(s: System, threadId: Id)
    requires Invariant(s)
    ensures Invariant(Advance(s, threadId, OpenSocket))
  {
    var asked := Connection(Requested(Position(s.client)), [], []);
    var from := if s.client.after <= |s.thread| then s.client.after else |s.thread|;
    if s.client.open {
      assert Carries(s.thread, s.client.after, Position(s.client), asked, from, from);
    }
  }

  lemma ReceiveInvariant(s: System, threadId: Id, i: nat)
    requires Invariant(s) && i < |s.connections| && s.connections[i].wire != []
    ensures Invariant(Advance(s, threadId, ReceiveAt(i)))
  {
    hide Sound, Answer, ClientSound;
    var t := Advance(s, threadId, ReceiveAt(i));
    if s.client.open {
      AnswerSound(s.thread, s.client, s.connections[i]);
      forall j | 0 <= j < |t.connections| ensures Sound(t.thread, t.client.after, Position(t.client), t.connections[j]) {
        if j != i {
          LaterSound(s.thread, s.client.after, Position(s.client), Position(t.client), s.connections[j]);
        }
      }
    } else {
      assert t.client == s.client by {
        AnswerClosed(s.client, s.connections[i].wire[0]);
      }
    }
  }

  lemma AnswerClosed(c: Client, f: Frame)
    requires !c.open
    ensures Answer(c, f) == c
  {
  }

  lemma ReadSound(thread: seq<Event>, c: Client)
    requires ClientSound(thread, c)
    ensures ClientSound(thread, ReadOne(c)) && Position(ReadOne(c)) == Position(c)
    ensures ClientSound(thread, Cancelled(c))
  {
    assert Delivered(ReadOne(c)) == Delivered(c);
    assert Delivered(Cancelled(c)) == c.read <= Delivered(c);
  }

  /** A step of a connection alone. */
  lemma ConnectionInvariant(s: System, i: nat, c: Connection)
    requires Invariant(s) && i < |s.connections|
    requires s.client.open ==> Sound(s.thread, s.client.after, Position(s.client), c)
    ensures Invariant(s.(connections := s.connections[i := c]))
  {
    hide Sound, ClientSound;
  }

  lemma AdvanceInvariant(s: System, threadId: Id, a: Action)
    requires Invariant(s)
    ensures Invariant(Advance(s, threadId, a))
  {
    hide Sound, ClientSound, Fill, Drain, Cut, Accept, Refuse, Answer;
    var position := Position(s.client);
    match a
    case AppendEvent(turn, time, payload) => AppendInvariant(s, threadId, turn, time, payload);
    case OpenSocket => OpenInvariant(s, threadId);
    case AcceptAt(i) =>
      if i < |s.connections| && s.connections[i].stage.Requested? {
        if s.client.open { AcceptSound(s.thread, s.client.after, position, s.connections[i]); }
        ConnectionInvariant(s, i, Accept(s.connections[i], s.thread));
      }
    case RefuseAt(i) =>
      if i < |s.connections| && s.connections[i].stage.Requested? {
        if s.client.open { RefuseSound(s.thread, s.client.after, position, s.connections[i]); }
        ConnectionInvariant(s, i, Refuse(s.connections[i]));
      }
    case FillAt(i) =>
      if i < |s.connections| && s.connections[i].stage.Streaming? {
        if s.client.open { FillSound(s.thread, s.client.after, position, s.connections[i]); }
        ConnectionInvariant(s, i, Fill(s.connections[i]));
      }
    case DrainAt(i) =>
      if i < |s.connections| && s.connections[i].buffer != [] {
        if s.client.open { DrainSound(s.thread, s.client.after, position, s.connections[i]); }
        ConnectionInvariant(s, i, Drain(s.connections[i]));
      }
    case ReceiveAt(i) =>
      if i < |s.connections| && s.connections[i].wire != [] {
        ReceiveInvariant(s, threadId, i);
      }
    case CutAt(i, kept) =>
      if i < |s.connections| {
        if s.client.open { CutSound(s.thread, s.client.after, position, s.connections[i], kept); }
        ConnectionInvariant(s, i, Cut(s.connections[i], kept));
      }
    case Read => ReadSound(s.thread, s.client);
    case Cancel => ReadSound(s.thread, s.client);
  }

  lemma {:induction false} RunInvariant(thread: seq<Event>, after: nat, threadId: Id, actions: seq<Action>)
    requires Numbered(thread)
    ensures Invariant(Run(Starting(thread, after), threadId, actions))
  {
    hide Invariant, Advance;
    if actions == [] {
      StartingInvariant(thread, after);
    } else {
      var n := |actions| - 1;
      RunInvariant(thread, after, threadId, actions[..n]);
      AdvanceInvariant(Run(Starting(thread, after), threadId, actions[..n]), threadId, actions[n]);
    }
  }

  lemma StartingInvariant(thread: seq<Event>, after: nat)
    requires Numbered(thread)
    ensures Invariant(Starting(thread, after))
  {
  }

  // ---------------------------------------------------------------- safety

  lemma {:induction false} RunKeepsAfter(s: System, threadId: Id, actions: seq<Action>)
    ensures Run(s, threadId, actions).client.after == s.client.after
    ensures s.thread <= Run(s, threadId, actions).thread
  {
    if actions != [] {
      RunKeepsAfter(s, threadId, actions[..|actions| - 1]);
    }
  }

  lemma SoundIsInOrder(s: System)
    requires Invariant(s)
    ensures Delivered(s.client) <= After(s.thread, s.client.after) && s.client.read <= Delivered(s.client)
    ensures forall k :: 0 <= k < |Delivered(s.client)| ==> Delivered(s.client)[k].sequence == s.client.after + k + 1
  {
    var all := After(s.thread, s.client.after);
    forall k | 0 <= k < |Delivered(s.client)| ensures Delivered(s.client)[k].sequence == s.client.after + k + 1 {
      assert Delivered(s.client)[k] == all[k] == s.thread[s.client.after + k];
    }
  }

  /** In every reachable state a client has delivered the events past what it asked for, from the first
      on, each once and in order; and its reader has read a beginning of them. */
  lemma {:induction false} DeliversInOrder(thread: seq<Event>, after: nat, threadId: Id, actions: seq<Action>)
    requires Numbered(thread)
    ensures var s := Run(Starting(thread, after), threadId, actions);
            Delivered(s.client) <= After(s.thread, after) && s.client.read <= Delivered(s.client)
    ensures var s := Run(Starting(thread, after), threadId, actions);
            forall k :: 0 <= k < |Delivered(s.client)| ==> Delivered(s.client)[k].sequence == after + k + 1
  {
    hide Run, Invariant, Delivered, After;
    RunInvariant(thread, after, threadId, actions);
    RunKeepsAfter(Starting(thread, after), threadId, actions);
    SoundIsInOrder(Run(Starting(thread, after), threadId, actions));
  }

  /** An open stream with nothing to send has sent up to the thread's end. */
  lemma EmptyEnds(thread: seq<Event>, start: nat, position: nat, c: Connection)
    requires Sound(thread, start, position, c) && c.stage.Streaming? && Pipeline(c) == []
    ensures |thread| <= position
  {
    hide Pipeline;
    var from: nat, to: nat :| Carries(thread, start, position, c, from, to);
    assert |thread[from..to]| == to - from;
  }

  lemma AllDelivered(thread: seq<Event>, c: Client)
    requires ClientSound(thread, c) && c.open && |thread| <= Position(c)
    ensures Delivered(c) == After(thread, c.after)
  {
    hide Position, Delivered;
    assert |Delivered(c)| >= |After(thread, c.after)|;
  }

  lemma EmptyIsAll(s: System, i: nat)
    requires Invariant(s) && s.client.open && i < |s.connections|
    requires s.connections[i].stage.Streaming? && Pipeline(s.connections[i]) == []
    ensures Delivered(s.client) == After(s.thread, s.client.after)
  {
    hide Pipeline, Sound, ClientSound, Delivered, After;
    EmptyEnds(s.thread, s.client.after, Position(s.client), s.connections[i]);
    AllDelivered(s.thread, s.client);
  }

  /** Nothing is missing: with an open stream that has nothing more to send, the client has delivered every
      event past what it asked for. */
  lemma {:induction false} DeliversAll(thread: seq<Event>, after: nat, threadId: Id, actions: seq<Action>, i: nat)
    requires Numbered(thread)
    requires var s := Run(Starting(thread, after), threadId, actions);
             && s.client.open && i < |s.connections|
             && s.connections[i].stage.Streaming? && Pipeline(s.connections[i]) == []
    ensures var s := Run(Starting(thread, after), threadId, actions); Delivered(s.client) == After(s.thread, after)
  {
    hide Run, Invariant, Pipeline, Delivered, After;
    RunInvariant(thread, after, threadId, actions);
    RunKeepsAfter(Starting(thread, after), threadId, actions);
    EmptyIsAll(Run(Starting(thread, after), threadId, actions), i);
  }

  // ---------------------------------------------------------------- progress

  lemma {:induction false} RunOn(s: System, threadId: Id, first: seq<Action>, rest: seq<Action>)
    ensures Run(s, threadId, first + rest) == Run(Run(s, threadId, first), threadId, rest)
  {
    if rest == [] {
      assert first + rest == first;
    } else {
      var n := |rest| - 1;
      assert (first + rest)[..|first + rest| - 1] == first + rest[..n];
      RunOn(s, threadId, first, rest[..n]);
    }
  }

  lemma RunThree(s: System, threadId: Id, a: Action, b: Action, c: Action)
    ensures Run(s, threadId, [a, b, c]) == Advance(Advance(Advance(s, threadId, a), threadId, b), threadId, c)
  {
    hide Advance;
    RunOn(s, threadId, [a, b], [c]);
    RunOn(s, threadId, [a], [b]);
    RunOn(s, threadId, [], [a]);
    assert [] + [a] == [a] && [a] + [b] == [a, b] && [a, b] + [c] == [a, b, c];
  }

  ghost predicate CaughtUp(s: System, t: System) {
    t.client.open && t.thread == s.thread && t.client.after == s.client.after
    && Delivered(t.client) == After(t.thread, t.client.after)
  }

  function MoveOne(i: nat): seq<Action> {
    [FillAt(i), DrainAt(i), ReceiveAt(i)]
  }

  /** An open stream with nothing buffered moves its next event to the client. */
  lemma MovesOne(s: System, threadId: Id, i: nat) returns (t: System)
    requires Invariant(s) && s.client.open && i < |s.connections| && Idle(s.connections[i])
    requires Outstanding(s.connections[i].stage.source) != []
    ensures t == Run(s, threadId, MoveOne(i)) && Invariant(t)
    ensures t.client.open && t.thread == s.thread && t.client.after == s.client.after && i < |t.connections| && Idle(t.connections[i])
    ensures |Outstanding(t.connections[i].stage.source)| == |Outstanding(s.connections[i].stage.source)| - 1
  {
    hide Invariant, Outstanding;
    NextIsFirst(s.connections[i].stage.source);
    var filled := Advance(s, threadId, FillAt(i));
    var drained := Advance(filled, threadId, DrainAt(i));
    t := Advance(drained, threadId, ReceiveAt(i));
    AdvanceInvariant(s, threadId, FillAt(i));
    AdvanceInvariant(filled, threadId, DrainAt(i));
    AdvanceInvariant(drained, threadId, ReceiveAt(i));
    RunThree(s, threadId, FillAt(i), DrainAt(i), ReceiveAt(i));
  }

  ghost predicate Idle(c: Connection) {
    c.stage.Streaming? && c.buffer == [] && c.wire == []
  }

  lemma NothingLeft(s: System, i: nat)
    requires Invariant(s) && s.client.open && i < |s.connections| && Idle(s.connections[i])
    requires Outstanding(s.connections[i].stage.source) == []
    ensures Delivered(s.client) == After(s.thread, s.client.after)
  {
    hide Invariant, Delivered, After;
    assert Pipeline(s.connections[i]) == [];
    EmptyIsAll(s, i);
  }

  lemma {:induction false} Flushes(s: System, threadId: Id, i: nat) returns (actions: seq<Action>)
    requires Invariant(s) && s.client.open && i < |s.connections| && Idle(s.connections[i])
    ensures CaughtUp(s, Run(s, threadId, actions))
    decreases |Outstanding(s.connections[i].stage.source)|
  {
    hide Invariant, Outstanding, Advance;
    if Outstanding(s.connections[i].stage.source) == [] {
      NothingLeft(s, i);
      actions := [];
    } else {
      var t := MovesOne(s, threadId, i);
      var rest := Flushes(t, threadId, i);
      actions := MoveOne(i) + rest;
      RunOn(s, threadId, MoveOne(i), rest);
      hide Run;
    }
  }

  /** From every reachable state in which the subscription is open, whatever was lost or is still late, a new
      socket can bring the client every event past what it asked for. */
  lemma {:induction false} CatchesUp(thread: seq<Event>, after: nat, threadId: Id, actions: seq<Action>) returns (more: seq<Action>)
    requires Numbered(thread) && Run(Starting(thread, after), threadId, actions).client.open
    ensures var s := Run(Starting(thread, after), threadId, actions);
            var t := Run(Starting(thread, after), threadId, actions + more);
            t.client.open && t.thread == s.thread && Delivered(t.client) == After(t.thread, after)
  {
    hide Invariant;
    RunInvariant(thread, after, threadId, actions);
    RunKeepsAfter(Starting(thread, after), threadId, actions);
    var s := Run(Starting(thread, after), threadId, actions);
    var i := |s.connections|;
    var opening := [OpenSocket, AcceptAt(i), ReceiveAt(i)];
    var asked := Advance(s, threadId, OpenSocket);
    var accepted := Advance(asked, threadId, AcceptAt(i));
    var ready := Advance(accepted, threadId, ReceiveAt(i));
    AdvanceInvariant(s, threadId, OpenSocket);
    AdvanceInvariant(asked, threadId, AcceptAt(i));
    AdvanceInvariant(accepted, threadId, ReceiveAt(i));
    RunThree(s, threadId, OpenSocket, AcceptAt(i), ReceiveAt(i));
    var rest := Flushes(ready, threadId, i);
    more := opening + rest;
    RunOn(s, threadId, opening, rest);
    RunOn(Starting(thread, after), threadId, actions, more);
  }

  // ---------------------------------------------------------------- while the subscription is open

  /** An action that ends the subscription: the reader's own cancel, or an error or end frame that arrives,
      from whichever socket. */
  predicate Closes(s: System, a: Action) {
    match a
    case Cancel => true
    case ReceiveAt(i) =>
      i < |s.connections| && s.connections[i].wire != []
      && (s.connections[i].wire[0].ErrorFrame? || s.connections[i].wire[0].EndFrame?)
    case _ => false
  }

  lemma OpenAfter(s: System, threadId: Id, a: Action)
    ensures Advance(s, threadId, a).client.open <==> s.client.open && !Closes(s, a)
  {
    hide Accept, Refuse, Fill, Drain, Cut;
  }

  /** No action up to a run's end ended the subscription. */
  ghost predicate NothingCloses(s: System, threadId: Id, actions: seq<Action>) {
    forall k :: 0 <= k < |actions| ==> !Closes(Run(s, threadId, actions[..k]), actions[k])
  }

  /** A subscription is open exactly while nothing closed it: no cancel, and no error or end frame received
      on any socket it was ever sent on, the late ones included. */
  lemma {:induction false} StaysOpen(s: System, threadId: Id, actions: seq<Action>)
    ensures Run(s, threadId, actions).client.open <==> s.client.open && NothingCloses(s, threadId, actions)
  {
    hide Advance, Closes;
    if actions != [] {
      var n := |actions| - 1;
      StaysOpen(s, threadId, actions[..n]);
      OpenAfter(Run(s, threadId, actions[..n]), threadId, actions[n]);
      ClosesNext(s, threadId, actions);
    }
  }

  lemma ClosesNext(s: System, threadId: Id, actions: seq<Action>)
    requires actions != []
    ensures var n := |actions| - 1;
            var earlier := actions[..n];
            NothingCloses(s, threadId, actions) <==> NothingCloses(s, threadId, earlier) && !Closes(Run(s, threadId, earlier), actions[n])
  {
    hide Run, Closes;
    var n := |actions| - 1;
    forall k | 0 <= k < n ensures actions[..n][..k] == actions[..k] {
    }
  }

  /** The states of the run below: the first request refused, the second accepted, and the refusal received. */
  lemma LateErrorStates(threadId: Id) returns (s3: System, s5: System, s6: System)
    ensures s3 == Advance(Advance(Advance(Starting([], 0), threadId, OpenSocket), threadId, RefuseAt(0)), threadId, OpenSocket)
    ensures s5 == Advance(Advance(s3, threadId, AcceptAt(1)), threadId, ReceiveAt(1)) && s6 == Advance(s5, threadId, ReceiveAt(0))
    ensures s5.client.open && |s5.connections| == 2 && s5.connections[1].stage.Streaming? && !s6.client.open
  {
    var s1 := Advance(Starting([], 0), threadId, OpenSocket);
    var s2 := Advance(s1, threadId, RefuseAt(0));
    assert s2.connections[0].wire == [ErrorFrame] && s2.client.open;
    s3 := Advance(s2, threadId, OpenSocket);
    hide Subscribed;
    s5 := Advance(Advance(s3, threadId, AcceptAt(1)), threadId, ReceiveAt(1));
    assert s5.connections[0].wire == [ErrorFrame] && s5.client.open;
    s6 := Advance(s5, threadId, ReceiveAt(0));
  }

  /** An error from a socket given up on closes a subscription whose newer socket streams: the first socket's
      request is refused, the second's is accepted, and the refusal arrives last. */
  lemma {:induction false} ALateErrorCloses(threadId: Id)
    ensures var before := [OpenSocket, RefuseAt(0), OpenSocket, AcceptAt(1), ReceiveAt(1)];
            var s := Run(Starting([], 0), threadId, before);
            && s.client.open && |s.connections| == 2 && s.connections[1].stage.Streaming?
            && !Run(Starting([], 0), threadId, before + [ReceiveAt(0)]).client.open
  {
    hide Advance, Run;
    var start := Starting([], 0);
    var s3, s5, s6 := LateErrorStates(threadId);
    RunThree(start, threadId, OpenSocket, RefuseAt(0), OpenSocket);
    RunThree(s3, threadId, AcceptAt(1), ReceiveAt(1), ReceiveAt(0));
    RunTwo(s3, threadId, AcceptAt(1), ReceiveAt(1));
    var first := [OpenSocket, RefuseAt(0), OpenSocket];
    RunOn(start, threadId, first, [AcceptAt(1), ReceiveAt(1)]);
    RunOn(start, threadId, first, [AcceptAt(1), ReceiveAt(1), ReceiveAt(0)]);
    assert first + [AcceptAt(1), ReceiveAt(1)] == [OpenSocket, RefuseAt(0), OpenSocket, AcceptAt(1), ReceiveAt(1)];
    assert first + [AcceptAt(1), ReceiveAt(1), ReceiveAt(0)]
        == [OpenSocket, RefuseAt(0), OpenSocket, AcceptAt(1), ReceiveAt(1)] + [ReceiveAt(0)];
  }

  lemma RunTwo(s: System, threadId: Id, a: Action, b: Action)
    ensures Run(s, threadId, [a, b]) == Advance(Advance(s, threadId, a), threadId, b)
  {
    hide Advance;
    RunOn(s, threadId, [a], [b]);
    RunOn(s, threadId, [], [a]);
    assert [] + [a] == [a] && [a] + [b] == [a, b];
  }
}
