/** How one thread's events reach a client: the stored events and the live ones as one stream, the server's
    bounded read-ahead, the frames on a socket, and a client that resubscribes after what it last delivered.
    Each is a value here and a step a function of it. */
module Delivery {
  import opened Events

  // ---------------------------------------------------------------- the stream of a subscription

  /** What a subscription still has to yield: the replay it took, then the live events past `after`. */
  datatype Source = Source(after: nat, replay: seq<Event>, live: seq<Event>)

  function Past(after: nat): Event -> bool {
    (e: Event) => e.sequence > after
  }

  function Subscribed(thread: seq<Event>, after: nat): Source {
    Source(after, Filter(thread, Past(after)), [])
  }

  function Arrived(s: Source, e: Event): Source {
    s.(live := s.live + [e])
  }

  function Outstanding(s: Source): seq<Event> {
    s.replay + Filter(s.live, Past(s.after))
  }

  /** The next event the stream yields, live events up to `after` skipped; None when it waits. */
  function Next(s: Source): (Option<Event>, Source)
    decreases |s.live|
  {
    if s.replay != [] then (Some(s.replay[0]), s.(replay := s.replay[1..]))
    else if s.live == [] then (None, s)
    else
      var rest := s.(live := s.live[1..]);
      if s.live[0].sequence > s.after then (Some(s.live[0]), rest) else Next(rest)
  }

  /** The stream yields what is outstanding, in order, and nothing else. */
  lemma {:induction false} NextIsFirst(s: Source)
    ensures Next(s).1.after == s.after
    ensures Next(s).0.None? <==> Outstanding(s) == []
    ensures Next(s).0.None? ==> Outstanding(Next(s).1) == []
    ensures Next(s).0.Some? ==> Outstanding(s) == [Next(s).0.value] + Outstanding(Next(s).1)
    decreases |s.live|
  {
    if s.replay == [] && s.live != [] {
      var rest := s.(live := s.live[1..]);
      assert s.live == [s.live[0]] + s.live[1..];
      FilterConcat([s.live[0]], s.live[1..], Past(s.after));
      FilterSnoc([], s.live[0], Past(s.after));
      assert [] + [s.live[0]] == [s.live[0]];
      if s.live[0].sequence <= s.after {
        NextIsFirst(rest);
      }
    }
  }

  lemma ArrivalIsOutstanding(s: Source, e: Event)
    ensures Outstanding(Arrived(s, e)) == Outstanding(s) + (if e.sequence > s.after then [e] else [])
  {
    FilterSnoc(s.live, e, Past(s.after));
  }

  // ---------------------------------------------------------------- the server's side

  /** The items one client may hold unread on the server. */
  const SUBSCRIPTION_QUEUE_LIMIT := 1024

  datatype Entry = Item(event: Event) | Overflowed

  datatype Frame = SubscribedFrame(head: nat) | ItemFrame(event: Event) | ErrorFrame | EndFrame

  /** A subscription frame on its way, an open stream, or one the server has closed. */
  datatype Stage = Requested(after: nat) | Streaming(source: Source) | Closed

  datatype Connection = Connection(stage: Stage, buffer: seq<Entry>, wire: seq<Frame>)

  function Accept(c: Connection, thread: seq<Event>): Connection
    requires c.stage.Requested?
  {
    Connection(Streaming(Subscribed(thread, c.stage.after)), c.buffer, c.wire + [SubscribedFrame(|thread|)])
  }

  function Refuse(c: Connection): Connection {
    Connection(Closed, c.buffer, c.wire + [ErrorFrame])
  }

  /** Read one event ahead of the socket. A full buffer ends the stream, and the event is lost with it. */
  function Fill(c: Connection): Connection
    requires c.stage.Streaming?
  {
    var (event, source) := Next(c.stage.source);
    if event.None? then Connection(Streaming(source), c.buffer, c.wire)
    else if |c.buffer| >= SUBSCRIPTION_QUEUE_LIMIT then Connection(Closed, c.buffer + [Overflowed], c.wire)
    else Connection(Streaming(source), c.buffer + [Entry.Item(event.value)], c.wire)
  }

  /** Send the first entry of the buffer. */
  function Drain(c: Connection): Connection
    requires c.buffer != []
  {
    match c.buffer[0]
    case Item(event) => Connection(c.stage, c.buffer[1..], c.wire + [ItemFrame(event)])
    case Overflowed => Connection(Closed, [], c.wire + [ErrorFrame, EndFrame])
  }

  /** The socket is lost, and with it all but the first frames still on it. */
  function Cut(c: Connection, kept: nat): Connection {
    Connection(Closed, [], if kept <= |c.wire| then c.wire[..kept] else c.wire)
  }

  // ---------------------------------------------------------------- the client's side

  /** A client's subscription: what it asked to come after, the sequence of the last event delivered, the
      events delivered and not read yet, those its reader has read, and whether it ended with an error. */
  datatype Client = Client(after: nat, lastSequence: Option<nat>, queued: seq<Event>, read: seq<Event>, open: bool, failed: bool)

  /** What a subscribe frame asks to come after. */
  function Position(c: Client): nat {
    if c.lastSequence.Some? then c.lastSequence.value else c.after
  }

  /** Deliver an event, unless it was delivered already. */
  function Deliver(c: Client, e: Event): Client {
    if c.lastSequence.Some? && e.sequence <= c.lastSequence.value then c
    else c.(lastSequence := Some(e.sequence), queued := c.queued + [e])
  }

  /** Handle a frame, whichever socket it came from. */
  function Answer(c: Client, f: Frame): Client {
    if !c.open then c
    else match f
      case SubscribedFrame(_) => c
      case ItemFrame(e) => Deliver(c, e)
      case ErrorFrame => c.(open := false, failed := true)
      case EndFrame => c.(open := false)
  }

  /** What the reader comes upon: an event, the subscription's error, its end, or nothing yet. */
  datatype Reading = Item(event: Event) | Failure | End | Wait

  function ReadingOf(c: Client): Reading {
    if c.queued != [] then Reading.Item(c.queued[0]) else if c.failed then Failure else if !c.open then End else Wait
  }

  function ReadOne(c: Client): Client {
    if c.queued == [] then c else c.(queued := c.queued[1..], read := c.read + [c.queued[0]])
  }

  /** Stop following, dropping what the reader has not read. */
  function Cancelled(c: Client): Client {
    c.(queued := [], open := false, failed := false)
  }

  // ---------------------------------------------------------------- the whole system

  /** One thread's stored events, one subscription to it, and every socket it was sent on. Sockets the
      client has given up on are among them: their frames may still arrive. */
  datatype System = System(thread: seq<Event>, client: Client, connections: seq<Connection>)

  datatype Action =
    | AppendEvent(turn: Id, time: int, payload: Payload)
    | OpenSocket
    | AcceptAt(i: nat)
    | RefuseAt(i: nat)
    | FillAt(i: nat)
    | DrainAt(i: nat)
    | ReceiveAt(i: nat)
    | CutAt(i: nat, kept: nat)
    | Read
    | Cancel

  /** A live event reaches every open stream of its thread. */
  function ArrivedAt(c: Connection, e: Event): Connection {
    if c.stage.Streaming? then c.(stage := Streaming(Arrived(c.stage.source, e))) else c
  }

  function Appended(s: System, threadId: Id, turn: Id, time: int, payload: Payload): System {
    var e := Event(|s.thread| + 1, threadId, turn, time, payload);
    System(s.thread + [e], s.client,
           seq(|s.connections|, i requires 0 <= i < |s.connections| => ArrivedAt(s.connections[i], e)))
  }

  function Advance(s: System, threadId: Id, a: Action): System {
    match a
    case AppendEvent(turn, time, payload) => Appended(s, threadId, turn, time, payload)
    case OpenSocket =>
      if s.client.open
      then s.(connections := s.connections + [Connection(Requested(Position(s.client)), [], [])]) else s
    case AcceptAt(i) =>
      if i < |s.connections| && s.connections[i].stage.Requested?
      then s.(connections := s.connections[i := Accept(s.connections[i], s.thread)]) else s
    case RefuseAt(i) =>
      if i < |s.connections| && s.connections[i].stage.Requested?
      then s.(connections := s.connections[i := Refuse(s.connections[i])]) else s
    case FillAt(i) =>
      if i < |s.connections| && s.connections[i].stage.Streaming?
      then s.(connections := s.connections[i := Fill(s.connections[i])]) else s
    case DrainAt(i) =>
      if i < |s.connections| && s.connections[i].buffer != []
      then s.(connections := s.connections[i := Drain(s.connections[i])]) else s
    case ReceiveAt(i) =>
      if i < |s.connections| && s.connections[i].wire != []
      then System(s.thread, Answer(s.client, s.connections[i].wire[0]),
                  s.connections[i := s.connections[i].(wire := s.connections[i].wire[1..])]) else s
    case CutAt(i, kept) =>
      if i < |s.connections| then s.(connections := s.connections[i := Cut(s.connections[i], kept)]) else s
    case Read => s.(client := ReadOne(s.client))
    case Cancel => s.(client := Cancelled(s.client))
  }

  /** A client subscribes to a thread, before any socket carries the subscription. */
  function Starting(thread: seq<Event>, after: nat): System {
    System(thread, Client(after, None, [], [], true, false), [])
  }

  function Run(s: System, threadId: Id, actions: seq<Action>): System {
    if actions == [] then s
    else Advance(Run(s, threadId, actions[..|actions| - 1]), threadId, actions[|actions| - 1])
  }
}
