/** The event log as the instance keeps it: the stored events, each thread's head, the bodies of deliveries
    that wait for their turn, and the queues of the open subscriptions. */
module EventStore {
  import opened Events
  import opened Delivery
  import opened DeliveryTheorem

  datatype Head = Head(sequence: nat, lastActivity: int)

  /** A subscriber's queue of live events. */
  class LiveQueue {
    var items: seq<Event>

    constructor ()
      ensures items == []
    {
      items := [];
    }
  }

  /** One subscription's stream: the replay taken when it opened, then its queue. */
  class Stream {
    const after: nat
    const head: nat
    const queue: LiveQueue
    var replay: seq<Event>

    constructor (after: nat, head: nat, queue: LiveQueue, replay: seq<Event>)
      ensures this.after == after && this.head == head && this.queue == queue && this.replay == replay
    {
      this.after, this.head, this.queue, this.replay := after, head, queue, replay;
    }

    function Value(): Source
      reads this, queue
    {
      Source(after, replay, queue.items)
    }

    /** Yield the next event, or None when the stream has to wait for one. */
    method Pull() returns (event: Option<Event>)
      modifies this`replay, queue
      ensures (event, Value()) == Next(old(Value()))
    {
      if replay != [] {
        event := Some(replay[0]);
        replay := replay[1..];
        return;
      }
      event := None;
      while queue.items != []
        invariant replay == []
        invariant Next(Value()) == Next(old(Value()))
        decreases |queue.items|
      {
        var e := queue.items[0];
        queue.items := queue.items[1..];
        if e.sequence > after {
          event := Some(e);
          return;
        }
      }
    }
  }

  /** A thread's events are numbered from one, and its head is its last event's. */
  ghost predicate ThreadConsistent(own: seq<Event>, head: Option<Head>) {
    && Numbered(own)
    && (if own == [] then head == None else head == Some(Head(|own|, own[|own| - 1].time)))
  }

  function HeadOf(heads: map<Id, Head>, thread: Id): Option<Head> {
    if thread in heads then Some(heads[thread]) else None
  }

  ghost predicate Consistent(events: seq<Event>, heads: map<Id, Head>) {
    forall t: Id :: ThreadConsistent(ThreadEvents(events, t), HeadOf(heads, t))
  }

  lemma StoredConsistent(events: seq<Event>, heads: map<Id, Head>, e: Event)
    requires Consistent(events, heads) && e.sequence == |ThreadEvents(events, e.thread)| + 1
    ensures Consistent(events + [e], heads[e.thread := Head(e.sequence, e.time)])
  {
    hide ThreadConsistent;
    var after := heads[e.thread := Head(e.sequence, e.time)];
    forall t: Id ensures ThreadConsistent(ThreadEvents(events + [e], t), HeadOf(after, t)) {
      assert ThreadConsistent(ThreadEvents(events, t), HeadOf(heads, t));
      FilterSnoc(events, e, InThread(t));
      if t == e.thread {
        NextConsistent(ThreadEvents(events, t), HeadOf(heads, t), e);
      }
    }
  }

  lemma NextConsistent(own: seq<Event>, head: Option<Head>, e: Event)
    requires ThreadConsistent(own, head) && e.sequence == |own| + 1
    ensures ThreadConsistent(own + [e], Some(Head(e.sequence, e.time)))
  {
  }

  lemma HeadCounts(events: seq<Event>, heads: map<Id, Head>, thread: Id)
    requires Consistent(events, heads)
    ensures (if thread in heads then heads[thread].sequence else 0) == |ThreadEvents(events, thread)|
  {
    assert ThreadConsistent(ThreadEvents(events, thread), HeadOf(heads, thread));
  }

  method Publish(queues: set<LiveQueue>, event: Event)
    modifies queues
    ensures forall q :: q in queues ==> q.items == old(q.items) + [event]
  {
    var left := queues;
    while left != {}
      invariant left <= queues
      invariant forall q :: q in left ==> q.items == old(q.items)
      invariant forall q :: q in queues - left ==> q.items == old(q.items) + [event]
      decreases |left|
    {
      var subscriber :| subscriber in left;
      subscriber.items := subscriber.items + [event];
      left := left - {subscriber};
    }
  }

  class EventLog {
    var events: seq<Event>
    var heads: map<Id, Head>
    var waiting: map<Id, string>
    var subscribers: map<Id, set<LiveQueue>>

    ghost predicate Valid()
      reads this
    {
      Consistent(events, heads)
    }

    function Subscribers(thread: Id): set<LiveQueue>
      reads this
    {
      if thread in subscribers then subscribers[thread] else {}
    }

    constructor ()
      ensures Valid() && events == [] && waiting == map[] && subscribers == map[]
    {
      events, heads, waiting, subscribers := [], map[], map[], map[];
    }

    /** Put an event after all others, with the next sequence of its thread. */
    method Record(thread: Id, turn: Id, time: int, payload: Payload) returns (event: Event)
      requires Valid()
      modifies this`events, this`heads
      ensures Valid()
      ensures event == Event(|ThreadEvents(old(events), thread)| + 1, thread, turn, time, payload)
      ensures events == old(events) + [event]
      ensures heads == old(heads)[thread := Head(event.sequence, time)]
    {
      HeadCounts(events, heads, thread);
      var head := if thread in heads then heads[thread].sequence else 0;
      event := Event(head + 1, thread, turn, time, payload);
      StoredConsistent(events, heads, event);
      hide Consistent;
      events := events + [event];
      heads := heads[thread := Head(event.sequence, time)];
    }

    /** Store an event after all others, with the next sequence of its thread, and hand it to the thread's
        subscribers and to no one else. A body for a turn that one waits for already stores nothing. */
    method Append(thread: Id, turn: Id, time: int, payload: Payload, waitingBody: Option<string>) returns (stored: Option<Event>)
      requires Valid()
      modifies this`events, this`heads, this`waiting, Subscribers(thread)
      ensures Valid()
      ensures stored.None? <==> waitingBody.Some? && turn in old(waiting)
      ensures stored.None? ==> events == old(events) && heads == old(heads) && waiting == old(waiting)
      ensures stored.None? ==> forall q :: q in Subscribers(thread) ==> q.items == old(q.items)
      ensures stored.Some? ==>
        && stored.value == Event(|ThreadEvents(old(events), thread)| + 1, thread, turn, time, payload)
        && events == old(events) + [stored.value]
        && heads == old(heads)[thread := Head(stored.value.sequence, time)]
        && waiting == (if waitingBody.Some? then old(waiting)[turn := waitingBody.value] else old(waiting))
        && forall q :: q in Subscribers(thread) ==> q.items == old(q.items) + [stored.value]
    {
      if waitingBody.Some? && turn in waiting {
        return None;
      }
      hide Consistent, ThreadEvents;
      var event := Record(thread, turn, time, payload);
      if waitingBody.Some? {
        waiting := waiting[turn := waitingBody.value];
      }
      stored := Some(event);
      Publish(Subscribers(thread), event);
    }

    /** Take the replay and join the thread's subscribers in one step, so that neither misses an append. */
    method Subscribe(thread: Id, after: nat) returns (stream: Stream)
      requires Valid()
      modifies this`subscribers
      ensures Valid() && fresh(stream) && fresh(stream.queue)
      ensures stream.Value() == Subscribed(ThreadEvents(events, thread), after)
      ensures stream.head == |ThreadEvents(events, thread)|
      ensures subscribers == old(subscribers)[thread := old(Subscribers(thread)) + {stream.queue}]
    {
      HeadCounts(events, heads, thread);
      var subscriber := new LiveQueue();
      var replay := Filter(ThreadEvents(events, thread), Past(after));
      var head := if thread in heads then heads[thread].sequence else 0;
      subscribers := subscribers[thread := Subscribers(thread) + {subscriber}];
      stream := new Stream(after, head, subscriber, replay);
    }

    /** Leave a thread's subscribers. The last to leave takes the thread's entry with it. */
    method Drop(thread: Id, subscriber: LiveQueue)
      requires Valid()
      modifies this`subscribers
      ensures Valid()
      ensures Subscribers(thread) == old(Subscribers(thread)) - {subscriber}
      ensures forall t :: t != thread ==> Subscribers(t) == old(Subscribers(t))
    {
      if thread !in subscribers {
        return;
      }
      subscribers := subscribers[thread := subscribers[thread] - {subscriber}];
      if subscribers[thread] == {} {
        subscribers := subscribers - {thread};
      }
    }

    function WaitingBody(turn: Id): Option<string>
      reads this
    {
      if turn in waiting then Some(waiting[turn]) else None
    }

    method DropWaitingBody(turn: Id)
      modifies this`waiting
      ensures waiting == old(waiting) - {turn}
    {
      waiting := waiting - {turn};
    }
  }

  /** The server's side of one subscription: its stream, what it read ahead, and the frames it has sent. */
  class ServerSubscription {
    const source: Stream
    var open: bool
    var buffer: seq<Entry>
    var wire: seq<Frame>

    constructor (source: Stream)
      ensures this.source == source && open && buffer == [] && wire == [SubscribedFrame(source.head)]
    {
      this.source, open, buffer, wire := source, true, [], [SubscribedFrame(source.head)];
    }

    function Value(): Connection
      reads this, source, source.queue
    {
      Connection(if open then Streaming(source.Value()) else Closed, buffer, wire)
    }

    /** Read one event ahead, or end the stream when the client holds as many as it may. */
    method FillOne()
      requires open
      modifies this, source`replay, source.queue
      ensures Value() == Fill(old(Value()))
    {
      var event := source.Pull();
      if event.None? {
        return;
      }
      if |buffer| >= SUBSCRIPTION_QUEUE_LIMIT {
        buffer := buffer + [Overflowed];
        open := false;
        return;
      }
      buffer := buffer + [Entry.Item(event.value)];
    }

    /** Send the first entry read ahead; an overflow ends the subscription with an error. */
    method DrainOne()
      requires buffer != []
      modifies this
      ensures Value() == Drain(old(Value()))
    {
      var entry := buffer[0];
      buffer := buffer[1..];
      if entry.Overflowed? {
        wire := wire + [ErrorFrame];
        wire := wire + [EndFrame];
        open, buffer := false, [];
        return;
      }
      wire := wire + [ItemFrame(entry.event)];
    }
  }

  /** The client's side of one subscription. */
  class ClientSubscription {
    const after: nat
    var lastSequence: Option<nat>
    var queued: seq<Event>
    var read: seq<Event>
    var open: bool
    var failed: bool

    constructor (after: nat)
      ensures Value() == Client(after, None, [], [], true, false)
    {
      this.after, lastSequence, queued, read, open, failed := after, None, [], [], true, false;
    }

    function Value(): Client
      reads this
    {
      Client(after, lastSequence, queued, read, open, failed)
    }

    /** Handle a reply, whichever socket it came from. */
    method Handle(frame: Frame)
      modifies this
      ensures Value() == Answer(old(Value()), frame)
    {
      if !open {
        return;
      }
      match frame
      case SubscribedFrame(_) =>
      case ItemFrame(event) =>
        if lastSequence.Some? && event.sequence <= lastSequence.value {
          return;
        }
        lastSequence := Some(event.sequence);
        queued := queued + [event];
      case ErrorFrame => open, failed := false, true;
      case EndFrame => open := false;
    }

    /** Take the next event. Once there is none, the reader meets the error, or the end, or waits. */
    method ReadNext() returns (reading: Reading)
      modifies this`queued, this`read
      ensures Value() == ReadOne(old(Value())) && reading == ReadingOf(old(Value()))
    {
      if queued != [] {
        reading := Reading.Item(queued[0]);
        queued, read := queued[1..], read + [queued[0]];
      } else if failed {
        reading := Failure;
      } else if !open {
        reading := End;
      } else {
        reading := Wait;
      }
    }

    method Cancel()
      modifies this
      ensures Value() == Cancelled(old(Value()))
    {
      open, queued, failed := false, [], false;
    }
  }
}
