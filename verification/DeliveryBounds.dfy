/** The limits of a subscription: how much the server reads ahead of a client, when it gives a stream up, and what
    the client's reader is told at the end. */
module DeliveryBounds {
  import opened Events
  import opened Delivery
  import opened DeliveryTheorem

  // ---------------------------------------------------------------- what is read ahead

  /** What is read ahead is at most 1,024 events, and after them perhaps that the stream overflowed, which ends
      it. */
  ghost predicate WithinLimit(c: Connection) {
    && (c.stage.Requested? ==> c.buffer == [])
    && (c.stage.Streaming? ==> |c.buffer| <= 1024 && forall e :: e in c.buffer ==> e.Item?)
    && |c.buffer| <= 1025
    && (forall i :: 0 <= i < |c.buffer| && c.buffer[i].Overflowed? ==> i == |c.buffer| - 1 && c.stage.Closed?)
  }

  lemma FillWithinLimit(c: Connection)
    requires WithinLimit(c) && c.stage.Streaming?
    ensures WithinLimit(Fill(c))
  {
    hide Next;
    assert forall i :: 0 <= i < |c.buffer| ==> c.buffer[i] in c.buffer;
  }

  lemma DrainWithinLimit(c: Connection)
    requires WithinLimit(c) && c.buffer != []
    ensures WithinLimit(Drain(c))
  {
    var after := Drain(c);
    if c.buffer[0].Item? {
      assert forall i :: 0 <= i < |after.buffer| ==> after.buffer[i] == c.buffer[i + 1];
    }
  }

  ghost predicate AllWithinLimit(s: System) {
    forall i :: 0 <= i < |s.connections| ==> WithinLimit(s.connections[i])
  }

  lemma AdvanceWithinLimit(s: System, threadId: Id, a: Action)
    requires AllWithinLimit(s)
    ensures AllWithinLimit(Advance(s, threadId, a))
  {
    hide Fill, Drain;
    match a
    case FillAt(i) => if i < |s.connections| && s.connections[i].stage.Streaming? { FillWithinLimit(s.connections[i]); }
    case DrainAt(i) => if i < |s.connections| && s.connections[i].buffer != [] { DrainWithinLimit(s.connections[i]); }
    case _ =>
  }

  /** Over every run, what is read ahead for a client stays within the limit. */
  lemma {:induction false} ReadAheadIsBounded(thread: seq<Event>, after: nat, threadId: Id, actions: seq<Action>)
    ensures AllWithinLimit(Run(Starting(thread, after), threadId, actions))
  {
    hide Advance, AllWithinLimit;
    if actions == [] {
      NothingReadAhead(thread, after);
    } else {
      ReadAheadIsBounded(thread, after, threadId, actions[..|actions| - 1]);
      AdvanceWithinLimit(Run(Starting(thread, after), threadId, actions[..|actions| - 1]), threadId, actions[|actions| - 1]);
    }
  }

  lemma NothingReadAhead(thread: seq<Event>, after: nat)
    ensures AllWithinLimit(Starting(thread, after))
  {
  }

  /** Reading ahead gives the stream up exactly when the client holds 1,024 events unread and another is there;
      or else it reads the first one outstanding, or waits. */
  lemma OverflowsAtTheLimit(c: Connection)
    requires c.stage.Streaming?
    ensures var after, outstanding := Fill(c), Outstanding(c.stage.source);
            && after.wire == c.wire
            && (after.stage.Closed? <==> |c.buffer| >= 1024 && outstanding != [])
            && (after.stage.Closed? ==> after.buffer == c.buffer + [Overflowed])
            && (!after.stage.Closed? ==>
                && after.stage.Streaming?
                && after.buffer == c.buffer + (if outstanding == [] then [] else [Entry.Item(outstanding[0])])
                && Outstanding(after.stage.source) == if outstanding == [] then [] else outstanding[1..])
  {
    NextIsFirst(c.stage.source);
    hide Next, Outstanding;
    var (event, source) := Next(c.stage.source);
    if event.Some? {
      assert Outstanding(c.stage.source)[1..] == Outstanding(source);
    }
  }

  /** A subscription accepted is answered with the sequence of its thread's last event. */
  lemma AcceptTellsTheHead(c: Connection, thread: seq<Event>)
    requires c.stage.Requested? && Numbered(thread)
    ensures Accept(c, thread).wire == c.wire + [SubscribedFrame(if thread == [] then 0 else thread[|thread| - 1].sequence)]
  {
  }

  // ---------------------------------------------------------------- how a subscription ended

  /** An error frame that the client handles while the subscription is open. */
  ghost predicate FailsAt(s: System, threadId: Id, actions: seq<Action>, k: nat)
    requires k < |actions|
  {
    var before, a := Run(s, threadId, actions[..k]), actions[k];
    && before.client.open && a.ReceiveAt? && a.i < |before.connections| && before.connections[a.i].wire != []
    && before.connections[a.i].wire[0] == ErrorFrame
  }

  /** An error ended the subscription, and it was not cancelled since. */
  ghost predicate EndedInError(s: System, threadId: Id, actions: seq<Action>) {
    exists k :: 0 <= k < |actions| && FailsAt(s, threadId, actions, k) && NoCancelAfter(actions, k)
  }

  predicate NoCancelAfter(actions: seq<Action>, k: nat) {
    forall j :: k < j < |actions| ==> !actions[j].Cancel?
  }

  lemma FailedAfter(s: System, threadId: Id, a: Action)
    ensures Advance(s, threadId, a).client.failed
       <==> !a.Cancel? && (s.client.failed || FailsAt(s, threadId, [a], 0))
  {
    hide Accept, Refuse, Fill, Drain, Cut;
    assert [a][..0] == [];
  }

  lemma FailsPrefix(s: System, threadId: Id, actions: seq<Action>, n: nat, k: nat)
    requires k < n <= |actions|
    ensures FailsAt(s, threadId, actions[..n], k) == FailsAt(s, threadId, actions, k)
  {
    hide Run;
    assert actions[..n][..k] == actions[..k];
  }

  lemma EndedNext(s: System, threadId: Id, actions: seq<Action>)
    requires actions != []
    ensures var n := |actions| - 1;
            var before := EndedInError(s, threadId, actions[..n]);
            EndedInError(s, threadId, actions) <==> !actions[n].Cancel? && (before || FailsAt(s, threadId, actions, n))
  {
    hide FailsAt, Run;
    var n := |actions| - 1;
    if EndedInError(s, threadId, actions[..n]) && !actions[n].Cancel? {
      var k :| 0 <= k < n && FailsAt(s, threadId, actions[..n], k) && NoCancelAfter(actions[..n], k);
      FailsPrefix(s, threadId, actions, n, k);
      assert NoCancelAfter(actions, k) by {
        assert forall j :: k < j < n ==> actions[..n][j] == actions[j];
      }
    }
    if FailsAt(s, threadId, actions, n) {
      assert NoCancelAfter(actions, n);
    }
    FailsCancelsNothing(s, threadId, actions, n);
    if EndedInError(s, threadId, actions) {
      var k :| 0 <= k < |actions| && FailsAt(s, threadId, actions, k) && NoCancelAfter(actions, k);
      if k < n {
        FailsPrefix(s, threadId, actions, n, k);
        assert NoCancelAfter(actions[..n], k);
      }
    }
  }

  lemma FailsCancelsNothing(s: System, threadId: Id, actions: seq<Action>, k: nat)
    requires k < |actions|
    ensures FailsAt(s, threadId, actions, k) ==> !actions[k].Cancel?
  {
    hide Run;
  }

  lemma FailsNext(s: System, threadId: Id, actions: seq<Action>)
    requires actions != []
    ensures var n := |actions| - 1;
            FailsAt(s, threadId, actions, n) <==> FailsAt(Run(s, threadId, actions[..n]), threadId, [actions[n]], 0)
  {
    assert [actions[|actions| - 1]][..0] == [];
  }

  /** After any run, a reader that has read all that was delivered meets the error exactly when an error frame
      ended the subscription, which was not cancelled since; it meets the end exactly when the subscription
      ended otherwise; and it waits exactly while it is open. */
  lemma {:induction false} ReaderMeetsTheEnd(thread: seq<Event>, after: nat, threadId: Id, actions: seq<Action>)
    ensures var s := Run(Starting(thread, after), threadId, actions);
            && (s.client.failed <==> EndedInError(Starting(thread, after), threadId, actions))
            && (s.client.failed ==> !s.client.open)
            && (s.client.queued == [] ==>
                  && (ReadingOf(s.client) == Failure <==> EndedInError(Starting(thread, after), threadId, actions))
                  && (ReadingOf(s.client) == Wait <==> NothingCloses(Starting(thread, after), threadId, actions)))
            && (s.client.queued != [] ==> ReadingOf(s.client) == Reading.Item(s.client.queued[0]))
  {
    hide Advance, FailsAt, EndedInError, NothingCloses;
    var start := Starting(thread, after);
    StaysOpen(start, threadId, actions);
    if actions == [] {
      assert !EndedInError(start, threadId, []) by { NothingFailed(start, threadId); }
    } else {
      var n := |actions| - 1;
      ReaderMeetsTheEnd(thread, after, threadId, actions[..n]);
      FailedAfter(Run(start, threadId, actions[..n]), threadId, actions[n]);
      EndedNext(start, threadId, actions);
      FailsNext(start, threadId, actions);
      FailedIsClosed(Run(start, threadId, actions[..n]), threadId, actions[n]);
    }
  }

  lemma NothingFailed(s: System, threadId: Id)
    ensures !EndedInError(s, threadId, [])
  {
  }

  lemma FailedIsClosed(s: System, threadId: Id, a: Action)
    requires s.client.failed ==> !s.client.open
    ensures var t := Advance(s, threadId, a); t.client.failed ==> !t.client.open
  {
    hide Accept, Refuse, Fill, Drain, Cut;
  }
}
