/**
 Telemetry batching (`delivery_loop` and `flush_pending` in telemetry.rs): events collect
 per run and leave in batches; hash-map order is any order.
 */
module Batcher {
  const BATCH_SIZE: nat := 100

  type Payload = nat

  /** What the delivery thread receives; a timeout arrives when nothing else does. */
  datatype Message = Event(run: string, payload: Payload) | Flush | Timeout | Disconnected

  datatype Batch = Batch(run: string, events: seq<Payload>)

  /** Everything delivered for a run, batch after batch. */
  function DeliveredFor(batches: seq<Batch>, run: string): seq<Payload> {
    if batches == [] then []
    else
      var last := batches[|batches| - 1];
      DeliveredFor(batches[..|batches| - 1], run) + if last.run == run then last.events else []
  }

  /** The events of a run, in the order they arrived. */
  function ReceivedFor(messages: seq<Message>, run: string): seq<Payload> {
    if messages == [] then []
    else
      var last := messages[|messages| - 1];
      ReceivedFor(messages[..|messages| - 1], run) + if last.Event? && last.run == run then [last.payload] else []
  }

  function PendingFor(pending: map<string, seq<Payload>>, run: string): seq<Payload> {
    if run in pending then pending[run] else []
  }

  predicate GoodBatches(batches: seq<Batch>) {
    forall i :: 0 <= i < |batches| ==> 1 <= |batches[i].events| <= BATCH_SIZE
  }

  /** Each run's events are exactly what was delivered, then what is pending, in order. */
  ghost predicate Conserved(messages: seq<Message>, batches: seq<Batch>, pending: map<string, seq<Payload>>) {
    forall run :: DeliveredFor(batches, run) + PendingFor(pending, run) == ReceivedFor(messages, run)
  }

  /** A run's pending events moved into a batch of its own, from the front. */
  lemma DeliverFront(messages: seq<Message>, batches: seq<Batch>, pending: map<string, seq<Payload>>, run: string, n: nat)
    requires Conserved(messages, batches, pending) && run in pending && n <= |pending[run]|
    ensures Conserved(messages, batches + [Batch(run, pending[run][..n])], pending[run := pending[run][n..]])
  {
    hide ReceivedFor;
    var events := pending[run];
    var batch, left := Batch(run, events[..n]), pending[run := events[n..]];
    assert (batches + [batch])[..|batches|] == batches;
    forall r ensures DeliveredFor(batches + [batch], r) + PendingFor(left, r) == ReceivedFor(messages, r) {
      assert DeliveredFor(batches, r) + PendingFor(pending, r) == ReceivedFor(messages, r);
      var before := DeliveredFor(batches, r);
      if r == run {
        assert DeliveredFor(batches + [batch], r) == before + events[..n];
        Rejoin(before, events, n);
      } else {
        assert DeliveredFor(batches + [batch], r) == before;
      }
    }
  }

  lemma Rejoin(before: seq<Payload>, events: seq<Payload>, n: nat)
    requires n <= |events|
    ensures before + events[..n] + events[n..] == before + events
  {
  }

  lemma ReceiveOne(messages: seq<Message>, batches: seq<Batch>, pending: map<string, seq<Payload>>, run: string, payload: Payload)
    requires Conserved(messages, batches, pending)
    ensures Conserved(messages + [Event(run, payload)], batches, pending[run := PendingFor(pending, run) + [payload]])
  {
    hide DeliveredFor;
    var more := messages + [Event(run, payload)];
    var now := pending[run := PendingFor(pending, run) + [payload]];
    assert more[..|messages|] == messages;
    forall r ensures DeliveredFor(batches, r) + PendingFor(now, r) == ReceivedFor(more, r) {
      assert DeliveredFor(batches, r) + PendingFor(pending, r) == ReceivedFor(messages, r);
      assert PendingFor(now, r) == PendingFor(pending, r) + if r == run then [payload] else [];
      assert ReceivedFor(more, r) == ReceivedFor(messages, r) + if r == run then [payload] else [];
    }
  }

  lemma ReceiveOther(messages: seq<Message>, batches: seq<Batch>, pending: map<string, seq<Payload>>, message: Message)
    requires Conserved(messages, batches, pending) && !message.Event?
    ensures Conserved(messages + [message], batches, pending)
  {
    forall r ensures DeliveredFor(batches, r) + PendingFor(pending, r) == ReceivedFor(messages + [message], r) {
      assert (messages + [message])[..|messages|] == messages;
    }
  }

  lemma DropEmpty(messages: seq<Message>, batches: seq<Batch>, pending: map<string, seq<Payload>>)
    requires Conserved(messages, batches, pending) && forall run :: run in pending ==> pending[run] == []
    ensures Conserved(messages, batches, map[])
  {
    forall r ensures DeliveredFor(batches, r) + PendingFor(map[], r) == ReceivedFor(messages, r) {
      assert PendingFor(pending, r) == PendingFor(map[], r);
    }
  }

  /** Nothing pending, nothing lost: what was delivered for a run is what arrived for it. */
  lemma FlushedIsComplete(messages: seq<Message>, batches: seq<Batch>, run: string)
    requires Conserved(messages, batches, map[])
    ensures DeliveredFor(batches, run) == ReceivedFor(messages, run)
  {
    assert DeliveredFor(batches, run) + PendingFor(map[], run) == ReceivedFor(messages, run);
  }

  /** An order in which a hash map may hand out these keys. */
  ghost predicate Enumerates(order: seq<string>, keys: set<string>) {
    (forall run :: run in order <==> run in keys) && forall i, j :: 0 <= i < j < |order| ==> order[i] != order[j]
  }

  /** One batch for each of the runs, with everything pending for it. */
  function Drained(pending: map<string, seq<Payload>>, order: seq<string>): seq<Batch> {
    if order == [] then []
    else
      var run := order[|order| - 1];
      Drained(pending, order[..|order| - 1]) + [Batch(run, PendingFor(pending, run))]
  }

  /** The runs with events that are not among these. */
  function NonEmptyBut(pending: map<string, seq<Payload>>, remaining: set<string>): set<string> {
    set run | run in pending && run !in remaining && pending[run] != []
  }

  lemma NoneDrained(pending: map<string, seq<Payload>>)
    ensures Enumerates([], NonEmptyBut(pending, pending.Keys)) && Drained(pending, []) == []
  {
  }

  lemma OneMoreDrained(pending: map<string, seq<Payload>>, order: seq<string>, run: string, remaining: set<string>)
    requires run in remaining && run in pending && Enumerates(order, NonEmptyBut(pending, remaining))
    ensures Enumerates(if pending[run] == [] then order else order + [run], NonEmptyBut(pending, remaining - {run}))
    ensures Drained(pending, order + [run]) == Drained(pending, order) + [Batch(run, pending[run])]
  {
    assert (order + [run])[..|order|] == order;
    var before, after := NonEmptyBut(pending, remaining), NonEmptyBut(pending, remaining - {run});
    if pending[run] == [] {
      assert after == before;
    } else {
      assert after == before + {run} && run !in order;
      forall r ensures r in order + [run] <==> r in after {
      }
    }
  }

  // ---------------------------------------------------------------- the delivery thread

  class DeliveryThread {
    var pendingByRun: map<string, seq<Payload>>
    var delivered: seq<Batch>
    ghost var received: seq<Message>

    /** No run has a full batch waiting, every batch is of legal size, and no event is lost, repeated or reordered. */
    ghost predicate Valid()
      reads this
    {
      && (forall run :: run in pendingByRun ==> |pendingByRun[run]| < BATCH_SIZE)
      && GoodBatches(delivered)
      && Conserved(received, delivered, pendingByRun)
    }

    constructor ()
      ensures Valid() && received == [] && delivered == [] && pendingByRun == map[]
    {
      pendingByRun, delivered, received := map[], [], [];
    }

    method Deliver(batch: Batch)
      modifies `delivered
      ensures delivered == old(delivered) + [batch]
    {
      delivered := delivered + [batch];
    }

    /** `flush_pending`: drain each run, in hash order, a batch at a time: one batch for each run that has events. */
    method FlushPending() returns (ghost order: seq<string>)
      requires Valid()
      modifies `pendingByRun, `delivered
      ensures Valid() && pendingByRun == map[]
      ensures Enumerates(order, NonEmptyBut(old(pendingByRun), {}))
      ensures delivered == old(delivered) + Drained(old(pendingByRun), order)
    {
      hide Conserved, DeliveredFor, ReceivedFor, GoodBatches, Drained, Enumerates;
      ghost var before := pendingByRun;
      order := [];
      NoneDrained(before);
      var remaining := pendingByRun.Keys;
      while remaining != {}
        invariant remaining <= pendingByRun.Keys == before.Keys
        invariant forall run :: run in pendingByRun ==> pendingByRun[run] == if run in remaining then before[run] else []
        invariant Enumerates(order, NonEmptyBut(before, remaining))
        invariant delivered == old(delivered) + Drained(before, order)
        invariant GoodBatches(delivered) && Conserved(received, delivered, pendingByRun)
        decreases |remaining|
      {
        var run :| run in remaining;
        FlushRun(run);
        OneMoreDrained(before, order, run, remaining);
        order := if before[run] == [] then order else order + [run];
        remaining := remaining - {run};
      }
      DropEmpty(received, delivered, pendingByRun);
      pendingByRun := map[];
    }

    /** One run's events, a batch at a time. */
    method FlushRun(run: string)
      requires run in pendingByRun && |pendingByRun[run]| < BATCH_SIZE
      requires GoodBatches(delivered) && Conserved(received, delivered, pendingByRun)
      modifies `pendingByRun, `delivered
      ensures GoodBatches(delivered) && Conserved(received, delivered, pendingByRun)
      ensures pendingByRun == old(pendingByRun)[run := []]
      ensures delivered == old(delivered)
        + if old(pendingByRun)[run] == [] then [] else [Batch(run, old(pendingByRun)[run])]
    {
      hide Conserved, DeliveredFor, ReceivedFor;
      while pendingByRun[run] != []
        invariant run in pendingByRun && pendingByRun == old(pendingByRun)[run := pendingByRun[run]]
        invariant GoodBatches(delivered) && Conserved(received, delivered, pendingByRun)
        invariant (pendingByRun == old(pendingByRun) && delivered == old(delivered))
          || (pendingByRun[run] == [] && old(pendingByRun)[run] != []
              && delivered == old(delivered) + [Batch(run, old(pendingByRun)[run])])
        decreases |pendingByRun[run]|
      {
        var events := pendingByRun[run];
        var n := if |events| < BATCH_SIZE then |events| else BATCH_SIZE;
        assert events[..n] == events && events[n..] == [];
        DeliverFront(received, delivered, pendingByRun, run, n);
        pendingByRun := pendingByRun[run := events[n..]];
        Deliver(Batch(run, events[..n]));
      }
    }

    /** One turn of the loop; the answer is whether the channel closed. */
    method Receive(message: Message) returns (closed: bool)
      requires Valid()
      modifies this
      ensures Valid() && received == old(received) + [message]
      ensures closed <==> message.Disconnected?
      ensures !message.Event? ==>
        pendingByRun == map[]
        && exists order ::
             Enumerates(order, NonEmptyBut(old(pendingByRun), {}))
             && delivered == old(delivered) + Drained(old(pendingByRun), order)
      ensures message.Event? ==>
        var events := PendingFor(old(pendingByRun), message.run) + [message.payload];
        && (forall run :: run != message.run ==> PendingFor(pendingByRun, run) == PendingFor(old(pendingByRun), run))
        && PendingFor(pendingByRun, message.run) == (if |events| == BATCH_SIZE then [] else events)
        && delivered == old(delivered) + if |events| == BATCH_SIZE then [Batch(message.run, events)] else []
    {
      hide Conserved, DeliveredFor, ReceivedFor;
      match message {
        case Event(run, payload) =>
          ReceiveOne(received, delivered, pendingByRun, run, payload);
          received := received + [message];
          pendingByRun := pendingByRun[run := PendingFor(pendingByRun, run) + [payload]];
          if |pendingByRun[run]| >= BATCH_SIZE {
            var events := pendingByRun[run];
            DeliverFront(received, delivered, pendingByRun, run, |events|);
            assert events[..|events|] == events && events[|events|..] == [];
            pendingByRun := pendingByRun[run := []];
            Deliver(Batch(run, events));
          }
          closed := false;
        case _ =>
          ReceiveOther(received, delivered, pendingByRun, message);
          received := received + [message];
          ghost var order := FlushPending();
          closed := message == Disconnected;
      }
    }

    /** `delivery_loop`, over any interleaving of events, flushes, timeouts and the end. */
    method DeliveryLoop(messages: seq<Message>)
      requires Valid() && received == []
      modifies this
      ensures Valid() && received <= messages
      ensures Disconnected in messages ==>
        received != [] && received[|received| - 1] == Disconnected && pendingByRun == map[]
        && forall run :: DeliveredFor(delivered, run) == ReceivedFor(received, run)
      ensures Disconnected !in messages ==> received == messages
    {
      var i := 0;
      while i < |messages|
        invariant 0 <= i <= |messages| && Valid() && received == messages[..i]
        invariant Disconnected !in messages[..i]
      {
        hide Valid;
        assert messages[..i + 1] == messages[..i] + [messages[i]];
        var closed := Receive(messages[i]);
        if closed {
          assert received[|received| - 1] == Disconnected;
          AllDelivered();
          return;
        }
        i := i + 1;
      }
      assert messages[..i] == messages;
    }

    lemma AllDelivered()
      requires Valid() && pendingByRun == map[]
      ensures forall run :: DeliveredFor(delivered, run) == ReceivedFor(received, run)
    {
      forall run ensures DeliveredFor(delivered, run) == ReceivedFor(received, run) {
        FlushedIsComplete(received, delivered, run);
      }
    }
  }
}
