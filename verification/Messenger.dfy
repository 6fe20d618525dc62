/**
 * The messenger: point-to-point queues between clients and index nodes. It is a second user of the
 * stamp-then-increment protocol and of the batch queue, and it overwrites the source of every
 * message it sends.
 */
module Messenger {
  import opened Common
  import opened BatchQueue
  import opened Lamport
  import IndexNode

  type Packet = IndexNode.Packet

  /** Packets with the stamps they are sent with, while the receiving thread works on the clock. */
  function Numbered(clock: nat, packets: seq<Packet>, other: nat -> Meanwhile): seq<Stamped<Packet>> {
    seq(|packets|, k requires 0 <= k < |packets| => Stamped(Reading(clock, other, k), packets[k]))
  }

  lemma NumberedSnoc(clock: nat, packets: seq<Packet>, other: nat -> Meanwhile, i: nat)
    requires i < |packets|
    ensures Numbered(clock, packets[..i + 1], other)
         == Numbered(clock, packets[..i], other) + [Stamped(Reading(clock, other, i), packets[i])]
  {
  }

  /** Short of the wrap the packets of a batch go out as they were queued, with larger and larger stamps. */
  lemma NumberedInOrder(clock: nat, packets: seq<Packet>, other: nat -> Meanwhile, i: nat, j: nat)
    requires i < j < |packets| && NoWrap(clock, SendOps(other, j) + other(j).beforeReading)
    ensures var sent := Numbered(clock, packets, other);
            && |sent| == |packets| && sent[i].payload == packets[i]
            && clock <= sent[i].stamp < sent[j].stamp
  {
    ReadingsIncrease(clock, other, i, j);
  }

  function Messages(batch: seq<Stamped<IndexNode.IndexMessage>>): seq<IndexNode.IndexMessage> {
    seq(|batch|, k requires 0 <= k < |batch| => batch[k].payload)
  }

  /** What handling works on: the clock, and the messages handed to the handler so far. */
  datatype Progress = Progress(clock: nat, handled: seq<IndexNode.IndexMessage>)

  ghost predicate HandledOne(before: Progress, after: Progress, m: Stamped<IndexNode.IndexMessage>, other: seq<ClockOp>) {
    && after.clock == Passed(ClockAfter(before.clock, other), m.stamp)
    && after.handled == before.handled + [m.payload]
  }

  ghost predicate Handled(before: Progress, after: Progress, batch: seq<Stamped<IndexNode.IndexMessage>>, other: nat -> seq<ClockOp>) {
    && after.clock == ClockAfter(before.clock, ProcessOps(Stamps(batch), other))
    && after.handled == before.handled + Messages(batch)
  }

  /** The states passed through while the messages are handled one after the other. */
  ghost predicate Traced(trace: seq<Progress>, batch: seq<Stamped<IndexNode.IndexMessage>>, other: nat -> seq<ClockOp>) {
    |trace| <= |batch| + 1 && forall k :: 0 <= k < |trace| - 1 ==> HandledAt(trace, batch, other, k)
  }

  ghost predicate HandledAt(trace: seq<Progress>, batch: seq<Stamped<IndexNode.IndexMessage>>, other: nat -> seq<ClockOp>, k: nat)
    requires k + 1 < |trace| <= |batch| + 1
  {
    HandledOne(trace[k], trace[k + 1], batch[k], other(k))
  }

  lemma TracedSnoc(trace: seq<Progress>, next: Progress, batch: seq<Stamped<IndexNode.IndexMessage>>, other: nat -> seq<ClockOp>)
    requires 0 < |trace| <= |batch| && Traced(trace, batch, other)
    requires HandledOne(trace[|trace| - 1], next, batch[|trace| - 1], other(|trace| - 1))
    ensures Traced(trace + [next], batch, other)
  {
    forall k | 0 <= k < |trace|
      ensures HandledAt(trace + [next], batch, other, k)
    {
      if k < |trace| - 1 {
        assert HandledAt(trace, batch, other, k);
      }
    }
  }

  lemma TracedClock(trace: seq<Progress>, batch: seq<Stamped<IndexNode.IndexMessage>>, other: nat -> seq<ClockOp>)
    requires |trace| == |batch| + 1 && Traced(trace, batch, other)
    ensures trace[|batch|].clock == ClockAfter(trace[0].clock, ProcessOps(Stamps(batch), other))
  {
    var clocks := seq(|trace|, k requires 0 <= k < |trace| => trace[k].clock);
    forall k | 0 <= k < |batch|
      ensures ClockStep(clocks, Stamps(batch), other, k)
    {
      assert HandledAt(trace, batch, other, k);
      StampPassed(trace[k].clock, other(k), batch[k].stamp);
    }
    ClocksThrough(clocks, Stamps(batch), other, |batch|);
    assert Stamps(batch)[..|batch|] == Stamps(batch);
  }

  lemma {:induction false} TracedMessages(trace: seq<Progress>, batch: seq<Stamped<IndexNode.IndexMessage>>,
                                          other: nat -> seq<ClockOp>, k: nat)
    requires Traced(trace, batch, other) && k < |trace|
    ensures trace[k].handled == trace[0].handled + Messages(batch)[..k]
  {
    if k > 0 {
      TracedMessages(trace, batch, other, k - 1);
      assert HandledAt(trace, batch, other, k - 1);
    }
  }

  lemma TracedIsHandled(trace: seq<Progress>, batch: seq<Stamped<IndexNode.IndexMessage>>, other: nat -> seq<ClockOp>)
    requires |trace| == |batch| + 1 && Traced(trace, batch, other)
    ensures Handled(trace[0], trace[|batch|], batch, other)
  {
    TracedClock(trace, batch, other);
    TracedMessages(trace, batch, other, |batch|);
    assert Messages(batch)[..|batch|] == Messages(batch);
  }

  class Messenger {
    const self: Endpoint
    const clock: LamportClock
    var sendQueue: seq<Packet>
    var receiveQueue: seq<Stamped<IndexNode.IndexMessage>>
    var handled: seq<IndexNode.IndexMessage>

    constructor (self: Endpoint)
      ensures sendQueue == [] && receiveQueue == [] && handled == [] && clock.clock == 1
    {
      this.self := self;
      var c := new LamportClock();
      clock := c;
      sendQueue, receiveQueue, handled := [], [], [];
    }

    method QueueMessage(target: Endpoint, message: IndexNode.IndexMessage)
      modifies this`sendQueue
      ensures sendQueue == old(sendQueue) + [IndexNode.Packet(target, message)]
    {
      sendQueue := sendQueue + [IndexNode.Packet(target, message)];
    }

    method HandleReceived(stamp: nat, message: IndexNode.IndexMessage)
      modifies this`receiveQueue
      ensures receiveQueue == old(receiveQueue) + [Stamped(stamp, message)]
    {
      receiveQueue := receiveQueue + [Stamped(stamp, message)];
    }

    /** Takes up to ten packets from the front of the send queue. */
    method TakeOutgoing() returns (batch: seq<Packet>)
      modifies this`sendQueue
      ensures batch == old(sendQueue)[..BatchSize(old(sendQueue))]
      ensures sendQueue == old(sendQueue)[BatchSize(old(sendQueue))..]
    {
      batch := [];
      while sendQueue != [] && |batch| < MAX_BATCH_SIZE
        invariant batch + sendQueue == old(sendQueue) && |batch| <= MAX_BATCH_SIZE
        decreases |sendQueue|
      {
        batch, sendQueue := batch + [sendQueue[0]], sendQueue[1..];
      }
      assert batch == old(sendQueue)[..|batch|] && sendQueue == old(sendQueue)[|batch|..];
    }

    /**
     * Sends a batch in queue order: source overwritten, one stamp reading and increment each.
     * `other` is what the receiving thread does to the clock during each send.
     */
    method ProcessOutgoing(other: nat -> Meanwhile) returns (sent: seq<Stamped<Packet>>)
      modifies this`sendQueue, clock
      ensures var n := BatchSize(old(sendQueue));
              && sent == Numbered(old(clock.clock), IndexNode.Stamped(self, old(sendQueue)[..n]), other)
              && sendQueue == old(sendQueue)[n..]
              && clock.clock == ClockAfter(old(clock.clock), SendOps(other, n))
    {
      var batch := TakeOutgoing();
      sent := SendBatch(batch, other);
    }

    method SendBatch(batch: seq<Packet>, other: nat -> Meanwhile) returns (sent: seq<Stamped<Packet>>)
      modifies clock
      ensures sent == Numbered(old(clock.clock), IndexNode.Stamped(self, batch), other)
      ensures clock.clock == ClockAfter(old(clock.clock), SendOps(other, |batch|))
    {
      ghost var start, out := clock.clock, IndexNode.Stamped(self, batch);
      sent := [];
      for i := 0 to |batch|
        invariant sent == Numbered(start, out[..i], other)
        invariant clock.clock == ClockAfter(start, SendOps(other, i))
      {
        SendOpsStep(start, other, i);
        NumberedSnoc(start, out, other, i);
        var stamp := clock.ReadAndIncrement(other(i));
        var message := batch[i].message.(source := self);
        sent := sent + [Stamped(stamp, batch[i].(message := message))];
      }
      assert out[..|batch|] == out;
    }

    /**
     * Hands a batch of the smallest stamps to the handler, in stamp order, the clock moving first.
     * `other` is what the sending thread does to the clock before each message.
     */
    method ProcessIncoming(other: nat -> seq<ClockOp>) returns (batch: seq<Stamped<IndexNode.IndexMessage>>)
      modifies this`receiveQueue, this`handled, clock
      ensures IsBatch(old(receiveQueue), batch, receiveQueue)
      ensures clock.clock == ClockAfter(old(clock.clock), ProcessOps(Stamps(batch), other))
      ensures handled == old(handled) + Messages(batch)
    {
      batch, receiveQueue := DrainBatch(receiveQueue);
      HandleBatch(batch, other);
    }

    ghost function Done(): Progress
      reads this, clock
    {
      Progress(clock.clock, handled)
    }

    /** The clock, then the handler. */
    method HandleOne(m: Stamped<IndexNode.IndexMessage>, other: seq<ClockOp>)
      modifies this`handled, clock
      ensures HandledOne(old(Done()), Done(), m, other)
    {
      clock.PassStamp(m.stamp, other);
      handled := handled + [m.payload];
    }

    method HandleBatch(batch: seq<Stamped<IndexNode.IndexMessage>>, other: nat -> seq<ClockOp>)
      modifies this`handled, clock
      ensures Handled(old(Done()), Done(), batch, other)
    {
      ghost var trace := [Done()];
      for i := 0 to |batch|
        invariant |trace| == i + 1 && trace[0] == old(Done()) && trace[i] == Done()
        invariant Traced(trace, batch, other)
      {
        HandleOne(batch[i], other(i));
        TracedSnoc(trace, Done(), batch, other);
        trace := trace + [Done()];
      }
      TracedIsHandled(trace, batch, other);
    }
  }
}
