/**
 * The gossip node's methods as steps of the clock protocol: what a method does to the clock and to the
 * outgoing queue is what a run of `Lamport` steps does to the node's clock and outbox.
 */
module GossipSteps {
  import opened Common
  import opened BatchQueue
  import opened MessageCache
  import Lamport
  import Gossip

  /** The state after these steps. */
  ghost function Follow(s: Lamport.State, steps: seq<Lamport.Step>): (s': Lamport.State)
    requires Lamport.WellFormed(s)
    ensures Lamport.WellFormed(s')
  {
    if steps == [] then s
    else
      var before := Follow(s, steps[..|steps| - 1]);
      Lamport.NextWellFormed(before, steps[|steps| - 1]);
      Lamport.Next(before, steps[|steps| - 1])
  }

  /** Steps that follow a run prolong the run. */
  lemma {:induction false} FollowIsRun(n: nat, steps: seq<Lamport.Step>, more: seq<Lamport.Step>)
    ensures Lamport.Run(n, steps + more) == Follow(Lamport.Run(n, steps), more)
    decreases more
  {
    if more == [] {
      assert steps + more == steps;
    } else {
      var init, last := more[..|more| - 1], more[|more| - 1];
      FollowIsRun(n, steps, init);
      assert steps + more == (steps + init) + [last];
      Lamport.RunSnoc(n, steps + init, last);
    }
  }

  lemma FollowSnoc(s: Lamport.State, steps: seq<Lamport.Step>, step: Lamport.Step)
    requires Lamport.WellFormed(s)
    ensures Follow(s, steps + [step]) == Lamport.Next(Follow(s, steps), step)
  {
    assert (steps + [step])[..|steps|] == steps;
  }

  /** One step, then the same origin queued k times. */
  function StepAndQueue(step: Lamport.Step, i: nat, origin: Lamport.Origin, k: nat): seq<Lamport.Step> {
    if k == 0 then [step] else StepAndQueue(step, i, origin, k - 1) + [Lamport.Enqueue(i, origin)]
  }

  function Times(origin: Lamport.Origin, k: nat): seq<Lamport.Origin> {
    seq(k, j => origin)
  }

  /** The node's clock shows this now, and its outbox has gained k messages of this origin. */
  ghost predicate MovedOn(s: Lamport.State, s': Lamport.State, i: nat, clock: nat, origin: Lamport.Origin, k: nat) {
    && i < |s.outboxes| && i < |s'.clocks| == |s'.outboxes|
    && s'.clocks[i] == clock
    && s'.outboxes[i] == s.outboxes[i] + Times(origin, k)
  }

  lemma TimesSnoc(origin: Lamport.Origin, k: nat)
    requires k > 0
    ensures Times(origin, k) == Times(origin, k - 1) + [origin]
  {
  }

  lemma FirstStep(s: Lamport.State, step: Lamport.Step)
    requires Lamport.WellFormed(s)
    ensures Follow(s, [step]) == Lamport.Next(s, step)
  {
    assert [] + [step] == [step];
    FollowSnoc(s, [], step);
  }

  lemma QueueOne(s: Lamport.State, i: nat, origin: Lamport.Origin)
    requires Lamport.WellFormed(s) && i < |s.clocks| && Lamport.MayQueue(s.log, i, origin)
    ensures var s' := Lamport.Next(s, Lamport.Enqueue(i, origin));
            && Lamport.WellFormed(s') && s'.clocks == s.clocks
            && s'.outboxes == s.outboxes[i := s.outboxes[i] + [origin]]
            && Lamport.MayQueue(s'.log, i, origin)
  {
    Lamport.NextWellFormed(s, Lamport.Enqueue(i, origin));
    Lamport.MayQueueAppend(s.log, Lamport.Queue(i, origin), i, origin);
  }

  /** After a step that allows it, queueing k times changes nothing but the outbox. */
  lemma {:induction false} QueueMany(s: Lamport.State, step: Lamport.Step, i: nat, origin: Lamport.Origin, k: nat)
    requires Lamport.WellFormed(s) && Lamport.WellFormed(Lamport.Next(s, step))
    requires i < |Lamport.Next(s, step).clocks| && Lamport.MayQueue(Lamport.Next(s, step).log, i, origin)
    ensures var s0, s' := Lamport.Next(s, step), Follow(s, StepAndQueue(step, i, origin, k));
            && s'.clocks == s0.clocks && |s'.outboxes| == |s0.outboxes|
            && s'.outboxes[i] == s0.outboxes[i] + Times(origin, k)
            && Lamport.MayQueue(s'.log, i, origin)
  {
    if k == 0 {
      FirstStep(s, step);
    } else {
      QueueMany(s, step, i, origin, k - 1);
      var before := StepAndQueue(step, i, origin, k - 1);
      FollowSnoc(s, before, Lamport.Enqueue(i, origin));
      QueueOne(Follow(s, before), i, origin);
      TimesSnoc(origin, k);
      Associate(Lamport.Next(s, step).outboxes[i], Times(origin, k - 1), [origin]);
    }
  }

  lemma ReceiptAllowsCopies(s: Lamport.State, i: nat, m: nat)
    requires Lamport.WellFormed(s) && i < |s.clocks| && m in s.wire
    ensures var s' := Lamport.Next(s, Lamport.Receive(i, m));
            && Lamport.WellFormed(s') && s'.clocks == s.clocks && s'.outboxes == s.outboxes
            && Lamport.MayQueue(s'.log, i, Lamport.CopyOf(m))
  {
    Lamport.NextWellFormed(s, Lamport.Receive(i, m));
    assert Lamport.Next(s, Lamport.Receive(i, m)).log[|s.log|] == Lamport.Receipt(i, m);
  }

  lemma ProcessingAllowsAnswers(s: Lamport.State, i: nat, m: nat)
    requires Lamport.WellFormed(s) && i < |s.clocks| && m in s.inboxes[i]
    ensures Lamport.IsStamp(s.log, m)
    ensures var s', stamp := Lamport.Next(s, Lamport.ProcessMessage(i, m)), Lamport.StampOf(s.log, m);
            && Lamport.WellFormed(s') && s'.outboxes == s.outboxes && |s'.clocks| == |s.clocks|
            && s'.clocks[i] == Lamport.Passed(s.clocks[i], stamp)
            && Lamport.MayQueue(s'.log, i, Lamport.AnswerTo(m))
  {
    assert m in s.wire;
    Lamport.NextWellFormed(s, Lamport.ProcessMessage(i, m));
    assert Lamport.Next(s, Lamport.ProcessMessage(i, m)).log[|s.log|] == Lamport.Process(i, m);
  }

  lemma ReceivedGrows(admitted: seq<string>, admitted': seq<string>, outgoing: seq<Gossip.Outgoing>,
                      outgoing': seq<Gossip.Outgoing>, known: seq<Endpoint>, message: Gossip.GossipMessage, sender: Endpoint)
    requires Gossip.Received(admitted, admitted', outgoing, outgoing', known, message, sender)
    ensures |outgoing'| >= |outgoing|
  {
  }

  /**
   * Receiving a fresh message is a `Receive` step followed by one `Enqueue` of a copy for each peer it is
   * spread to: the clock does not see the stamp.
   */
  lemma ReceivedIsSteps(s: Lamport.State, i: nat, m: nat, admitted: seq<string>, admitted': seq<string>,
                        outgoing: seq<Gossip.Outgoing>, outgoing': seq<Gossip.Outgoing>, known: seq<Endpoint>,
                        message: Gossip.GossipMessage, sender: Endpoint)
    requires Lamport.WellFormed(s) && i < |s.clocks| && m in s.wire
    requires Gossip.Received(admitted, admitted', outgoing, outgoing', known, message, sender)
    requires message.id !in Window(admitted)
    ensures |outgoing'| >= |outgoing|
    ensures var k := |outgoing'| - |outgoing|;
            var steps := StepAndQueue(Lamport.Receive(i, m), i, Lamport.CopyOf(m), k);
            MovedOn(s, Follow(s, steps), i, s.clocks[i], Lamport.CopyOf(m), k)
  {
    ReceivedGrows(admitted, admitted', outgoing, outgoing', known, message, sender);
    ReceiveAndCopy(s, i, m, |outgoing'| - |outgoing|);
  }

  lemma ReceiveAndCopy(s: Lamport.State, i: nat, m: nat, k: nat)
    requires Lamport.WellFormed(s) && i < |s.clocks| && m in s.wire
    ensures var steps := StepAndQueue(Lamport.Receive(i, m), i, Lamport.CopyOf(m), k);
            MovedOn(s, Follow(s, steps), i, s.clocks[i], Lamport.CopyOf(m), k)
  {
    ReceiptAllowsCopies(s, i, m);
    QueueMany(s, Lamport.Receive(i, m), i, Lamport.CopyOf(m), k);
  }

  /**
   * Handling a message, once the sending thread has done its work on the clock, is a `ProcessMessage` step
   * followed by one `Enqueue` of an answer for each copy of the PONG: the clock passes the stamp before
   * anything is queued, so the guard of `Enqueue` on answers is what the code does.
   */
  lemma WorkedIsSteps(s: Lamport.State, i: nat, m: nat, before: Gossip.Progress, after: Gossip.Progress,
                      h: Gossip.Handlers, self: Endpoint, message: Stamped<Gossip.Incoming>, time: Gossip.Meantime)
    requires Lamport.WellFormed(s) && i < |s.clocks| && m in s.inboxes[i]
    requires Lamport.IsStamp(s.log, m) && Lamport.StampOf(s.log, m) == message.stamp
    requires s.clocks[i] == Lamport.ClockAfter(before.clock, time.clockOps)
    requires Gossip.WorkedOne(before, after, h, self, message, time)
    ensures |after.outgoing| >= |before.outgoing|
    ensures var k := |after.outgoing| - |before.outgoing|;
            var steps := StepAndQueue(Lamport.ProcessMessage(i, m), i, Lamport.AnswerTo(m), k);
            MovedOn(s, Follow(s, steps), i, after.clock, Lamport.AnswerTo(m), k)
  {
    WorkedGrows(before, after, h, self, message, time);
    ProcessAndAnswer(s, i, m, |after.outgoing| - |before.outgoing|);
  }

  lemma WorkedGrows(before: Gossip.Progress, after: Gossip.Progress, h: Gossip.Handlers, self: Endpoint,
                    message: Stamped<Gossip.Incoming>, time: Gossip.Meantime)
    requires Gossip.WorkedOne(before, after, h, self, message, time)
    ensures |after.outgoing| >= |before.outgoing|
  {
  }

  lemma ProcessAndAnswer(s: Lamport.State, i: nat, m: nat, k: nat)
    requires Lamport.WellFormed(s) && i < |s.clocks| && m in s.inboxes[i]
    ensures Lamport.IsStamp(s.log, m)
    ensures var steps := StepAndQueue(Lamport.ProcessMessage(i, m), i, Lamport.AnswerTo(m), k);
            MovedOn(s, Follow(s, steps), i, Lamport.Passed(s.clocks[i], Lamport.StampOf(s.log, m)), Lamport.AnswerTo(m), k)
  {
    ProcessingAllowsAnswers(s, i, m);
    QueueMany(s, Lamport.ProcessMessage(i, m), i, Lamport.AnswerTo(m), k);
  }

  /**
   * Sending a message is a `ReadStamp` step on a clock that shows what is read, and, once the processing
   * thread has done its work on the clock, an `IncrementAndSend` step.
   */
  lemma SendIsSteps(s: Lamport.State, t: Lamport.State, i: nat, stamp: nat, clock: nat)
    requires Lamport.WellFormed(s) && i < |s.clocks| && s.clocks[i] == stamp && s.senders[i].Idle? && s.outboxes[i] != []
    requires Lamport.WellFormed(t) && |t.clocks| == |s.clocks| && t.clocks[i] == clock && t.senders[i] == Lamport.Sending(|s.log|)
    ensures var s' := Lamport.Next(s, Lamport.ReadStamp(i));
            && s'.log == s.log + [Lamport.Stamp(i, stamp, s.outboxes[i][0])]
            && |s'.outboxes| == |s.outboxes| && s'.outboxes[i] == s.outboxes[i][1..]
            && s'.clocks == s.clocks && |s'.senders| == |s.senders| && s'.senders[i] == Lamport.Sending(|s.log|)
    ensures var t' := Lamport.Next(t, Lamport.IncrementAndSend(i));
            |t'.clocks| == |t.clocks| && t'.clocks[i] == Lamport.Incremented(clock) && |s.log| in t'.wire
  {
  }
}
