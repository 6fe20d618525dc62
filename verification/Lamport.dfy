/**
 * Lamport clocks at lock granularity. Each node has one clock behind a mutex and two threads: the
 * sender reads the stamp and increments in two separate lock sections, and the processing thread
 * may update the clock in between.
 */
module Lamport {

  const TWO_64: nat := 0x1_0000_0000_0000_0000

  /** `clock++` on a `uint64_t`. */
  function Incremented(clock: nat): nat {
    (clock + 1) % TWO_64
  }

  /** `clock = max(clock, update_val) + 1` on a `uint64_t`. */
  function Updated(clock: nat, stamp: nat): nat {
    Incremented(if clock > stamp then clock else stamp)
  }

  /** Both are arithmetic on 64 bits: one more, and after 2^64 - 1 comes 0. */
  lemma SixtyFourBits(clock: nat, stamp: nat)
    requires clock <= 0xFFFF_FFFF_FFFF_FFFF && stamp <= 0xFFFF_FFFF_FFFF_FFFF
    ensures Incremented(clock) == if clock == 0xFFFF_FFFF_FFFF_FFFF then 0 else clock + 1
    ensures clock >= stamp ==> Updated(clock, stamp) == Incremented(clock)
    ensures clock < stamp ==> Updated(clock, stamp) == Incremented(stamp)
  {
  }

  /** The clock after a message is taken up: past its stamp, if it has one. */
  function Passed(clock: nat, stamp: nat): nat {
    if stamp > 0 then Updated(clock, stamp) else clock
  }

  /** A lock section that changes the clock. */
  datatype ClockOp = Increment | Update(stamp: nat)

  function Performed(clock: nat, op: ClockOp): nat {
    match op
    case Increment => Incremented(clock)
    case Update(stamp) => Updated(clock, stamp)
  }

  function ClockAfter(clock: nat, ops: seq<ClockOp>): nat {
    if ops == [] then clock else Performed(ClockAfter(clock, ops[..|ops| - 1]), ops[|ops| - 1])
  }

  /** None of these operations makes the 64-bit clock wrap. */
  ghost predicate NoWrap(clock: nat, ops: seq<ClockOp>) {
    ops == [] ||
    (var init, op := ops[..|ops| - 1], ops[|ops| - 1];
     NoWrap(clock, init) && ClockAfter(clock, init) < TWO_64 - 1 && (op.Update? ==> op.stamp < TWO_64 - 1))
  }

  /** Short of the wrap an operation sets the clock to one more than all it has seen. */
  lemma PerformedValue(clock: nat, op: ClockOp)
    requires clock < TWO_64 - 1 && (op.Update? ==> op.stamp < TWO_64 - 1)
    ensures Performed(clock, op) == if op.Update? && op.stamp > clock then op.stamp + 1 else clock + 1
  {
  }

  /** Short of the wrap, the clock gains at least one with every operation and passes every stamp. */
  lemma {:induction false} ClockPassesStamps(clock: nat, ops: seq<ClockOp>)
    requires NoWrap(clock, ops)
    ensures clock + |ops| <= ClockAfter(clock, ops)
    ensures forall k :: 0 <= k < |ops| && ops[k].Update? ==> ops[k].stamp < ClockAfter(clock, ops)
  {
    if ops != [] {
      var init, op := ops[..|ops| - 1], ops[|ops| - 1];
      ClockPassesStamps(clock, init);
      PerformedValue(ClockAfter(clock, init), op);
      assert forall k :: 0 <= k < |init| ==> ops[k] == init[k];
    }
  }

  /**
   * A clock started at the given value has gone beyond x by counting its operations alone, or by
   * counting on from some stamp it was brought up to.
   */
  ghost predicate Beyond(clock: nat, ops: seq<ClockOp>, x: nat) {
    || clock + |ops| > x
    || exists k :: 0 <= k < |ops| && ops[k].Update? && ops[k].stamp + (|ops| - k) > x
  }

  /** What a clock shows, without running it: it is the largest of all such counts. */
  lemma {:induction false} ClockClosedForm(clock: nat, ops: seq<ClockOp>, x: nat)
    requires NoWrap(clock, ops)
    ensures ClockAfter(clock, ops) > x <==> Beyond(clock, ops, x)
  {
    ClockPassesStamps(clock, ops);
    if ops != [] && x > 0 {
      var init, op := ops[..|ops| - 1], ops[|ops| - 1];
      PerformedValue(ClockAfter(clock, init), op);
      ClockClosedForm(clock, init, x - 1);
      BeyondSnoc(clock, init, op, x);
      assert ops == init + [op];
    }
  }

  lemma BeyondSnoc(clock: nat, init: seq<ClockOp>, op: ClockOp, x: nat)
    requires x > 0
    ensures Beyond(clock, init + [op], x) <==> Beyond(clock, init, x - 1) || (op.Update? && op.stamp + 1 > x)
  {
    var ops := init + [op];
    if op.Update? && op.stamp + 1 > x {
      assert ops[|init|] == op;
    }
    if k :| 0 <= k < |init| && init[k].Update? && init[k].stamp + (|init| - k) > x - 1 {
      assert ops[k] == init[k];
    }
  }

  lemma {:induction false} ClockAfterAppend(clock: nat, a: seq<ClockOp>, b: seq<ClockOp>)
    ensures ClockAfter(clock, a + b) == ClockAfter(ClockAfter(clock, a), b)
    decreases b
  {
    if b == [] {
      assert a + b == a;
    } else {
      ClockAfterAppend(clock, a, b[..|b| - 1]);
      assert (a + b)[..|a + b| - 1] == a + b[..|b| - 1];
    }
  }

  class LamportClock {
    var clock: nat

    constructor ()
      ensures clock == 1
    {
      clock := 1;
    }

    method IncrementClock()
      modifies this
      ensures clock == Incremented(old(clock))
    {
      clock := (clock + 1) % TWO_64;
    }

    method UpdateClock(stamp: nat)
      modifies this
      ensures clock == Updated(old(clock), stamp)
    {
      var larger := clock;
      if clock < stamp {
        larger := stamp;
      }
      clock := (larger + 1) % TWO_64;
    }

    method GetClock() returns (now: nat)
      ensures now == clock
    {
      now := clock;
    }

    /** The lock sections another thread gets in while the calling thread does not hold the lock. */
    method Perform(ops: seq<ClockOp>)
      modifies this
      ensures clock == ClockAfter(old(clock), ops)
    {
      for i := 0 to |ops|
        invariant clock == ClockAfter(old(clock), ops[..i])
      {
        assert ops[..i + 1][..i] == ops[..i];
        match ops[i]
        case Increment => IncrementClock();
        case Update(stamp) => UpdateClock(stamp);
      }
      assert ops[..|ops|] == ops;
    }

    /** One send: read the stamp, then increment, the other thread getting in before and in between. */
    method ReadAndIncrement(other: Meanwhile) returns (stamp: nat)
      modifies this
      ensures stamp == ClockAfter(old(clock), other.beforeReading)
      ensures clock == Incremented(ClockAfter(stamp, other.beforeIncrement))
    {
      Perform(other.beforeReading);
      stamp := GetClock();
      Perform(other.beforeIncrement);
      IncrementClock();
    }

    /** One message taken up: the clock passes its stamp, if it has one, the other thread getting in before. */
    method PassStamp(stamp: nat, other: seq<ClockOp>)
      modifies this
      ensures clock == Passed(ClockAfter(old(clock), other), stamp)
    {
      Perform(other);
      if stamp > 0 {
        UpdateClock(stamp);
      }
    }
  }

  // ----- One batch of a thread, the other thread interfering -----

  /** What the other thread does to the clock during one send: before the reading, and after it. */
  datatype Meanwhile = Meanwhile(beforeReading: seq<ClockOp>, beforeIncrement: seq<ClockOp>)

  /** The lock sections of the first k sends of a batch, in order. */
  function SendOps(other: nat -> Meanwhile, k: nat): seq<ClockOp> {
    if k == 0 then []
    else SendOps(other, k - 1) + other(k - 1).beforeReading + other(k - 1).beforeIncrement + [Increment]
  }

  /** The stamp read by send k of a batch. */
  function Reading(clock: nat, other: nat -> Meanwhile, k: nat): nat {
    ClockAfter(clock, SendOps(other, k) + other(k).beforeReading)
  }

  lemma SendOpsStep(clock: nat, other: nat -> Meanwhile, k: nat)
    ensures Reading(clock, other, k) == ClockAfter(ClockAfter(clock, SendOps(other, k)), other(k).beforeReading)
    ensures ClockAfter(clock, SendOps(other, k + 1)) == Incremented(ClockAfter(Reading(clock, other, k), other(k).beforeIncrement))
  {
    var ops := SendOps(other, k) + other(k).beforeReading;
    ClockAfterAppend(clock, SendOps(other, k), other(k).beforeReading);
    ClockAfterAppend(clock, ops, other(k).beforeIncrement);
    assert (ops + other(k).beforeIncrement + [Increment])[..|ops + other(k).beforeIncrement|] == ops + other(k).beforeIncrement;
  }

  lemma {:induction false} SendOpsPrefix(other: nat -> Meanwhile, k: nat, n: nat)
    requires k < n
    ensures SendOps(other, k) + other(k).beforeReading <= SendOps(other, n)
    decreases n
  {
    if k + 1 < n {
      SendOpsPrefix(other, k, n - 1);
    }
  }

  lemma {:induction false} NoWrapSplit(clock: nat, a: seq<ClockOp>, b: seq<ClockOp>)
    requires NoWrap(clock, a + b)
    ensures NoWrap(clock, a) && NoWrap(ClockAfter(clock, a), b)
    decreases b
  {
    if b == [] {
      assert a + b == a;
    } else {
      var init := b[..|b| - 1];
      assert (a + b)[..|a + b| - 1] == a + init;
      NoWrapSplit(clock, a, init);
      ClockAfterAppend(clock, a, init);
    }
  }

  /** Going through more operations leaves the clock larger by at least their number. */
  lemma ClockGains(clock: nat, a: seq<ClockOp>, b: seq<ClockOp>)
    requires a <= b && NoWrap(clock, b)
    ensures ClockAfter(clock, a) + (|b| - |a|) <= ClockAfter(clock, b)
  {
    var rest := b[|a|..];
    assert b == a + rest;
    NoWrapSplit(clock, a, rest);
    ClockAfterAppend(clock, a, rest);
    ClockPassesStamps(ClockAfter(clock, a), rest);
  }

  /**
   * Short of the wrap, the stamps of a batch strictly increase in sending order, whatever the
   * other thread does to the clock between and inside the sends.
   */
  lemma ReadingsIncrease(clock: nat, other: nat -> Meanwhile, i: nat, j: nat)
    requires i < j && NoWrap(clock, SendOps(other, j) + other(j).beforeReading)
    ensures clock <= Reading(clock, other, i) < Reading(clock, other, j)
  {
    var a, b := SendOps(other, i) + other(i).beforeReading, SendOps(other, j) + other(j).beforeReading;
    SendOpsPrefix(other, i, j);
    SendOpsLonger(other, i, j);
    assert a <= SendOps(other, j) <= b;
    assert b == a + b[|a|..];
    NoWrapSplit(clock, a, b[|a|..]);
    ClockGains(clock, [], a);
    ClockGains(clock, a, b);
  }

  lemma {:induction false} SendOpsLonger(other: nat -> Meanwhile, k: nat, n: nat)
    requires k < n
    ensures |SendOps(other, k)| + |other(k).beforeReading| < |SendOps(other, n)|
    decreases n
  {
    if k + 1 < n {
      SendOpsLonger(other, k, n - 1);
    }
  }

  /** A stamp of 0 means there is none. */
  function StampOps(stamp: nat): seq<ClockOp> {
    if stamp > 0 then [Update(stamp)] else []
  }

  lemma StampPassed(clock: nat, ops: seq<ClockOp>, stamp: nat)
    ensures ClockAfter(clock, ops + StampOps(stamp)) == Passed(ClockAfter(clock, ops), stamp)
  {
    if stamp > 0 {
      assert (ops + [Update(stamp)])[..|ops|] == ops;
    } else {
      assert ops + [] == ops;
    }
  }

  /** The lock sections while messages with these stamps are processed. */
  function ProcessOps(stamps: seq<nat>, other: nat -> seq<ClockOp>): seq<ClockOp> {
    if stamps == [] then []
    else
      var init, stamp := stamps[..|stamps| - 1], stamps[|stamps| - 1];
      ProcessOps(init, other) + (other(|init|) + StampOps(stamp))
  }

  lemma ProcessOpsStep(clock: nat, stamps: seq<nat>, other: nat -> seq<ClockOp>, k: nat)
    requires k < |stamps|
    ensures ClockAfter(clock, ProcessOps(stamps[..k + 1], other))
         == ClockAfter(ClockAfter(clock, ProcessOps(stamps[..k], other)), other(k) + StampOps(stamps[k]))
  {
    assert stamps[..k + 1][..k] == stamps[..k];
    ClockAfterAppend(clock, ProcessOps(stamps[..k], other), other(k) + StampOps(stamps[k]));
  }

  ghost predicate ClockStep(clocks: seq<nat>, stamps: seq<nat>, other: nat -> seq<ClockOp>, k: nat)
    requires k + 1 < |clocks| <= |stamps| + 1
  {
    clocks[k + 1] == ClockAfter(clocks[k], other(k) + StampOps(stamps[k]))
  }

  /** Clocks that follow one another through the messages show what all the lock sections make of the first. */
  lemma {:induction false} ClocksThrough(clocks: seq<nat>, stamps: seq<nat>, other: nat -> seq<ClockOp>, k: nat)
    requires k < |clocks| <= |stamps| + 1
    requires forall j :: 0 <= j < |clocks| - 1 ==> ClockStep(clocks, stamps, other, j)
    ensures clocks[k] == ClockAfter(clocks[0], ProcessOps(stamps[..k], other))
  {
    if k > 0 {
      ClocksThrough(clocks, stamps, other, k - 1);
      assert ClockStep(clocks, stamps, other, k - 1);
      ProcessOpsStep(clocks[0], stamps, other, k - 1);
    }
  }

  /** Short of the wrap, processing a batch moves the clock past every stamp in it. */
  lemma BatchPassed(clock: nat, stamps: seq<nat>, other: nat -> seq<ClockOp>, k: nat)
    requires k < |stamps| && stamps[k] > 0 && NoWrap(clock, ProcessOps(stamps, other))
    ensures clock <= ClockAfter(clock, ProcessOps(stamps, other))
    ensures stamps[k] < ClockAfter(clock, ProcessOps(stamps, other))
  {
    var at := StampAmongOps(stamps, other, k);
    ClockPassesStamps(clock, ProcessOps(stamps, other));
  }

  lemma {:induction false} StampAmongOps(stamps: seq<nat>, other: nat -> seq<ClockOp>, k: nat) returns (at: nat)
    requires k < |stamps| && stamps[k] > 0
    ensures at < |ProcessOps(stamps, other)| && ProcessOps(stamps, other)[at] == Update(stamps[k])
  {
    var init := stamps[..|stamps| - 1];
    if k == |init| {
      at := |ProcessOps(init, other)| + |other(|init|)|;
    } else {
      at := StampAmongOps(init, other, k);
    }
  }

  // ----- N nodes exchanging stamped messages -----

  /** Why a message was queued: on the node's own account, to relay a message, or to answer one. */
  datatype Origin = Fresh | CopyOf(message: nat) | AnswerTo(message: nat)

  /** What happened, in the order it happened. A message is named by the index of its Stamp. */
  datatype Event =
    | Queue(node: nat, origin: Origin)
    | Stamp(node: nat, stamp: nat, origin: Origin)
    | Tick(node: nat)
    | Receipt(node: nat, message: nat)
    | Process(node: nat, message: nat)

  datatype Sender = Idle | Sending(message: nat)

  datatype State = State(
    clocks: seq<nat>,
    outboxes: seq<seq<Origin>>,
    senders: seq<Sender>,
    wire: set<nat>,
    inboxes: seq<set<nat>>,
    log: seq<Event>)

  /**
   * `Enqueue` is a lock section of its own: a relayed copy is queued some time after its receipt,
   * an answer some time after the processing that updated the clock.
   */
  datatype Step =
    | Enqueue(node: nat, origin: Origin)
    | ReadStamp(node: nat)
    | IncrementAndSend(node: nat)
    | Receive(node: nat, message: nat)
    | ProcessMessage(node: nat, message: nat)

  function Init(n: nat): State {
    State(seq(n, i => 1), seq(n, i => []), seq(n, i => Idle), {}, seq(n, i => {}), [])
  }

  ghost predicate WellFormed(s: State) {
    && |s.clocks| == |s.outboxes| == |s.senders| == |s.inboxes|
    && (forall m :: m in s.wire ==> IsStamp(s.log, m))
    && (forall i :: 0 <= i < |s.inboxes| ==> s.inboxes[i] <= s.wire)
    && (forall i :: 0 <= i < |s.senders| && s.senders[i].Sending? ==> IsStamp(s.log, s.senders[i].message))
  }

  predicate IsStamp(log: seq<Event>, m: nat) {
    m < |log| && log[m].Stamp?
  }

  function StampOf(log: seq<Event>, m: nat): nat
    requires IsStamp(log, m)
  {
    log[m].stamp
  }

  /** A node relays what it has received and answers what it has processed. */
  predicate MayQueue(log: seq<Event>, i: nat, origin: Origin) {
    match origin
    case Fresh => true
    case CopyOf(m) => Receipt(i, m) in log
    case AnswerTo(m) => Process(i, m) in log
  }

  predicate Enabled(s: State, step: Step)
    requires WellFormed(s)
  {
    && step.node < |s.clocks|
    && match step
       case Enqueue(i, origin) => MayQueue(s.log, i, origin)
       case ReadStamp(i) => s.senders[i].Idle? && s.outboxes[i] != []
       case IncrementAndSend(i) => s.senders[i].Sending?
       case Receive(_, m) => m in s.wire
       case ProcessMessage(i, m) => m in s.inboxes[i]
  }

  /** The event a step logs. */
  function Logged(s: State, step: Step): Event
    requires WellFormed(s) && Enabled(s, step)
  {
    match step
    case Enqueue(i, origin) => Queue(i, origin)
    case ReadStamp(i) => Stamp(i, s.clocks[i], s.outboxes[i][0])
    case IncrementAndSend(i) => Tick(i)
    case Receive(i, m) => Receipt(i, m)
    case ProcessMessage(i, m) => Process(i, m)
  }

  /** A step that is not enabled leaves the state alone. Delivery may lose, repeat and reorder. */
  function Next(s: State, step: Step): State
    requires WellFormed(s)
  {
    if !Enabled(s, step) then s else Moved(s, step).(log := s.log + [Logged(s, step)])
  }

  function Moved(s: State, step: Step): State
    requires WellFormed(s) && Enabled(s, step)
  {
    match step
    case Enqueue(i, origin) => s.(outboxes := s.outboxes[i := s.outboxes[i] + [origin]])
    case ReadStamp(i) =>
      s.(outboxes := s.outboxes[i := s.outboxes[i][1..]], senders := s.senders[i := Sending(|s.log|)])
    case IncrementAndSend(i) =>
      s.(clocks := s.clocks[i := Incremented(s.clocks[i])],
         wire := s.wire + {s.senders[i].message},
         senders := s.senders[i := Idle])
    case Receive(i, m) => s.(inboxes := s.inboxes[i := s.inboxes[i] + {m}])
    case ProcessMessage(i, m) =>
      var stamp := StampOf(s.log, m);
      s.(clocks := if stamp > 0 then s.clocks[i := Updated(s.clocks[i], stamp)] else s.clocks,
         inboxes := s.inboxes[i := s.inboxes[i] - {m}])
  }

  lemma NextLogs(s: State, step: Step)
    requires WellFormed(s)
    ensures !Enabled(s, step) ==> Next(s, step) == s
    ensures Enabled(s, step) ==> Next(s, step).log == s.log + [Logged(s, step)]
  {
  }

  /** Clock steps taken so far by all nodes together. */
  function ClockSteps(log: seq<Event>): (c: nat)
    ensures c <= |log|
  {
    if log == [] then 0
    else ClockSteps(log[..|log| - 1]) + if log[|log| - 1].Tick? || log[|log| - 1].Process? then 1 else 0
  }

  /** Message a was stamped before message b by the same node, or processed there before b was stamped. */
  ghost predicate DirectlyBefore(log: seq<Event>, a: nat, b: nat) {
    && a < b && IsStamp(log, a) && IsStamp(log, b)
    && (log[a].node == log[b].node || ProcessedBy(log, a, log[b].node, b))
  }

  ghost predicate ProcessedBy(log: seq<Event>, a: nat, node: nat, before: nat) {
    exists p :: a < p < before && p < |log| && log[p] == Process(node, a)
  }

  /** A chain of messages, each directly before the next: a witness of happens-before. */
  ghost predicate Chain(log: seq<Event>, path: seq<nat>) {
    forall k :: 0 < k < |path| ==> DirectlyBefore(log, path[k - 1], path[k])
  }

  ghost predicate HappensBefore(log: seq<Event>, a: nat, b: nat) {
    exists path: seq<nat> :: |path| > 1 && path[0] == a && path[|path| - 1] == b && Chain(log, path)
  }

  // ----- Invariants -----

  /** Every clock and stamp is at least 1 and at most 1 plus the clock steps taken so far. */
  ghost predicate Bounded(s: State) {
    && (forall i :: 0 <= i < |s.clocks| ==> 1 <= s.clocks[i] <= 1 + ClockSteps(s.log))
    && (forall m: nat :: IsStamp(s.log, m) ==> 1 <= StampOf(s.log, m) <= 1 + ClockSteps(s.log))
  }

  /** A clock has passed every stamp its node issued or processed, but for the one being sent. */
  ghost predicate Ahead(s: State)
    requires WellFormed(s)
  {
    forall e :: 0 <= e < |s.log| ==> AheadOf(s, e)
  }

  ghost predicate AheadOf(s: State, e: nat)
    requires WellFormed(s) && e < |s.log|
  {
    match s.log[e]
    case Stamp(i, ts, _) =>
      i < |s.clocks| && ts <= s.clocks[i] && (s.senders[i] != Sending(e) ==> ts < s.clocks[i])
    case Receipt(_, m) => m < e && IsStamp(s.log, m)
    case Process(i, m) => i < |s.clocks| && m < e && IsStamp(s.log, m) && StampOf(s.log, m) < s.clocks[i]
    case _ => true
  }

  ghost predicate Ordered(log: seq<Event>) {
    forall a: nat, b: nat :: DirectlyBefore(log, a, b) ==> StampOf(log, a) < StampOf(log, b)
  }

  /** A queued copy was received by its node, a queued answer's cause was processed there. */
  ghost predicate OutboxesJustified(s: State)
    requires WellFormed(s)
  {
    forall i, k :: 0 <= i < |s.outboxes| && 0 <= k < |s.outboxes[i]| ==> MayQueue(s.log, i, s.outboxes[i][k])
  }

  /** A stamped copy was received before by its node, a stamped answer's cause was processed there. */
  ghost predicate Justified(log: seq<Event>) {
    forall b :: 0 <= b < |log| && log[b].Stamp? ==> MayQueue(log[..b], log[b].node, log[b].origin)
  }

  /** Messages leave a node in the order they were queued. */
  ghost predicate Fifo(s: State)
    requires WellFormed(s)
  {
    forall i :: 0 <= i < |s.outboxes| ==> QueuedBy(s.log, i) == SentBy(s.log, i) + s.outboxes[i]
  }

  function QueuedBy(log: seq<Event>, i: nat): seq<Origin> {
    if log == [] then []
    else
      var e := log[|log| - 1];
      QueuedBy(log[..|log| - 1], i) + if e.Queue? && e.node == i then [e.origin] else []
  }

  function SentBy(log: seq<Event>, i: nat): seq<Origin> {
    if log == [] then []
    else
      var e := log[|log| - 1];
      SentBy(log[..|log| - 1], i) + if e.Stamp? && e.node == i then [e.origin] else []
  }

  /** What the node sent and processed so far, as operations on its clock. */
  function OpsOf(log: seq<Event>, i: nat): seq<ClockOp> {
    if log == [] then []
    else OpsOf(log[..|log| - 1], i) + OpsOfEvent(log, log[|log| - 1], i)
  }

  function OpsOfEvent(log: seq<Event>, e: Event, i: nat): seq<ClockOp> {
    match e
    case Tick(j) => if j == i then [Increment] else []
    case Process(j, m) => if j == i && IsStamp(log, m) then [Update(StampOf(log, m))] else []
    case _ => []
  }

  /** The clock is what the node's operations make of it, and has not wrapped. */
  ghost predicate ClocksExplained(s: State)
    requires WellFormed(s)
  {
    forall i :: 0 <= i < |s.clocks| ==> Shows(s.log, i, s.clocks[i])
  }

  ghost predicate Shows(log: seq<Event>, i: nat, clock: nat) {
    NoWrap(1, OpsOf(log, i)) && clock == ClockAfter(1, OpsOf(log, i))
  }

  /** Every stamp is what its node's operations up to then made of the clock. */
  ghost predicate StampsExplained(log: seq<Event>) {
    forall b :: 0 <= b < |log| && log[b].Stamp? ==> Shows(log[..b], log[b].node, log[b].stamp)
  }

  ghost predicate Inv(s: State) {
    && WellFormed(s) && Bounded(s) && Ahead(s) && Ordered(s.log)
    && OutboxesJustified(s) && Justified(s.log) && Fifo(s)
    && ClocksExplained(s) && StampsExplained(s.log)
  }

  lemma ClockStepsSnoc(log: seq<Event>, e: Event)
    ensures ClockSteps(log + [e]) == ClockSteps(log) + if e.Tick? || e.Process? then 1 else 0
  {
    assert (log + [e])[..|log|] == log;
  }

  /** Appending an event other than a stamp adds nothing to happens-before between messages. */
  lemma OrderedAppend(log: seq<Event>, e: Event)
    requires Ordered(log) && !e.Stamp?
    ensures Ordered(log + [e])
  {
    forall a: nat, b: nat | DirectlyBefore(log + [e], a, b)
      ensures StampOf(log + [e], a) < StampOf(log + [e], b)
    {
      BeforeInPrefix(log, e, a, b);
    }
  }

  lemma BeforeInPrefix(log: seq<Event>, e: Event, a: nat, b: nat)
    requires b < |log| && DirectlyBefore(log + [e], a, b)
    ensures DirectlyBefore(log, a, b)
  {
    var log' := log + [e];
    if log'[a].node != log'[b].node {
      var p :| a < p < b && p < |log'| && log'[p] == Process(log'[b].node, a);
      assert log[p] == log'[p];
    }
  }

  lemma OrderedStamp(s: State, i: nat, origin: Origin)
    requires WellFormed(s) && Ahead(s) && Ordered(s.log) && i < |s.clocks| && s.senders[i].Idle?
    ensures Ordered(s.log + [Stamp(i, s.clocks[i], origin)])
  {
    var e := Stamp(i, s.clocks[i], origin);
    var log' := s.log + [e];
    forall a: nat, b: nat | DirectlyBefore(log', a, b)
      ensures StampOf(log', a) < StampOf(log', b)
    {
      if b < |s.log| {
        BeforeInPrefix(s.log, e, a, b);
      } else if log'[a].node == i {
        assert AheadOf(s, a);
      } else {
        var p :| a < p < b && p < |log'| && log'[p] == Process(i, a);
        assert AheadOf(s, p);
      }
    }
  }

  lemma StampsKept(s: State, step: Step)
    requires WellFormed(s)
    ensures forall m: nat :: m < |s.log| ==> m < |Next(s, step).log| && Next(s, step).log[m] == s.log[m]
    ensures |Next(s, step).log| <= |s.log| + 1
    ensures |Next(s, step).log| == |s.log| + 1 && !step.ReadStamp? ==> !Next(s, step).log[|s.log|].Stamp?
  {
    NextLogs(s, step);
  }

  lemma ClockStepsNext(s: State, step: Step)
    requires WellFormed(s)
    ensures Enabled(s, step) ==>
              ClockSteps(Next(s, step).log)
              == ClockSteps(s.log) + if step.IncrementAndSend? || step.ProcessMessage? then 1 else 0
  {
    NextLogs(s, step);
    if Enabled(s, step) {
      ClockStepsSnoc(s.log, Logged(s, step));
    }
  }

  lemma BoundedNext(s: State, step: Step)
    requires WellFormed(s) && Bounded(s) && ClockSteps(Next(s, step).log) < TWO_64 - 1
    ensures Bounded(Next(s, step))
  {
    var s' := Next(s, step);
    NextLogs(s, step);
    ClockStepsNext(s, step);
    ClocksGrow(s, step);
    forall m: nat | IsStamp(s'.log, m)
      ensures 1 <= StampOf(s'.log, m) <= 1 + ClockSteps(s'.log)
    {
      assert m < |s.log| ==> IsStamp(s.log, m);
    }
  }

  /** Short of the wrap, clocks only grow; a send and a processing move the clock past the stamp. */
  lemma ClocksGrow(s: State, step: Step)
    requires WellFormed(s) && Bounded(s) && ClockSteps(Next(s, step).log) < TWO_64 - 1
    ensures |Next(s, step).clocks| == |s.clocks|
    ensures forall i :: 0 <= i < |s.clocks| ==> Next(s, step).clocks[i] >= s.clocks[i]
    ensures Enabled(s, step) && step.IncrementAndSend? ==>
              step.node < |s.clocks| && Next(s, step).clocks[step.node] > s.clocks[step.node]
    ensures Enabled(s, step) && step.ProcessMessage? ==>
              && step.node < |s.clocks| && IsStamp(s.log, step.message)
              && Next(s, step).clocks[step.node] > StampOf(s.log, step.message)
    ensures forall i :: 0 <= i < |s.clocks| ==> Next(s, step).clocks[i] <= 1 + ClockSteps(Next(s, step).log)
  {
    ClockStepsNext(s, step);
    if step.ProcessMessage? && Enabled(s, step) {
      assert step.message in s.wire;
    }
  }

  lemma AheadNext(s: State, step: Step)
    requires WellFormed(s) && Bounded(s) && Ahead(s) && ClockSteps(Next(s, step).log) < TWO_64 - 1
    ensures WellFormed(Next(s, step)) && Ahead(Next(s, step))
  {
    NextWellFormed(s, step);
    StampsKept(s, step);
    ClocksGrow(s, step);
    var s' := Next(s, step);
    forall e: nat | e < |s'.log|
      ensures AheadOf(s', e)
    {
      if e < |s.log| {
        assert AheadOf(s, e);
      }
    }
  }

  lemma OrderedNext(s: State, step: Step)
    requires WellFormed(s) && Ahead(s) && Ordered(s.log)
    ensures Ordered(Next(s, step).log)
  {
    NextLogs(s, step);
    if Enabled(s, step) {
      if step.ReadStamp? {
        OrderedStamp(s, step.node, s.outboxes[step.node][0]);
      } else {
        OrderedAppend(s.log, Logged(s, step));
      }
    }
  }

  lemma MayQueueAppend(log: seq<Event>, e: Event, i: nat, origin: Origin)
    requires MayQueue(log, i, origin)
    ensures MayQueue(log + [e], i, origin)
  {
  }

  lemma OutboxesJustifiedNext(s: State, step: Step)
    requires WellFormed(s) && OutboxesJustified(s)
    ensures WellFormed(Next(s, step)) && OutboxesJustified(Next(s, step))
  {
    NextWellFormed(s, step);
    NextLogs(s, step);
    if Enabled(s, step) {
      var s', e := Next(s, step), Logged(s, step);
      forall i, k | 0 <= i < |s'.outboxes| && 0 <= k < |s'.outboxes[i]|
        ensures MayQueue(s'.log, i, s'.outboxes[i][k])
      {
        assert MayQueue(s.log, i, s'.outboxes[i][k]);
        MayQueueAppend(s.log, e, i, s'.outboxes[i][k]);
      }
    }
  }

  lemma JustifiedNext(s: State, step: Step)
    requires WellFormed(s) && OutboxesJustified(s) && Justified(s.log)
    ensures Justified(Next(s, step).log)
  {
    var log' := Next(s, step).log;
    StampsKept(s, step);
    forall b | 0 <= b < |log'| && log'[b].Stamp?
      ensures MayQueue(log'[..b], log'[b].node, log'[b].origin)
    {
      if b < |s.log| {
        assert log'[..b] == s.log[..b];
      } else {
        assert log'[..b] == s.log;
      }
    }
  }

  lemma ByNodeSnoc(log: seq<Event>, e: Event, i: nat)
    ensures QueuedBy(log + [e], i) == QueuedBy(log, i) + if e.Queue? && e.node == i then [e.origin] else []
    ensures SentBy(log + [e], i) == SentBy(log, i) + if e.Stamp? && e.node == i then [e.origin] else []
    ensures OpsOf(log + [e], i) == OpsOf(log, i) + OpsOfEvent(log + [e], e, i)
  {
    assert (log + [e])[..|log|] == log;
  }

  lemma OutboxNext(s: State, step: Step, i: nat)
    requires WellFormed(s) && Enabled(s, step) && i < |s.outboxes|
    ensures |Next(s, step).outboxes| == |s.outboxes|
    ensures Next(s, step).outboxes[i] ==
              if step.node != i then s.outboxes[i]
              else if step.Enqueue? then s.outboxes[i] + [step.origin]
              else if step.ReadStamp? then s.outboxes[i][1..]
              else s.outboxes[i]
  {
  }

  lemma FifoNext(s: State, step: Step)
    requires WellFormed(s) && Fifo(s)
    ensures WellFormed(Next(s, step)) && Fifo(Next(s, step))
  {
    NextWellFormed(s, step);
    NextLogs(s, step);
    if Enabled(s, step) {
      var s', e := Next(s, step), Logged(s, step);
      forall i: nat | i < |s'.outboxes|
        ensures QueuedBy(s'.log, i) == SentBy(s'.log, i) + s'.outboxes[i]
      {
        OutboxNext(s, step, i);
        ByNodeSnoc(s.log, e, i);
        FifoStep(QueuedBy(s.log, i), SentBy(s.log, i), s.outboxes[i], if e.Queue? then e.origin else Fresh);
      }
    }
  }

  lemma FifoStep(queued: seq<Origin>, sent: seq<Origin>, outbox: seq<Origin>, origin: Origin)
    requires queued == sent + outbox
    ensures queued + [origin] == sent + (outbox + [origin])
    ensures outbox != [] ==> queued == sent + [outbox[0]] + outbox[1..]
    ensures queued + [] == queued && sent + [] == sent
  {
  }

  lemma ClocksExplainedNext(s: State, step: Step)
    requires WellFormed(s) && Bounded(s) && ClocksExplained(s) && ClockSteps(Next(s, step).log) < TWO_64 - 1
    ensures WellFormed(Next(s, step)) && ClocksExplained(Next(s, step))
  {
    NextWellFormed(s, step);
    if Enabled(s, step) {
      forall i: nat | i < |Next(s, step).clocks|
        ensures Shows(Next(s, step).log, i, Next(s, step).clocks[i])
      {
        assert Shows(s.log, i, s.clocks[i]);
        ShowsNext(s, step, i);
      }
    }
  }

  /** A step changes a node's clock exactly by the operation its event stands for. */
  lemma ClockNext(s: State, step: Step, i: nat)
    requires WellFormed(s) && Bounded(s) && Enabled(s, step) && i < |s.clocks|
    ensures |Next(s, step).clocks| == |s.clocks|
    ensures var op := OpsOfEvent(Next(s, step).log, Logged(s, step), i);
            && |op| <= 1
            && Next(s, step).clocks[i] == (if op == [] then s.clocks[i] else Performed(s.clocks[i], op[0]))
            && (op != [] ==> step.IncrementAndSend? || step.ProcessMessage?)
            && (op != [] && op[0].Update? ==> op[0].stamp <= 1 + ClockSteps(s.log))
  {
    NextLogs(s, step);
    if step.ProcessMessage? {
      assert IsStamp(s.log, step.message) && StampOf(s.log, step.message) >= 1;
      assert IsStamp(Next(s, step).log, step.message);
    }
  }

  lemma ShowsNext(s: State, step: Step, i: nat)
    requires WellFormed(s) && Bounded(s) && i < |s.clocks| && Shows(s.log, i, s.clocks[i])
    requires Enabled(s, step) && ClockSteps(Next(s, step).log) < TWO_64 - 1
    ensures i < |Next(s, step).clocks| && Shows(Next(s, step).log, i, Next(s, step).clocks[i])
  {
    ClockNext(s, step, i);
    ClockStepsNext(s, step);
    NextLogs(s, step);
    ByNodeSnoc(s.log, Logged(s, step), i);
    ShowsOp(OpsOf(s.log, i), s.clocks[i], OpsOfEvent(Next(s, step).log, Logged(s, step), i));
  }

  lemma ShowsOp(ops: seq<ClockOp>, clock: nat, op: seq<ClockOp>)
    requires NoWrap(1, ops) && clock == ClockAfter(1, ops) && |op| <= 1
    requires op != [] ==> clock < TWO_64 - 1 && (op[0].Update? ==> op[0].stamp < TWO_64 - 1)
    ensures NoWrap(1, ops + op)
    ensures ClockAfter(1, ops + op) == if op == [] then clock else Performed(clock, op[0])
  {
    if op == [] {
      assert ops + op == ops;
    } else {
      assert op == [op[0]];
      OpsSnoc(ops, op[0]);
    }
  }

  lemma OpsSnoc(ops: seq<ClockOp>, op: ClockOp)
    ensures ClockAfter(1, ops + [op]) == Performed(ClockAfter(1, ops), op)
    ensures NoWrap(1, ops + [op]) <==>
              NoWrap(1, ops) && ClockAfter(1, ops) < TWO_64 - 1 && (op.Update? ==> op.stamp < TWO_64 - 1)
  {
    assert (ops + [op])[..|ops|] == ops;
  }

  lemma StampsExplainedNext(s: State, step: Step)
    requires WellFormed(s) && ClocksExplained(s) && StampsExplained(s.log)
    ensures StampsExplained(Next(s, step).log)
  {
    var log' := Next(s, step).log;
    StampsKept(s, step);
    forall b | 0 <= b < |log'| && log'[b].Stamp?
      ensures Shows(log'[..b], log'[b].node, log'[b].stamp)
    {
      if b < |s.log| {
        assert log'[..b] == s.log[..b];
      } else {
        assert log'[..b] == s.log;
      }
    }
  }

  lemma InvNext(s: State, step: Step)
    requires Inv(s) && ClockSteps(Next(s, step).log) < TWO_64 - 1
    ensures Inv(Next(s, step))
  {
    BoundedNext(s, step);
    AheadNext(s, step);
    OrderedNext(s, step);
    OutboxesJustifiedNext(s, step);
    JustifiedNext(s, step);
    FifoNext(s, step);
    ClocksExplainedNext(s, step);
    StampsExplainedNext(s, step);
  }

  // ----- Whole runs -----

  lemma NextWellFormed(s: State, step: Step)
    requires WellFormed(s)
    ensures WellFormed(Next(s, step))
  {
  }

  ghost function Run(n: nat, steps: seq<Step>): (s: State)
    ensures WellFormed(s)
  {
    if steps == [] then Init(n)
    else
      NextWellFormed(Run(n, steps[..|steps| - 1]), steps[|steps| - 1]);
      Next(Run(n, steps[..|steps| - 1]), steps[|steps| - 1])
  }

  lemma StepsGrow(s: State, step: Step)
    requires WellFormed(s)
    ensures ClockSteps(s.log) <= ClockSteps(Next(s, step).log)
  {
    ClockStepsNext(s, step);
  }

  /**
   * Clock bound: in every run with fewer than 2^64 - 1 clock steps, each clock and each stamp lies
   * between 1 and 1 plus the number of clock steps, so nothing wraps and no stamp is taken for
   * a missing one.
   */
  lemma {:induction false} ClockBound(n: nat, steps: seq<Step>)
    requires ClockSteps(Run(n, steps).log) < TWO_64 - 1
    ensures Inv(Run(n, steps))
  {
    if steps != [] {
      var before := Run(n, steps[..|steps| - 1]);
      StepsGrow(before, steps[|steps| - 1]);
      ClockBound(n, steps[..|steps| - 1]);
      InvNext(before, steps[|steps| - 1]);
    }
  }

  lemma {:induction false} ChainOrdered(log: seq<Event>, path: seq<nat>)
    requires Ordered(log) && |path| > 1 && Chain(log, path)
    ensures IsStamp(log, path[0]) && IsStamp(log, path[|path| - 1])
    ensures StampOf(log, path[0]) < StampOf(log, path[|path| - 1])
  {
    var k := |path| - 1;
    assert DirectlyBefore(log, path[k - 1], path[k]);
    if |path| > 2 {
      ChainOrdered(log, path[..k]);
    }
  }

  /**
   * The clock condition, over all interleavings of any number of nodes: if message a happens before
   * message b then a's stamp is smaller. Reading and incrementing in two steps does not break it.
   */
  lemma ClockCondition(n: nat, steps: seq<Step>, a: nat, b: nat)
    requires ClockSteps(Run(n, steps).log) < TWO_64 - 1
    requires HappensBefore(Run(n, steps).log, a, b)
    ensures IsStamp(Run(n, steps).log, a) && IsStamp(Run(n, steps).log, b)
    ensures StampOf(Run(n, steps).log, a) < StampOf(Run(n, steps).log, b)
  {
    ClockBound(n, steps);
    var log := Run(n, steps).log;
    var path: seq<nat> :| |path| > 1 && path[0] == a && path[|path| - 1] == b && Chain(log, path);
    ChainOrdered(log, path);
  }

  /**
   * Every answer is stamped above the message that caused it: in particular each PONG exceeds its
   * PING, and whatever a node queues on handling a message exceeds that message.
   */
  lemma AnswerStampedLater(n: nat, steps: seq<Step>, b: nat)
    requires ClockSteps(Run(n, steps).log) < TWO_64 - 1
    requires var log := Run(n, steps).log; IsStamp(log, b) && log[b].origin.AnswerTo?
    ensures var log := Run(n, steps).log;
            var a := log[b].origin.message;
            a < b && IsStamp(log, a) && StampOf(log, a) < StampOf(log, b)
  {
    ClockBound(n, steps);
    AnswerCaused(Run(n, steps), b);
  }

  lemma AnswerCaused(s: State, b: nat)
    requires Inv(s) && IsStamp(s.log, b) && s.log[b].origin.AnswerTo?
    ensures var a := s.log[b].origin.message;
            a < b && IsStamp(s.log, a) && StampOf(s.log, a) < StampOf(s.log, b)
  {
    var i, a := s.log[b].node, s.log[b].origin.message;
    assert MayQueue(s.log[..b], i, s.log[b].origin);
    var p :| 0 <= p < b && s.log[p] == Process(i, a);
    assert AheadOf(s, p);
    assert DirectlyBefore(s.log, a, b);
  }

  /**
   * A relayed copy need not outrank the message it copies, because it can be stamped before the
   * clock sees that message. It does exactly if, when it is stamped, what its node has sent and
   * processed already counts beyond the stamp: by the number of those operations, or by counting
   * on from the stamp of a message among those processed.
   */
  lemma CopyStampedLaterIff(n: nat, steps: seq<Step>, b: nat)
    requires ClockSteps(Run(n, steps).log) < TWO_64 - 1
    requires var log := Run(n, steps).log; IsStamp(log, b) && log[b].origin.CopyOf?
    ensures var log := Run(n, steps).log;
            var a := log[b].origin.message;
            && a < b && IsStamp(log, a)
            && (StampOf(log, a) < StampOf(log, b) <==> Beyond(1, OpsOf(log[..b], log[b].node), StampOf(log, a)))
  {
    ClockBound(n, steps);
    CopyCompared(Run(n, steps), b);
  }

  lemma CopyCompared(s: State, b: nat)
    requires Inv(s) && IsStamp(s.log, b) && s.log[b].origin.CopyOf?
    ensures var a := s.log[b].origin.message;
            && a < b && IsStamp(s.log, a)
            && (StampOf(s.log, a) < StampOf(s.log, b) <==> Beyond(1, OpsOf(s.log[..b], s.log[b].node), StampOf(s.log, a)))
  {
    var i, a := s.log[b].node, s.log[b].origin.message;
    assert MayQueue(s.log[..b], i, s.log[b].origin);
    var p :| 0 <= p < b && s.log[p] == Receipt(i, a);
    assert AheadOf(s, p);
    assert Shows(s.log[..b], i, StampOf(s.log, b));
    ClockClosedForm(1, OpsOf(s.log[..b], i), StampOf(s.log, a));
  }

  /**
   * Each node sends in the order it queued, and its stamps strictly increase, across batches and
   * whatever its processing thread does in between.
   */
  lemma SentInOrder(n: nat, steps: seq<Step>, i: nat)
    requires i < n && ClockSteps(Run(n, steps).log) < TWO_64 - 1
    ensures var s := Run(n, steps);
            && |s.outboxes| == n
            && QueuedBy(s.log, i) == SentBy(s.log, i) + s.outboxes[i]
            && forall a: nat, b: nat :: a < b && IsStamp(s.log, a) && IsStamp(s.log, b) && s.log[a].node == s.log[b].node == i ==>
                 StampOf(s.log, a) < StampOf(s.log, b)
  {
    ClockBound(n, steps);
    RunSize(n, steps);
    var log := Run(n, steps).log;
    forall a: nat, b: nat | a < b && IsStamp(log, a) && IsStamp(log, b) && log[a].node == log[b].node == i
      ensures StampOf(log, a) < StampOf(log, b)
    {
      assert DirectlyBefore(log, a, b);
    }
  }

  lemma RunSize(n: nat, steps: seq<Step>)
    ensures |Run(n, steps).clocks| == n
  {
  }

  lemma RunSnoc(n: nat, steps: seq<Step>, step: Step)
    ensures Run(n, steps + [step]) == Next(Run(n, steps), step)
  {
    assert (steps + [step])[..|steps|] == steps;
  }

  // ----- A relayed copy that goes back -----

  /** Node 0 queues and sends two messages of its own, node 1 receives and relays the second. */
  function RelayRun(): seq<Step> {
    SendOwn(0) + SendOwn(0) + [Receive(1, 4)] + [Enqueue(1, CopyOf(4))] + [ReadStamp(1)]
  }

  function SendOwn(i: nat): seq<Step> {
    [Enqueue(i, Fresh)] + [ReadStamp(i)] + [IncrementAndSend(i)]
  }

  /** The node is between two messages: nothing queued, nothing half sent. */
  ghost predicate Quiet(s: State, i: nat, clock: nat)
    requires WellFormed(s)
  {
    i < |s.clocks| && s.clocks[i] == clock && s.senders[i] == Idle && s.outboxes[i] == []
  }

  ghost predicate OthersSame(s: State, s': State, i: nat)
    requires WellFormed(s) && WellFormed(s')
  {
    forall j, c :: j != i && Quiet(s, j, c) ==> Quiet(s', j, c)
  }

  lemma OwnQueued(s: State, i: nat, c: nat)
    requires WellFormed(s) && Quiet(s, i, c)
    ensures var s' := Next(s, Enqueue(i, Fresh));
            && WellFormed(s') && OthersSame(s, s', i)
            && i < |s'.clocks| && s'.clocks[i] == c && s'.senders[i] == Idle && s'.outboxes[i] == [Fresh]
            && s'.log == s.log + [Queue(i, Fresh)]
  {
    NextWellFormed(s, Enqueue(i, Fresh));
  }

  lemma OwnRead(s: State, i: nat, c: nat)
    requires WellFormed(s) && i < |s.clocks|
    requires s.clocks[i] == c && s.senders[i] == Idle && s.outboxes[i] == [Fresh]
    ensures var s' := Next(s, ReadStamp(i));
            && WellFormed(s') && OthersSame(s, s', i)
            && i < |s'.clocks| && s'.clocks[i] == c && s'.senders[i] == Sending(|s.log|) && s'.outboxes[i] == []
            && s'.log == s.log + [Stamp(i, c, Fresh)]
  {
    NextWellFormed(s, ReadStamp(i));
  }

  lemma OwnSent(s: State, i: nat, c: nat, m: nat)
    requires WellFormed(s) && i < |s.clocks|
    requires s.clocks[i] == c && s.senders[i] == Sending(m) && s.outboxes[i] == []
    ensures var s' := Next(s, IncrementAndSend(i));
            && WellFormed(s') && OthersSame(s, s', i)
            && Quiet(s', i, Incremented(c)) && m in s'.wire
            && s'.log == s.log + [Tick(i)]
  {
    NextWellFormed(s, IncrementAndSend(i));
  }

  /** Sending one message from a quiet node. */
  lemma SendOwnEffect(n: nat, steps: seq<Step>, i: nat, c: nat)
    requires Quiet(Run(n, steps), i, c)
    ensures var s, s' := Run(n, steps), Run(n, steps + SendOwn(i));
            && Quiet(s', i, Incremented(c)) && OthersSame(s, s', i)
            && |s.log| + 1 in s'.wire
            && |s'.log| == |s.log| + 3 && s'.log[|s.log| + 1] == Stamp(i, c, Fresh)
  {
    var s := Run(n, steps);
    var queued := Next(s, Enqueue(i, Fresh));
    OwnQueued(s, i, c);
    var read := Next(queued, ReadStamp(i));
    OwnRead(queued, i, c);
    OwnSent(read, i, c, |s.log| + 1);
    RunThree(n, steps, Enqueue(i, Fresh), ReadStamp(i), IncrementAndSend(i));
    assert steps + [Enqueue(i, Fresh)] + [ReadStamp(i)] + [IncrementAndSend(i)] == steps + SendOwn(i);
  }

  lemma RunThree(n: nat, steps: seq<Step>, a: Step, b: Step, c: Step)
    ensures Run(n, steps + [a] + [b] + [c]) == Next(Run(n, steps + [a] + [b]), c)
    ensures Run(n, steps + [a] + [b]) == Next(Run(n, steps + [a]), b)
    ensures Run(n, steps + [a]) == Next(Run(n, steps), a)
  {
    RunSnoc(n, steps, a);
    RunSnoc(n, steps + [a], b);
    RunSnoc(n, steps + [a] + [b], c);
  }

  /** Relaying a message that has arrived, by a quiet node. */
  lemma RelayEffect(n: nat, steps: seq<Step>, i: nat, c: nat, m: nat)
    requires Quiet(Run(n, steps), i, c) && m in Run(n, steps).wire
    ensures Run(n, steps + [Receive(i, m)] + [Enqueue(i, CopyOf(m))] + [ReadStamp(i)]).log
         == Run(n, steps).log + [Receipt(i, m)] + [Queue(i, CopyOf(m))] + [Stamp(i, c, CopyOf(m))]
  {
    var s := Run(n, steps);
    var received := Next(s, Receive(i, m));
    assert received.log[|s.log|] == Receipt(i, m);
    var queued := Next(received, Enqueue(i, CopyOf(m)));
    assert queued.outboxes[i] == [] + [CopyOf(m)];
    RunThree(n, steps, Receive(i, m), Enqueue(i, CopyOf(m)), ReadStamp(i));
  }

  lemma SentTwice()
    ensures var s := Run(2, SendOwn(0) + SendOwn(0));
            && |s.log| == 6 && s.log[4] == Stamp(0, 2, Fresh) && 4 in s.wire && Quiet(s, 1, 1)
  {
    StartQuiet();
    SendOwnEffect(2, [], 0, 1);
    assert [] + SendOwn(0) == SendOwn(0);
    SendOwnEffect(2, SendOwn(0), 0, 2);
  }

  lemma StartQuiet()
    ensures Quiet(Run(2, []), 0, 1) && Quiet(Run(2, []), 1, 1) && Run(2, []).log == []
  {
  }

  /** In that run the copy carries a smaller stamp than the message it copies. */
  lemma RelayCanGoBack()
    ensures var log := Run(2, RelayRun()).log;
            && IsStamp(log, 4) && IsStamp(log, 8) && log[8].origin == CopyOf(4)
            && StampOf(log, 8) < StampOf(log, 4)
  {
    SentTwice();
    RelayEffect(2, SendOwn(0) + SendOwn(0), 1, 1, 4);
  }
}
