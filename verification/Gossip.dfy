/**
 * The gossip node: duplicate cache, incoming queue, outgoing queue, peer choice and heartbeat
 * replies, run in place on the fields of one object.
 */
module Gossip {
  import opened Common
  import opened MessageCache
  import opened BatchQueue
  import opened Lamport
  import Flood

  datatype HeartbeatType = Ping | Pong | IndexPing | IndexPong

  datatype Body =
    | Reputation(subject: Endpoint, delta: int)
    | Heartbeat(kind: HeartbeatType, sentAt: nat)
    | Unknown

  datatype GossipMessage = GossipMessage(id: string, timestamp: nat, source: Endpoint, stamp: nat, body: Body)

  datatype Incoming = Incoming(sender: Endpoint, message: GossipMessage)

  datatype Outgoing = Outgoing(target: Endpoint, message: GossipMessage)

  /** Which handlers are registered. */
  datatype Handlers = Handlers(reputation: bool, heartbeat: bool, indexHeartbeat: bool)

  /** A call to a registered handler. */
  datatype Call =
    | ReputationCall(subject: Endpoint, delta: int, sender: Endpoint)
    | HeartbeatCall(source: Endpoint)
    | IndexHeartbeatCall(source: Endpoint)

  /** The unspecified endpoint, used to exclude nobody. */
  const NOBODY := Endpoint("0.0.0.0", 0)

  /** The handler call a processed message causes. */
  function Handled(h: Handlers, m: Incoming): seq<Call> {
    match m.message.body
    case Reputation(subject, delta) => if h.reputation then [ReputationCall(subject, delta, m.sender)] else []
    case Heartbeat(Pong, _) => if h.heartbeat then [HeartbeatCall(m.message.source)] else []
    case Heartbeat(IndexPong, _) => if h.indexHeartbeat then [IndexHeartbeatCall(m.message.source)] else []
    case _ => []
  }

  function HandlerOf(h: Handlers): Stamped<Incoming> -> seq<Call> {
    (m: Stamped<Incoming>) => Handled(h, m.payload)
  }

  function HandledAll(h: Handlers, batch: seq<Stamped<Incoming>>): seq<Call> {
    FlatMap(HandlerOf(h), batch)
  }

  /** The answer to a PING, spread as a new message of this node. */
  function Answer(h: Handlers, self: Endpoint, m: GossipMessage, now: nat): Option<GossipMessage> {
    var suffix := self.ip + "_" + Decimal(self.port) + "_" + Decimal(now);
    match m.body
    case Heartbeat(Ping, at) =>
      if h.heartbeat then Some(GossipMessage("heartbeat_pong_" + suffix, now, self, 0, Heartbeat(Pong, at))) else None
    case Heartbeat(IndexPing, at) =>
      if h.indexHeartbeat then Some(GossipMessage("index_heartbeat_pong_" + suffix, now, self, 0, Heartbeat(IndexPong, at))) else None
    case _ => None
  }

  /** A batch of copies with the stamps they are sent with, while the processing thread works on the clock. */
  function StampedCopies(clock: nat, batch: seq<Outgoing>, other: nat -> Meanwhile): seq<Outgoing> {
    seq(|batch|, k requires 0 <= k < |batch| =>
      batch[k].(message := batch[k].message.(stamp := Reading(clock, other, k))))
  }

  lemma StampedCopiesSnoc(clock: nat, batch: seq<Outgoing>, other: nat -> Meanwhile, i: nat)
    requires i < |batch|
    ensures StampedCopies(clock, batch[..i + 1], other)
         == StampedCopies(clock, batch[..i], other)
            + [batch[i].(message := batch[i].message.(stamp := Reading(clock, other, i)))]
  {
  }

  /** Sending gives a copy its stamp and changes nothing else; the queue's order is kept. */
  lemma CopiesKept(clock: nat, batch: seq<Outgoing>, other: nat -> Meanwhile, k: nat)
    requires k < |batch|
    ensures |StampedCopies(clock, batch, other)| == |batch|
    ensures var m, sent := batch[k].message, StampedCopies(clock, batch, other)[k];
            && sent.target == batch[k].target
            && sent.message == GossipMessage(m.id, m.timestamp, m.source, sent.message.stamp, m.body)
  {
  }

  /** Short of the wrap the copies of a batch carry larger and larger stamps. */
  lemma CopiesStampedInOrder(clock: nat, batch: seq<Outgoing>, other: nat -> Meanwhile, i: nat, j: nat)
    requires i < j < |batch| && NoWrap(clock, SendOps(other, j) + other(j).beforeReading)
    ensures var sent := StampedCopies(clock, batch, other);
            clock <= sent[i].message.stamp < sent[j].message.stamp
  {
    ReadingsIncrease(clock, other, i, j);
  }

  // ----- What a node admits, processes and handles -----

  function Ids(ms: seq<Stamped<Incoming>>): seq<string> {
    seq(|ms|, k requires 0 <= k < |ms| => ms[k].payload.message.id)
  }

  /** The messages that carry the id. */
  function WithId(ms: seq<Stamped<Incoming>>, id: string): seq<Stamped<Incoming>> {
    if ms == [] then []
    else
      var m := ms[|ms| - 1];
      WithId(ms[..|ms| - 1], id) + if m.payload.message.id == id then [m] else []
  }

  /**
   * The queue's history of admissions and batches: its arrivals are the ids the cache admitted, its
   * batches are what the handlers were called for.
   */
  ghost predicate Coherent(history: seq<BatchQueue.Event<Incoming>>, admitted: seq<string>, h: Handlers, calls: seq<Call>) {
    && History(history)
    && Ids(Arrived(history)) == admitted
    && FarApart(admitted)
    && calls == HandledAll(h, Processed(history))
  }

  lemma CoherentArrival(history: seq<BatchQueue.Event<Incoming>>, admitted: seq<string>, h: Handlers, calls: seq<Call>,
                        m: Stamped<Incoming>)
    requires Coherent(history, admitted, h, calls) && m.payload.message.id !in Window(admitted)
    ensures Coherent(history + [Arrive(m)], admitted + [m.payload.message.id], h, calls)
    ensures Queued(history + [Arrive(m)]) == Queued(history) + [m]
  {
    assert (history + [Arrive(m)])[..|history|] == history;
    AdmitFarApart(admitted, m.payload.message.id);
    assert Ids(Arrived(history) + [m]) == Ids(Arrived(history)) + [m.payload.message.id];
  }

  lemma CoherentDrain(history: seq<BatchQueue.Event<Incoming>>, admitted: seq<string>, h: Handlers, calls: seq<Call>,
                      batch: seq<Stamped<Incoming>>, rest: seq<Stamped<Incoming>>)
    requires Coherent(history, admitted, h, calls) && IsBatch(Queued(history), batch, rest)
    ensures Coherent(history + [Drain(batch, rest)], admitted, h, calls + HandledAll(h, batch))
    ensures Queued(history + [Drain(batch, rest)]) == rest
  {
    assert (history + [Drain(batch, rest)])[..|history|] == history;
    FlatMapAppend(HandlerOf(h), Processed(history), batch);
  }

  lemma IdsWithout(ms: seq<Stamped<Incoming>>, k: nat)
    requires k < |ms|
    ensures multiset(Ids(ms)) == multiset(Ids(Without(ms, k))) + multiset{ms[k].payload.message.id}
  {
    WithoutElements(Ids(ms), k);
    assert Ids(Without(ms, k)) == Without(Ids(ms), k);
  }

  /** Ids are counted alike in two sequences with the same messages. */
  lemma {:induction false} IdsOfMultiset(a: seq<Stamped<Incoming>>, b: seq<Stamped<Incoming>>)
    requires multiset(a) == multiset(b)
    ensures multiset(Ids(a)) == multiset(Ids(b))
  {
    if a == [] {
      assert |b| == |multiset(b)| == 0;
    } else {
      var last := |a| - 1;
      assert a[last] in multiset(a);
      assert a[last] in multiset(b);
      var k :| 0 <= k < |b| && b[k] == a[last];
      WithoutMultiset(a, last);
      WithoutMultiset(b, k);
      IdsOfMultiset(Without(a, last), Without(b, k));
      IdsWithout(a, last);
      IdsWithout(b, k);
    }
  }

  lemma IdsSplit(all: seq<Stamped<Incoming>>, a: seq<Stamped<Incoming>>, b: seq<Stamped<Incoming>>)
    requires multiset(all) == multiset(a) + multiset(b)
    ensures multiset(Ids(all)) == multiset(Ids(a)) + multiset(Ids(b))
  {
    IdsOfMultiset(all, a + b);
    assert Ids(a + b) == Ids(a) + Ids(b);
  }

  lemma AtMostOneCall(h: Handlers, m: Incoming)
    ensures |Handled(h, m)| <= 1
  {
  }

  lemma {:induction false} CallsCounted(h: Handlers, ms: seq<Stamped<Incoming>>, id: string)
    ensures |HandledAll(h, WithId(ms, id))| <= |WithId(ms, id)| == multiset(Ids(ms))[id]
  {
    if ms != [] {
      var init, m := ms[..|ms| - 1], ms[|ms| - 1];
      CallsCounted(h, init, id);
      assert Ids(ms) == Ids(init) + [m.payload.message.id];
      if m.payload.message.id == id {
        FlatMapSnoc(HandlerOf(h), WithId(init, id), m);
        AtMostOneCall(h, m.payload);
      } else {
        assert WithId(init, id) + [] == WithId(init, id);
      }
    }
  }

  /**
   * At most once per window: however often copies of a message arrive, it is processed no more often
   * than it was admitted, that is at most once per 1001 consecutive admissions, and each processing
   * calls at most one handler.
   */
  lemma HandledOncePerWindow(history: seq<BatchQueue.Event<Incoming>>, admitted: seq<string>, h: Handlers,
                             calls: seq<Call>, id: string)
    requires Coherent(history, admitted, h, calls)
    ensures var times := multiset(Ids(Processed(history)))[id];
            && times <= multiset(admitted)[id]
            && (times > 0 ==> 1001 * (times - 1) < |admitted|)
            && |HandledAll(h, WithId(Processed(history), id))| <= times
  {
    Conservation(history);
    IdsSplit(Arrived(history), Processed(history), Queued(history));
    CountSpaced(admitted, id);
    CallsCounted(h, Processed(history), id);
  }

  // ----- Which calls are made -----

  /** The message asks for this call: a PONG for its own source, a reputation report for its subject and sender. */
  predicate AsksFor(m: Incoming, c: Call) {
    match c
    case ReputationCall(subject, delta, sender) => m.message.body == Reputation(subject, delta) && m.sender == sender
    case HeartbeatCall(source) =>
      m.message.body.Heartbeat? && m.message.body.kind == Pong && m.message.source == source
    case IndexHeartbeatCall(source) =>
      m.message.body.Heartbeat? && m.message.body.kind == IndexPong && m.message.source == source
  }

  predicate Registered(h: Handlers, c: Call) {
    match c
    case ReputationCall(_, _, _) => h.reputation
    case HeartbeatCall(_) => h.heartbeat
    case IndexHeartbeatCall(_) => h.indexHeartbeat
  }

  function AskedFor(ms: seq<Stamped<Incoming>>, c: Call): nat {
    if ms == [] then 0 else AskedFor(ms[..|ms| - 1], c) + if AsksFor(ms[|ms| - 1].payload, c) then 1 else 0
  }

  lemma OneCall(h: Handlers, m: Incoming, c: Call)
    ensures |Handled(h, m)| <= 1
    ensures c in Handled(h, m) <==> Registered(h, c) && AsksFor(m, c)
  {
  }

  lemma {:induction false} CallsAsked(h: Handlers, ms: seq<Stamped<Incoming>>, c: Call)
    ensures multiset(HandledAll(h, ms))[c] == if Registered(h, c) then AskedFor(ms, c) else 0
  {
    if ms != [] {
      CallsAsked(h, ms[..|ms| - 1], c);
      OneCall(h, ms[|ms| - 1].payload, c);
      CountOfFew(Handled(h, ms[|ms| - 1].payload), c);
    }
  }

  /**
   * Over the life of a node each call is made once for every processed message that asks for it, if its
   * handler is registered, and no other call is made.
   */
  lemma CallsExactly(history: seq<BatchQueue.Event<Incoming>>, admitted: seq<string>, h: Handlers, calls: seq<Call>, c: Call)
    requires Coherent(history, admitted, h, calls)
    ensures multiset(calls)[c] == if Registered(h, c) then AskedFor(Processed(history), c) else 0
  {
    CallsAsked(h, Processed(history), c);
  }

  /** A PING is answered by a PONG of this node, an INDEX_PING by an INDEX_PONG, each if its handler is registered. */
  lemma AnsweredInKind(h: Handlers, self: Endpoint, m: GossipMessage, now: nat)
    ensures Answer(h, self, m, now).Some? <==>
              || (m.body.Heartbeat? && m.body.kind == Ping && h.heartbeat)
              || (m.body.Heartbeat? && m.body.kind == IndexPing && h.indexHeartbeat)
    ensures Answer(h, self, m, now).Some? ==>
              var pong := Answer(h, self, m, now).value;
              && pong.body == Heartbeat(if m.body.kind == Ping then Pong else IndexPong, m.body.sentAt)
              && pong.source == self && pong.timestamp == now && pong.stamp == 0
  {
  }

  /** The ids of a node's PONGs differ by kind and by second. */
  lemma PongIdsDiffer(h: Handlers, self: Endpoint, m: GossipMessage, m': GossipMessage, now: nat, now': nat)
    requires Answer(h, self, m, now).Some? && Answer(h, self, m', now').Some?
    ensures Answer(h, self, m, now).value.id == Answer(h, self, m', now').value.id
       <==> m.body.kind == m'.body.kind && now == now'
  {
    var prefix, prefix' := PongPrefix(m.body.kind), PongPrefix(m'.body.kind);
    var mid := self.ip + "_" + Decimal(self.port) + "_";
    PongId(h, self, m, now);
    PongId(h, self, m', now');
    if m.body.kind == m'.body.kind {
      if prefix + (mid + Decimal(now)) == prefix + (mid + Decimal(now')) {
        SameTail(prefix, mid + Decimal(now), mid + Decimal(now'));
        SameTail(mid, Decimal(now), Decimal(now'));
        DecimalInjective(now, now');
      }
    } else {
      assert (prefix + (mid + Decimal(now)))[0] != (prefix' + (mid + Decimal(now')))[0];
    }
  }

  function PongPrefix(kind: HeartbeatType): string {
    if kind == Ping then "heartbeat_pong_" else "index_heartbeat_pong_"
  }

  lemma PongId(h: Handlers, self: Endpoint, m: GossipMessage, now: nat)
    requires Answer(h, self, m, now).Some?
    ensures Answer(h, self, m, now).value.id
         == PongPrefix(m.body.kind) + (self.ip + "_" + Decimal(self.port) + "_" + Decimal(now))
  {
  }

  // ----- Spreading -----

  function Available(peers: seq<Endpoint>, exclude: Endpoint): seq<Endpoint> {
    if peers == [] then []
    else
      var p := peers[|peers| - 1];
      Available(peers[..|peers| - 1], exclude) + if p != exclude then [p] else []
  }

  lemma {:induction false} AvailableElements(peers: seq<Endpoint>, exclude: Endpoint, p: Endpoint)
    ensures p in Available(peers, exclude) <==> p in peers && p != exclude
    ensures p in multiset(Available(peers, exclude)) <==> p in Available(peers, exclude)
  {
    if peers != [] {
      AvailableElements(peers[..|peers| - 1], exclude, p);
      assert peers == peers[..|peers| - 1] + [peers[|peers| - 1]];
    }
  }

  /** Every position of the known peers but those of the excluded one is available, as often as it is known. */
  lemma {:induction false} AvailableCount(peers: seq<Endpoint>, exclude: Endpoint, p: Endpoint)
    ensures multiset(Available(peers, exclude))[p] == if p == exclude then 0 else multiset(peers)[p]
  {
    if peers != [] {
      AvailableCount(peers[..|peers| - 1], exclude, p);
      assert peers == peers[..|peers| - 1] + [peers[|peers| - 1]];
    }
  }

  lemma {:induction false} AvailableSize(peers: seq<Endpoint>, exclude: Endpoint)
    ensures |Available(peers, exclude)| == |peers| - multiset(peers)[exclude]
  {
    if peers != [] {
      AvailableSize(peers[..|peers| - 1], exclude);
      assert peers == peers[..|peers| - 1] + [peers[|peers| - 1]];
    }
  }

  /** A message goes to two peers, or to all there are if there are fewer. */
  lemma FanOutIsTwo(known: seq<Endpoint>, exclude: Endpoint)
    ensures var available := |known| - multiset(known)[exclude];
            FanOut(known, exclude) == if available < 2 then available else 2
  {
    AvailableSize(known, exclude);
  }

  /** No peer gets more copies of a message than it has places among the known peers, and the excluded one none. */
  lemma SpreadOnce(before: seq<Outgoing>, after: seq<Outgoing>, known: seq<Endpoint>, m: GossipMessage, exclude: Endpoint, p: Endpoint)
    requires Spread(before, after, known, m, exclude)
    ensures |before| <= |after|
    ensures multiset(Targets(after[|before|..]))[p] <= if p == exclude then 0 else multiset(known)[p]
  {
    AvailableCount(known, exclude, p);
  }

  function Targets(out: seq<Outgoing>): seq<Endpoint> {
    seq(|out|, k requires 0 <= k < |out| => out[k].target)
  }

  function FanOut(known: seq<Endpoint>, exclude: Endpoint): nat {
    if |Available(known, exclude)| < 2 then |Available(known, exclude)| else 2
  }

  /** Spreading appends copies for min(2, available) positions of the known peers, `exclude` left out. */
  ghost predicate Spread(before: seq<Outgoing>, after: seq<Outgoing>, known: seq<Endpoint>, m: GossipMessage, exclude: Endpoint) {
    && before <= after
    && |after| == |before| + FanOut(known, exclude)
    && (forall k :: |before| <= k < |after| ==> after[k].message == m)
    && multiset(Targets(after[|before|..])) <= multiset(Available(known, exclude))
  }

  lemma SpreadTargets(before: seq<Outgoing>, after: seq<Outgoing>, known: seq<Endpoint>, m: GossipMessage,
                      exclude: Endpoint, k: nat)
    requires Spread(before, after, known, m, exclude) && |before| <= k < |after|
    ensures after[k].target in known && after[k].target != exclude
  {
    var targets := Targets(after[|before|..]);
    assert targets[k - |before|] == after[k].target;
    assert after[k].target in multiset(targets);
    AvailableElements(known, exclude, after[k].target);
  }

  // ----- Processing a batch -----

  /**
   * What other threads do before a message of a batch is handled: the sending thread's work on the
   * clock, a refresh of the known peers from these DHT nodes; and what the wall clock shows then.
   */
  datatype Meantime = Meantime(clockOps: seq<ClockOp>, refresh: Option<seq<Endpoint>>, now: nat)

  function ClockOpsOf(other: nat -> Meantime): nat -> seq<ClockOp> {
    (k: nat) => other(k).clockOps
  }

  /** The gossip endpoints of the DHT nodes with a port in the program's range. */
  function GossipPeers(nodes: seq<Endpoint>): seq<Endpoint> {
    FlatMap(GossipPeer(), nodes)
  }

  function GossipPeer(): Endpoint -> seq<Endpoint> {
    (x: Endpoint) => if 6881 <= x.port <= 6885 then [Endpoint(x.ip, x.port + 1000)] else []
  }

  /** A peer is known after a refresh iff a DHT node has its address and its port minus 1000, within 6881..6885. */
  lemma {:induction false} KnownIff(nodes: seq<Endpoint>, q: Endpoint)
    ensures q in GossipPeers(nodes) <==>
              exists i :: 0 <= i < |nodes| && nodes[i].ip == q.ip && 6881 <= nodes[i].port <= 6885 && q.port == nodes[i].port + 1000
    ensures q in GossipPeers(nodes) ==> 7881 <= q.port <= 7885
  {
    if nodes != [] {
      var init, last := nodes[..|nodes| - 1], nodes[|nodes| - 1];
      KnownIff(init, q);
      assert nodes == init + [last];
      FlatMapSnoc(GossipPeer(), init, last);
    }
  }

  /** How many DHT nodes have a port in the range. */
  function InRange(nodes: seq<Endpoint>): nat {
    if nodes == [] then 0
    else InRange(nodes[..|nodes| - 1]) + if 6881 <= nodes[|nodes| - 1].port <= 6885 then 1 else 0
  }

  /** There are as many known peers as such nodes, in their order: node i is number InRange(nodes[..i]). */
  lemma {:induction false} KnownInOrder(nodes: seq<Endpoint>, i: nat)
    ensures |GossipPeers(nodes)| == InRange(nodes)
    ensures i < |nodes| && 6881 <= nodes[i].port <= 6885 ==>
              && InRange(nodes[..i]) < |GossipPeers(nodes)|
              && GossipPeers(nodes)[InRange(nodes[..i])] == Endpoint(nodes[i].ip, nodes[i].port + 1000)
  {
    if nodes != [] {
      var init, last := nodes[..|nodes| - 1], nodes[|nodes| - 1];
      KnownInOrder(init, i);
      assert nodes == init + [last];
      FlatMapSnoc(GossipPeer(), init, last);
      if i < |init| {
        assert nodes[..i] == init[..i];
      } else if i == |init| {
        assert nodes[..i] == init;
      }
    }
  }

  /** So whatever is spread after a refresh goes to gossip ports only, and a PONG leaves no known peer out. */
  lemma SpreadToGossipPorts(before: seq<Outgoing>, after: seq<Outgoing>, nodes: seq<Endpoint>, m: GossipMessage,
                            exclude: Endpoint, k: nat)
    requires Spread(before, after, GossipPeers(nodes), m, exclude) && |before| <= k < |after|
    ensures 7881 <= after[k].target.port <= 7885
    ensures FanOut(GossipPeers(nodes), NOBODY) == if InRange(nodes) < 2 then InRange(nodes) else 2
  {
    SpreadTargets(before, after, GossipPeers(nodes), m, exclude, k);
    KnownIff(nodes, after[k].target);
    KnownIff(nodes, NOBODY);
    FanOutIsTwo(GossipPeers(nodes), NOBODY);
    KnownInOrder(nodes, 0);
  }

  function Refreshed(known: seq<Endpoint>, refresh: Option<seq<Endpoint>>): seq<Endpoint> {
    if refresh.Some? then GossipPeers(refresh.value) else known
  }

  /** The known peers after what happens before the first k messages. */
  function KnownAfter(known: seq<Endpoint>, other: nat -> Meantime, k: nat): seq<Endpoint> {
    if k == 0 then known else Refreshed(KnownAfter(known, other, k - 1), other(k - 1).refresh)
  }

  /** A message of a batch as it is handled: the peers known and the time shown at that moment. */
  datatype Moment = Moment(message: Stamped<Incoming>, known: seq<Endpoint>, now: nat)

  function Moments(batch: seq<Stamped<Incoming>>, known: seq<Endpoint>, other: nat -> Meantime): seq<Moment> {
    seq(|batch|, k requires 0 <= k < |batch| => Moment(batch[k], KnownAfter(known, other, k + 1), other(k).now))
  }

  function AnswerTo(h: Handlers, self: Endpoint): Moment -> Option<GossipMessage> {
    (m: Moment) => Answer(h, self, m.message.payload.message, m.now)
  }

  ghost predicate AnswerSpread(before: seq<Outgoing>, after: seq<Outgoing>, known: seq<Endpoint>, answer: Option<GossipMessage>) {
    match answer
    case None => after == before
    case Some(pong) => Spread(before, after, known, pong, NOBODY)
  }

  /** The outgoing queue before and after each message: the answer to it is spread, if it has one. */
  ghost predicate Answering(queues: seq<seq<Outgoing>>, moments: seq<Moment>, answer: Moment -> Option<GossipMessage>) {
    |queues| == |moments| + 1 && forall k :: 0 <= k < |moments| ==> AnsweredAt(queues, moments, answer, k)
  }

  ghost predicate AnsweredAt(queues: seq<seq<Outgoing>>, moments: seq<Moment>, answer: Moment -> Option<GossipMessage>, k: nat)
    requires k < |moments| < |queues|
  {
    AnswerSpread(queues[k], queues[k + 1], moments[k].known, answer(moments[k]))
  }

  /** What is queued while a batch is processed: the PONGs to its messages in order, each spread to peers known then. */
  ghost predicate Replied(before: seq<Outgoing>, after: seq<Outgoing>, moments: seq<Moment>, answer: Moment -> Option<GossipMessage>) {
    exists queues :: Answering(queues, moments, answer) && queues[0] == before && queues[|moments|] == after
  }

  /** How many copies the answers make, by the fan-out and the peers known to each. */
  function CopiesOfAnswers(moments: seq<Moment>, answer: Moment -> Option<GossipMessage>): nat {
    if moments == [] then 0
    else
      var m := moments[|moments| - 1];
      CopiesOfAnswers(moments[..|moments| - 1], answer) + if answer(m).Some? then FanOut(m.known, NOBODY) else 0
  }

  lemma {:induction false} AnsweringCounted(queues: seq<seq<Outgoing>>, moments: seq<Moment>,
                                            answer: Moment -> Option<GossipMessage>, k: nat)
    requires Answering(queues, moments, answer) && k <= |moments|
    ensures queues[0] <= queues[k] && |queues[k]| == |queues[0]| + CopiesOfAnswers(moments[..k], answer)
  {
    if k > 0 {
      AnsweringCounted(queues, moments, answer, k - 1);
      assert AnsweredAt(queues, moments, answer, k - 1);
      assert moments[..k][..k - 1] == moments[..k - 1];
    }
  }

  lemma {:induction false} AnsweringOnly(queues: seq<seq<Outgoing>>, moments: seq<Moment>, answer: Moment -> Option<GossipMessage>,
                                         k: nat, j: nat)
    requires Answering(queues, moments, answer) && k <= |moments| && |queues[0]| <= j < |queues[k]|
    ensures exists m :: m in moments && answer(m) == Some(queues[k][j].message) && queues[k][j].target in m.known
  {
    if k > 0 {
      assert AnsweredAt(queues, moments, answer, k - 1);
      if j < |queues[k - 1]| {
        AnsweringOnly(queues, moments, answer, k - 1, j);
        assert queues[k][j] == queues[k - 1][j];
      } else {
        var m := moments[k - 1];
        SpreadTargets(queues[k - 1], queues[k], m.known, answer(m).value, NOBODY, j);
        assert m in moments;
      }
    }
  }

  /** A batch queues each of its PONGs as often as the fan-out and the known peers allow. */
  lemma RepliesCounted(before: seq<Outgoing>, after: seq<Outgoing>, moments: seq<Moment>, answer: Moment -> Option<GossipMessage>)
    requires Replied(before, after, moments, answer)
    ensures before <= after && |after| == |before| + CopiesOfAnswers(moments, answer)
  {
    var queues :| Answering(queues, moments, answer) && queues[0] == before && queues[|moments|] == after;
    AnsweringCounted(queues, moments, answer, |moments|);
    assert moments[..|moments|] == moments;
  }

  /** It queues nothing but PONGs to its messages, and those to peers known at the time. */
  lemma RepliesOnly(before: seq<Outgoing>, after: seq<Outgoing>, moments: seq<Moment>, answer: Moment -> Option<GossipMessage>, j: nat)
    requires Replied(before, after, moments, answer) && |before| <= j < |after|
    ensures exists m :: m in moments && answer(m) == Some(after[j].message) && after[j].target in m.known
  {
    var queues :| Answering(queues, moments, answer) && queues[0] == before && queues[|moments|] == after;
    AnsweringOnly(queues, moments, answer, |moments|, j);
  }

  /** What processing works on: the clock, the handler calls made, the outgoing queue and the known peers. */
  datatype Progress = Progress(clock: nat, calls: seq<Call>, outgoing: seq<Outgoing>, known: seq<Endpoint>)

  /** The effect of one message: the clock first, then the handler or the reply. */
  ghost predicate WorkedOne(before: Progress, after: Progress, h: Handlers, self: Endpoint, m: Stamped<Incoming>, time: Meantime) {
    && after.known == Refreshed(before.known, time.refresh)
    && after.clock == Passed(ClockAfter(before.clock, time.clockOps), m.stamp)
    && after.calls == before.calls + Handled(h, m.payload)
    && AnswerSpread(before.outgoing, after.outgoing, after.known, Answer(h, self, m.payload.message, time.now))
  }

  /** The effect of a batch: the clock passes all its stamps, its handlers are called in order, its PINGs answered. */
  ghost predicate Worked(before: Progress, after: Progress, h: Handlers, self: Endpoint,
                         batch: seq<Stamped<Incoming>>, other: nat -> Meantime) {
    && after.known == KnownAfter(before.known, other, |batch|)
    && after.clock == ClockAfter(before.clock, ProcessOps(Stamps(batch), ClockOpsOf(other)))
    && after.calls == before.calls + HandledAll(h, batch)
    && Replied(before.outgoing, after.outgoing, Moments(batch, before.known, other), AnswerTo(h, self))
  }

  /** The states passed through while the messages are handled one after the other. */
  ghost predicate Traced(trace: seq<Progress>, h: Handlers, self: Endpoint, batch: seq<Stamped<Incoming>>, other: nat -> Meantime) {
    |trace| <= |batch| + 1 && forall k :: 0 <= k < |trace| - 1 ==> WorkedAt(trace, h, self, batch, other, k)
  }

  ghost predicate WorkedAt(trace: seq<Progress>, h: Handlers, self: Endpoint, batch: seq<Stamped<Incoming>>,
                           other: nat -> Meantime, k: nat)
    requires k + 1 < |trace| <= |batch| + 1
  {
    WorkedOne(trace[k], trace[k + 1], h, self, batch[k], other(k))
  }

  lemma TracedSnoc(trace: seq<Progress>, next: Progress, h: Handlers, self: Endpoint, batch: seq<Stamped<Incoming>>,
                   other: nat -> Meantime)
    requires 0 < |trace| <= |batch| && Traced(trace, h, self, batch, other)
    requires WorkedOne(trace[|trace| - 1], next, h, self, batch[|trace| - 1], other(|trace| - 1))
    ensures Traced(trace + [next], h, self, batch, other)
  {
    forall k | 0 <= k < |trace|
      ensures WorkedAt(trace + [next], h, self, batch, other, k)
    {
      if k < |trace| - 1 {
        assert WorkedAt(trace, h, self, batch, other, k);
      }
    }
  }

  /** One step of the trace, taken apart. */
  lemma TracedStep(trace: seq<Progress>, h: Handlers, self: Endpoint, batch: seq<Stamped<Incoming>>, other: nat -> Meantime, k: nat)
    requires Traced(trace, h, self, batch, other) && k + 1 < |trace|
    ensures trace[k + 1].known == Refreshed(trace[k].known, other(k).refresh)
    ensures trace[k + 1].clock == ClockAfter(trace[k].clock, other(k).clockOps + StampOps(batch[k].stamp))
    ensures trace[k + 1].calls == trace[k].calls + Handled(h, batch[k].payload)
  {
    StampPassed(trace[k].clock, other(k).clockOps, batch[k].stamp);
    assert WorkedAt(trace, h, self, batch, other, k);
  }

  lemma {:induction false} TracedKnown(trace: seq<Progress>, h: Handlers, self: Endpoint, batch: seq<Stamped<Incoming>>,
                                       other: nat -> Meantime, k: nat)
    requires Traced(trace, h, self, batch, other) && k < |trace|
    ensures trace[k].known == KnownAfter(trace[0].known, other, k)
  {
    if k > 0 {
      TracedKnown(trace, h, self, batch, other, k - 1);
      TracedStep(trace, h, self, batch, other, k - 1);
    }
  }

  lemma TracedClock(trace: seq<Progress>, h: Handlers, self: Endpoint, batch: seq<Stamped<Incoming>>, other: nat -> Meantime)
    requires |trace| == |batch| + 1 && Traced(trace, h, self, batch, other)
    ensures trace[|batch|].clock == ClockAfter(trace[0].clock, ProcessOps(Stamps(batch), ClockOpsOf(other)))
  {
    var clocks := seq(|trace|, k requires 0 <= k < |trace| => trace[k].clock);
    forall k | 0 <= k < |batch|
      ensures ClockStep(clocks, Stamps(batch), ClockOpsOf(other), k)
    {
      TracedStep(trace, h, self, batch, other, k);
    }
    ClocksThrough(clocks, Stamps(batch), ClockOpsOf(other), |batch|);
    assert Stamps(batch)[..|batch|] == Stamps(batch);
  }

  lemma CallsSnoc(h: Handlers, calls: seq<Call>, batch: seq<Stamped<Incoming>>, m: Stamped<Incoming>)
    ensures calls + HandledAll(h, batch) + Handled(h, m.payload) == calls + HandledAll(h, batch + [m])
  {
    FlatMapSnoc(HandlerOf(h), batch, m);
    Associate(calls, HandledAll(h, batch), Handled(h, m.payload));
  }

  lemma {:induction false} TracedCalls(trace: seq<Progress>, h: Handlers, self: Endpoint, batch: seq<Stamped<Incoming>>,
                                       other: nat -> Meantime, k: nat)
    requires Traced(trace, h, self, batch, other) && k < |trace|
    ensures trace[k].calls == trace[0].calls + HandledAll(h, batch[..k])
  {
    if k > 0 {
      TracedCalls(trace, h, self, batch, other, k - 1);
      TracedStep(trace, h, self, batch, other, k - 1);
      CallsSnoc(h, trace[0].calls, batch[..k - 1], batch[k - 1]);
      assert batch[..k] == batch[..k - 1] + [batch[k - 1]];
    }
  }

  function Queues(trace: seq<Progress>): seq<seq<Outgoing>> {
    seq(|trace|, k requires 0 <= k < |trace| => trace[k].outgoing)
  }

  lemma TracedMoment(trace: seq<Progress>, h: Handlers, self: Endpoint, batch: seq<Stamped<Incoming>>, other: nat -> Meantime, k: nat)
    requires Traced(trace, h, self, batch, other) && k + 1 < |trace|
    ensures Moments(batch, trace[0].known, other)[k] == Moment(batch[k], trace[k + 1].known, other(k).now)
  {
    TracedKnown(trace, h, self, batch, other, k + 1);
  }

  lemma TracedAnswer(trace: seq<Progress>, h: Handlers, self: Endpoint, batch: seq<Stamped<Incoming>>, other: nat -> Meantime, k: nat)
    requires |trace| == |batch| + 1 && Traced(trace, h, self, batch, other) && k < |batch|
    ensures AnsweredAt(Queues(trace), Moments(batch, trace[0].known, other), AnswerTo(h, self), k)
  {
    assert WorkedAt(trace, h, self, batch, other, k);
    TracedMoment(trace, h, self, batch, other, k);
  }

  lemma TracedReplies(trace: seq<Progress>, h: Handlers, self: Endpoint, batch: seq<Stamped<Incoming>>, other: nat -> Meantime)
    requires |trace| == |batch| + 1 && Traced(trace, h, self, batch, other)
    ensures Replied(trace[0].outgoing, trace[|batch|].outgoing, Moments(batch, trace[0].known, other), AnswerTo(h, self))
  {
    var moments := Moments(batch, trace[0].known, other);
    forall k | 0 <= k < |batch|
      ensures AnsweredAt(Queues(trace), moments, AnswerTo(h, self), k)
    {
      TracedAnswer(trace, h, self, batch, other, k);
    }
    assert Answering(Queues(trace), moments, AnswerTo(h, self));
  }

  lemma TracedIsWorked(trace: seq<Progress>, h: Handlers, self: Endpoint, batch: seq<Stamped<Incoming>>, other: nat -> Meantime)
    requires |trace| == |batch| + 1 && Traced(trace, h, self, batch, other)
    ensures Worked(trace[0], trace[|batch|], h, self, batch, other)
  {
    TracedKnown(trace, h, self, batch, other, |batch|);
    TracedClock(trace, h, self, batch, other);
    TracedCalls(trace, h, self, batch, other, |batch|);
    TracedReplies(trace, h, self, batch, other);
    assert batch[..|batch|] == batch;
  }

  // ----- A node that receives is a delivery step of flooding -----

  /** What `handleReceivedMessage` does to the admissions and the outgoing queue. */
  ghost predicate Received(admitted: seq<string>, admitted': seq<string>, outgoing: seq<Outgoing>, outgoing': seq<Outgoing>,
                           known: seq<Endpoint>, message: GossipMessage, sender: Endpoint) {
    && admitted' == Admit(admitted, message.id)
    && if message.id in Window(admitted) then outgoing' == outgoing
       else Spread(outgoing, outgoing', known, message, sender)
  }

  /** Queued copies as flooding sees them, `number` giving each endpoint's node. */
  function CopiesOf(out: seq<Outgoing>, number: Endpoint -> nat): seq<Flood.Copy> {
    seq(|out|, k requires 0 <= k < |out| => Flood.Copy(number(out[k].target), out[k].message.id))
  }

  /** Receiving a copy at node i is a delivery step of flooding: same cache, same copies queued. */
  lemma ReceivedIsDelivery(s: Flood.State, k: nat, i: nat, admitted: seq<string>, admitted': seq<string>,
                           outgoing: seq<Outgoing>, outgoing': seq<Outgoing>, known: seq<Endpoint>,
                           message: GossipMessage, sender: Endpoint, number: Endpoint -> nat)
    requires k < |s.net| && s.net[k] == Flood.Copy(i, message.id)
    requires i < |s.caches| && s.caches[i] == Window(admitted)
    requires Received(admitted, admitted', outgoing, outgoing', known, message, sender)
    ensures |outgoing| <= |outgoing'|
    ensures exists peers ::
              && Flood.Enabled(s, Flood.Deliver(k, peers))
              && Flood.Next(s, Flood.Deliver(k, peers))
                 == Flood.State(s.caches[i := Window(admitted')],
                                Without(s.net, k) + CopiesOf(outgoing'[|outgoing|..], number))
  {
    var out := outgoing'[|outgoing|..];
    var peers := seq(|out|, j requires 0 <= j < |out| => number(out[j].target));
    RememberIsWindow(admitted, message.id);
    assert Flood.Enabled(s, Flood.Deliver(k, peers));
    assert Flood.Queues(s, Flood.Deliver(k, peers)) == CopiesOf(out, number);
  }

  // ----- The node as an object -----

  class Gossip {
    const self: Endpoint
    const handlers: Handlers
    const clock: LamportClock
    var messageCache: set<string>
    var messageCacheList: seq<string>
    var incoming: seq<Stamped<Incoming>>
    var outgoing: seq<Outgoing>
    var knownPeers: seq<Endpoint>
    var calls: seq<Call>
    ghost var admitted: seq<string>
    ghost var history: seq<BatchQueue.Event<Incoming>>

    /** The set and the list agree, and the list is the window of the admissions so far. */
    ghost predicate CacheValid()
      reads this
    {
      && messageCache == Elements(messageCacheList)
      && messageCacheList == Window(admitted)
      && FarApart(admitted)
    }

    ghost predicate Valid()
      reads this
    {
      CacheValid() && incoming == Queued(history) && Coherent(history, admitted, handlers, calls)
    }

    ghost function Done(): Progress
      reads this, clock
    {
      Progress(clock.clock, calls, outgoing, knownPeers)
    }

    constructor (self: Endpoint, handlers: Handlers)
      ensures Valid() && history == [] && admitted == [] && incoming == [] && outgoing == [] && calls == []
      ensures clock.clock == 1
    {
      this.self, this.handlers := self, handlers;
      var c := new LamportClock();
      clock := c;
      messageCache, messageCacheList, incoming, outgoing := {}, [], [], [];
      knownPeers, calls, admitted, history := [], [], [], [];
    }

    method InCache(id: string) returns (yes: bool)
      requires CacheValid()
      ensures yes <==> id in Window(admitted)
    {
      yes := id in messageCache;
    }

    method AddToCache(id: string)
      requires CacheValid()
      modifies this`messageCache, this`messageCacheList, this`admitted
      ensures CacheValid() && admitted == Admit(old(admitted), id)
    {
      var known := InCache(id);
      if known {
        return;
      }
      RememberIsWindow(admitted, id);
      AdmitFarApart(admitted, id);
      WindowDistinct(Admit(admitted, id));
      WindowDistinct(admitted);
      messageCache := messageCache + {id};
      messageCacheList := messageCacheList + [id];
      if |messageCacheList| > MAX_CACHE_SIZE {
        var oldest := messageCacheList[0];
        DropOldest(messageCacheList);
        messageCache := messageCache - {oldest};
        messageCacheList := messageCacheList[1..];
      }
      admitted := admitted + [id];
    }

    /** A random choice without repetition of positions among the peers other than `exclude`. */
    method SelectRandomPeers(count: nat, exclude: Endpoint) returns (result: seq<Endpoint>)
      ensures |result| == (if count < |Available(knownPeers, exclude)| then count else |Available(knownPeers, exclude)|)
      ensures multiset(result) <= multiset(Available(knownPeers, exclude))
    {
      var available := [];
      for i := 0 to |knownPeers|
        invariant available == Available(knownPeers[..i], exclude)
      {
        assert knownPeers[..i + 1][..i] == knownPeers[..i];
        if knownPeers[i] != exclude {
          available := available + [knownPeers[i]];
        }
      }
      assert knownPeers[..|knownPeers|] == knownPeers;
      result := [];
      var left := available;
      while left != [] && |result| < count
        invariant |result| <= count && |result| + |left| == |available|
        invariant multiset(result) + multiset(left) == multiset(available)
        decreases |left|
      {
        var k :| 0 <= k < |left|;
        WithoutElements(left, k);
        result, left := result + [left[k]], Without(left, k);
      }
    }

    method SpreadMessage(message: GossipMessage, exclude: Endpoint)
      modifies this`outgoing
      ensures Spread(old(outgoing), outgoing, knownPeers, message, exclude)
    {
      var peers := SelectRandomPeers(2, exclude);
      for i := 0 to |peers|
        invariant |outgoing| == |old(outgoing)| + i && old(outgoing) <= outgoing
        invariant forall j :: 0 <= j < i ==> outgoing[|old(outgoing)| + j] == Outgoing(peers[j], message)
      {
        outgoing := outgoing + [Outgoing(peers[i], message)];
      }
      assert Targets(outgoing[|old(outgoing)|..]) == peers;
      forall k | |old(outgoing)| <= k < |outgoing|
        ensures outgoing[k].message == message
      {
        assert outgoing[|old(outgoing)| + (k - |old(outgoing)|)] == Outgoing(peers[k - |old(outgoing)|], message);
      }
    }

    /** Remembers a fresh message and queues it for processing. */
    method Take(m: Stamped<Incoming>)
      requires Valid() && m.payload.message.id !in Window(admitted)
      modifies this`messageCache, this`messageCacheList, this`admitted, this`history, this`incoming
      ensures Valid() && admitted == old(admitted) + [m.payload.message.id]
      ensures history == old(history) + [Arrive(m)] && incoming == old(incoming) + [m]
    {
      CoherentArrival(history, admitted, handlers, calls, m);
      AddToCache(m.payload.message.id);
      incoming := incoming + [m];
      history := history + [Arrive(m)];
    }

    /** A fresh message is remembered, queued for processing and spread; a known one is ignored. */
    method HandleReceived(sender: Endpoint, message: GossipMessage)
      requires Valid()
      modifies this`messageCache, this`messageCacheList, this`admitted, this`history, this`incoming, this`outgoing
      ensures Valid()
      ensures Received(old(admitted), admitted, old(outgoing), outgoing, knownPeers, message, sender)
      ensures message.id in Window(old(admitted)) ==> history == old(history) && incoming == old(incoming)
      ensures message.id !in Window(old(admitted)) ==>
                var m := Stamped(message.stamp, Incoming(sender, message));
                history == old(history) + [Arrive(m)] && incoming == old(incoming) + [m]
    {
      var known := InCache(message.id);
      if known {
        return;
      }
      Take(Stamped(message.stamp, Incoming(sender, message)));
      SpreadMessage(message, sender);
    }

    /** Takes up to ten copies from the front of the outgoing queue. */
    method TakeOutgoing() returns (batch: seq<Outgoing>)
      modifies this`outgoing
      ensures batch == old(outgoing)[..BatchSize(old(outgoing))]
      ensures outgoing == old(outgoing)[BatchSize(old(outgoing))..]
    {
      batch := [];
      while outgoing != [] && |batch| < MAX_BATCH_SIZE
        invariant batch + outgoing == old(outgoing) && |batch| <= MAX_BATCH_SIZE
        decreases |outgoing|
      {
        batch, outgoing := batch + [outgoing[0]], outgoing[1..];
      }
      assert batch == old(outgoing)[..|batch|] && outgoing == old(outgoing)[|batch|..];
    }

    /**
     * Sends a batch from the front of the queue, stamping each copy. `other` is what the processing
     * thread does to the clock during each send.
     */
    method ProcessOutgoing(other: nat -> Meanwhile) returns (sent: seq<Outgoing>)
      modifies this`outgoing, clock
      ensures var n := BatchSize(old(outgoing));
              && sent == StampedCopies(old(clock.clock), old(outgoing)[..n], other)
              && outgoing == old(outgoing)[n..]
              && clock.clock == ClockAfter(old(clock.clock), SendOps(other, n))
    {
      var batch := TakeOutgoing();
      sent := SendBatch(batch, other);
    }

    method SendBatch(batch: seq<Outgoing>, other: nat -> Meanwhile) returns (sent: seq<Outgoing>)
      modifies clock
      ensures sent == StampedCopies(old(clock.clock), batch, other)
      ensures clock.clock == ClockAfter(old(clock.clock), SendOps(other, |batch|))
    {
      ghost var start := clock.clock;
      sent := [];
      for i := 0 to |batch|
        invariant sent == StampedCopies(start, batch[..i], other)
        invariant clock.clock == ClockAfter(start, SendOps(other, i))
      {
        SendOpsStep(start, other, i);
        StampedCopiesSnoc(start, batch, other, i);
        var stamp := clock.ReadAndIncrement(other(i));
        sent := sent + [batch[i].(message := batch[i].message.(stamp := stamp))];
      }
      assert batch[..|batch|] == batch;
    }

    /** The list of known peers is made anew from the DHT nodes. */
    method UpdateKnownPeers(nodes: seq<Endpoint>)
      modifies this`knownPeers
      ensures knownPeers == GossipPeers(nodes)
      ensures forall q :: q in knownPeers <==>
                exists i :: 0 <= i < |nodes| && nodes[i].ip == q.ip && 6881 <= nodes[i].port <= 6885 && q.port == nodes[i].port + 1000
    {
      knownPeers := [];
      for i := 0 to |nodes|
        invariant knownPeers == GossipPeers(nodes[..i])
      {
        assert nodes[..i + 1] == nodes[..i] + [nodes[i]];
        FlatMapSnoc(GossipPeer(), nodes[..i], nodes[i]);
        if 6881 <= nodes[i].port <= 6885 {
          knownPeers := knownPeers + [Endpoint(nodes[i].ip, nodes[i].port + 1000)];
        }
      }
      assert nodes[..|nodes|] == nodes;
      forall q
        ensures q in knownPeers <==>
                  exists i :: 0 <= i < |nodes| && nodes[i].ip == q.ip && 6881 <= nodes[i].port <= 6885 && q.port == nodes[i].port + 1000
      {
        KnownIff(nodes, q);
      }
    }

    /** One message: the clock first, then the handler or the reply. */
    method ProcessOne(m: Stamped<Incoming>, time: Meantime)
      modifies this`outgoing, this`calls, this`knownPeers, clock
      ensures WorkedOne(old(Done()), Done(), handlers, self, m, time)
    {
      if time.refresh.Some? {
        UpdateKnownPeers(time.refresh.value);
      }
      clock.PassStamp(m.stamp, time.clockOps);
      calls := calls + Handled(handlers, m.payload);
      var answer := Answer(handlers, self, m.payload.message, time.now);
      if answer.Some? {
        SpreadMessage(answer.value, NOBODY);
      }
    }

    /** Processes a batch of the smallest stamps. `other` is what happens before each message. */
    method ProcessIncoming(other: nat -> Meantime) returns (batch: seq<Stamped<Incoming>>)
      requires Valid()
      modifies this`incoming, this`outgoing, this`calls, this`history, this`knownPeers, clock
      ensures Valid() && history == old(history) + [Drain(batch, incoming)]
      ensures IsBatch(old(incoming), batch, incoming)
      ensures Worked(old(Done()), Done(), handlers, self, batch, other)
    {
      batch := TakeIncoming();
      ProcessBatch(batch, other);
    }

    /** Takes up to ten of the smallest stamps out of the queue. */
    method TakeIncoming() returns (batch: seq<Stamped<Incoming>>)
      requires Valid()
      modifies this`incoming, this`history
      ensures history == old(history) + [Drain(batch, incoming)]
      ensures CacheValid() && incoming == Queued(history)
      ensures Coherent(history, admitted, handlers, calls + HandledAll(handlers, batch))
      ensures IsBatch(old(incoming), batch, incoming)
    {
      batch, incoming := DrainBatch(incoming);
      CoherentDrain(history, admitted, handlers, calls, batch, incoming);
      history := history + [Drain(batch, incoming)];
    }

    method ProcessBatch(batch: seq<Stamped<Incoming>>, other: nat -> Meantime)
      modifies this`outgoing, this`calls, this`knownPeers, clock
      ensures Worked(old(Done()), Done(), handlers, self, batch, other)
    {
      ghost var trace := [Done()];
      for i := 0 to |batch|
        invariant |trace| == i + 1 && trace[0] == old(Done()) && trace[i] == Done()
        invariant Traced(trace, handlers, self, batch, other)
      {
        ProcessOne(batch[i], other(i));
        TracedSnoc(trace, Done(), handlers, self, batch, other);
        trace := trace + [Done()];
      }
      TracedIsWorked(trace, handlers, self, batch, other);
    }
  }
}
