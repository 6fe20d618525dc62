/**
 * What becomes of a search that the client's node has to forward. The client sends everything to
 * node 0; the holders among the nodes 1 and 2 answer node 0, which has cached the request.
 */
module ForwardedSearch {
  import opened Common
  import opened RingHash
  import opened Tokeniser
  import opened IndexNode
  import opened Convergence
  import opened IndexSystem
  import opened IndexRequests
  import opened KeywordAdds

  function Want(source: Endpoint, id: string, keyword: string): IndexMessage {
    IndexMessage(source, id, WantTorrent(keyword))
  }

  /** A holder's reply to node 0. */
  function ReplyToZero(ring: seq<Endpoint>, st: Store, i: nat, id: string, keyword: string): Packet
    requires i < |ring|
  {
    Packet(ring[0], IndexMessage(ring[i], id, GiveTorrent("", Search(st, keyword))))
  }

  /** What node i sends when node 0's forward reaches it: a reply, or forwards of its own. */
  function Reaction(ring: seq<Endpoint>, st: Store, i: nat, id: string, keyword: string): seq<Packet>
    requires i < |ring|
  {
    if Responsible(i, keyword, |ring|) then [ReplyToZero(ring, st, i, id, keyword)]
    else Stamped(ring[i], WantPackets(ring, st, i, Want(ring[0], id, keyword)))
  }

  /** No node has cached the request, and caching it will not empty a gate. */
  ghost predicate Unseen(s: System, id: string) {
    forall i :: 0 <= i < |s.nodes| ==> id !in s.nodes[i].gate && |s.nodes[i].gate| < MAX_GATE_SIZE
  }

  /** The nodes 0, 1 and 2 have cached the request. */
  ghost predicate SeenByPrefix(s: System, id: string) {
    forall i :: 0 <= i <= NUM_REPLICATIONS && i < |s.nodes| ==>
      id in s.nodes[i].gate && |s.nodes[i].gate| <= MAX_GATE_SIZE
  }

  ghost predicate SameStores(s: System, s': System) {
    |s.nodes| == |s'.nodes| && forall i :: 0 <= i < |s.nodes| ==> s'.nodes[i].store == s.nodes[i].store
  }

  function Cached(nodes: seq<NodeState>, i: nat, id: string): seq<NodeState>
    requires i < |nodes|
  {
    nodes[i := nodes[i].(gate := nodes[i].gate + {id})]
  }

  lemma PrefixCached(s: System, s': System, id: string)
    requires |s.nodes| > NUM_REPLICATIONS && Unseen(s, id)
    requires s'.nodes == Cached(Cached(Cached(s.nodes, 0, id), 1, id), 2, id)
    ensures SeenByPrefix(s', id) && SameStores(s, s')
  {
  }

  // ----- Single deliveries -----

  lemma WantReceived(ring: seq<Endpoint>, s: System, i: nat, m: IndexMessage)
    requires i < |s.nodes| == |ring| && m.body.WantTorrent? && m.requestId != ""
    requires m.requestId !in s.nodes[i].gate && |s.nodes[i].gate| < MAX_GATE_SIZE
    ensures var s', st := Received(ring, s, i, m, 0), s.nodes[i].store;
            && s'.net == s.net + Stamped(ring[i], WantPackets(ring, st, i, m))
            && s'.nodes == s.nodes[i := s.nodes[i].(gate := s.nodes[i].gate + {m.requestId})]
  {
  }

  /** A search arriving at a node that has not seen it. */
  lemma WantArrives(ring: seq<Endpoint>, steps: seq<Step>, i: nat, m: IndexMessage, rest: seq<Packet>)
    requires i < |ring| && m.body.WantTorrent? && m.requestId != ""
    requires var s := Run(ring, steps);
             && s.net == [Packet(ring[i], m)] + rest
             && m.requestId !in s.nodes[i].gate && |s.nodes[i].gate| < MAX_GATE_SIZE
    ensures var s, s' := Run(ring, steps), Run(ring, steps + [Deliver(0, i, 0)]);
            && s'.net == rest + Stamped(ring[i], WantPackets(ring, s.nodes[i].store, i, m))
            && s'.nodes == s.nodes[i := s.nodes[i].(gate := s.nodes[i].gate + {m.requestId})]
  {
    var s := Run(ring, steps);
    RunSnoc(ring, steps, Deliver(0, i, 0));
    assert Without(s.net, 0) == rest;
    WantReceived(ring, s.(net := rest), i, m);
  }

  /** A message arriving at a node that has seen its request goes nowhere. */
  lemma SeenArrives(ring: seq<Endpoint>, steps: seq<Step>, i: nat, m: IndexMessage, rest: seq<Packet>)
    requires i < |ring| && m.requestId != "" && !m.body.KeywordAdd?
    requires var s := Run(ring, steps);
             && s.net == [Packet(ring[i], m)] + rest
             && m.requestId in s.nodes[i].gate && |s.nodes[i].gate| <= MAX_GATE_SIZE
    ensures var s, s' := Run(ring, steps), Run(ring, steps + [Deliver(0, i, 0)]);
            s'.net == rest && s'.nodes == s.nodes
  {
    var s := Run(ring, steps);
    RunSnoc(ring, steps, Deliver(0, i, 0));
    assert Without(s.net, 0) == rest;
    assert s.nodes[i].gate + {m.requestId} == s.nodes[i].gate;
  }

  // ----- Node 0 forwards, the nodes 1 and 2 react -----

  lemma ForwardsOfZero(ring: seq<Endpoint>, m: IndexMessage)
    requires |ring| >= 4
    ensures Forwards(ring, 0, m, NUM_REPLICATIONS + 1) == [Packet(ring[1], m), Packet(ring[2], m)]
  {
    assert Forwards(ring, 0, m, 1) == [];
    assert Forwards(ring, 0, m, 2) == [Packet(ring[1], m)];
  }

  lemma ForwardedByZero(ring: seq<Endpoint>, st: Store, source: Endpoint, id: string, keyword: string)
    requires |ring| >= 4 && !Responsible(0, keyword, |ring|)
    ensures Stamped(ring[0], WantPackets(ring, st, 0, Want(source, id, keyword)))
         == [Packet(ring[1], Want(ring[0], id, keyword)), Packet(ring[2], Want(ring[0], id, keyword))]
  {
    ForwardsOfZero(ring, Want(source, id, keyword));
  }

  lemma ReactionIsDispatch(ring: seq<Endpoint>, st: Store, i: nat, id: string, keyword: string)
    requires i < |ring|
    ensures Stamped(ring[i], WantPackets(ring, st, i, Want(ring[0], id, keyword))) == Reaction(ring, st, i, id, keyword)
  {
  }

  /** The search reaches node 0 and its forwards reach the nodes 1 and 2. */
  function Reaching(): seq<Step> {
    [Deliver(0, 0, 0)] + [Deliver(0, 1, 0)] + [Deliver(0, 2, 0)]
  }

  lemma SearchReaches(ring: seq<Endpoint>, steps: seq<Step>, source: Endpoint, id: string, keyword: string)
    requires |ring| >= 4 && id != "" && !Responsible(0, keyword, |ring|)
    requires var s := Run(ring, steps);
             s.net == [Packet(ring[0], Want(source, id, keyword))] && Unseen(s, id)
    ensures var s, s' := Run(ring, steps), Run(ring, steps + Reaching());
            && s'.net == Reaction(ring, s.nodes[1].store, 1, id, keyword) + Reaction(ring, s.nodes[2].store, 2, id, keyword)
            && SeenByPrefix(s', id) && SameStores(s, s')
  {
    ReachesPrefix(ring, steps, source, id, keyword);
    Associate(steps, [Deliver(0, 0, 0)] + [Deliver(0, 1, 0)], [Deliver(0, 2, 0)]);
    Associate(steps, [Deliver(0, 0, 0)], [Deliver(0, 1, 0)]);
    PrefixCached(Run(ring, steps), Run(ring, steps + Reaching()), id);
  }

  lemma ReachesPrefix(ring: seq<Endpoint>, steps: seq<Step>, source: Endpoint, id: string, keyword: string)
    requires |ring| >= 4 && id != "" && !Responsible(0, keyword, |ring|)
    requires var s := Run(ring, steps);
             s.net == [Packet(ring[0], Want(source, id, keyword))] && Unseen(s, id)
    ensures var s, s' := Run(ring, steps), Run(ring, steps + [Deliver(0, 0, 0)] + [Deliver(0, 1, 0)] + [Deliver(0, 2, 0)]);
            && s'.net == Reaction(ring, s.nodes[1].store, 1, id, keyword) + Reaction(ring, s.nodes[2].store, 2, id, keyword)
            && s'.nodes == Cached(Cached(Cached(s.nodes, 0, id), 1, id), 2, id)
  {
    ZeroForwards(ring, steps, source, id, keyword);
    BothReact(ring, steps + [Deliver(0, 0, 0)], id, keyword);
  }

  lemma ZeroForwards(ring: seq<Endpoint>, steps: seq<Step>, source: Endpoint, id: string, keyword: string)
    requires |ring| >= 4 && id != "" && !Responsible(0, keyword, |ring|)
    requires var s := Run(ring, steps);
             s.net == [Packet(ring[0], Want(source, id, keyword))] && Unseen(s, id)
    ensures var s, s' := Run(ring, steps), Run(ring, steps + [Deliver(0, 0, 0)]);
            var m := Want(ring[0], id, keyword);
            && s'.net == [Packet(ring[1], m)] + [Packet(ring[2], m)]
            && s'.nodes == Cached(s.nodes, 0, id)
  {
    var s := Run(ring, steps);
    assert s.net == [Packet(ring[0], Want(source, id, keyword))] + [];
    WantArrives(ring, steps, 0, Want(source, id, keyword), []);
    ForwardedByZero(ring, s.nodes[0].store, source, id, keyword);
  }

  lemma BothReact(ring: seq<Endpoint>, steps: seq<Step>, id: string, keyword: string)
    requires |ring| >= 4 && id != ""
    requires var s, m := Run(ring, steps), Want(ring[0], id, keyword);
             && s.net == [Packet(ring[1], m)] + [Packet(ring[2], m)]
             && id !in s.nodes[1].gate && |s.nodes[1].gate| < MAX_GATE_SIZE
             && id !in s.nodes[2].gate && |s.nodes[2].gate| < MAX_GATE_SIZE
    ensures var s, s' := Run(ring, steps), Run(ring, steps + [Deliver(0, 1, 0)] + [Deliver(0, 2, 0)]);
            && s'.net == Reaction(ring, s.nodes[1].store, 1, id, keyword) + Reaction(ring, s.nodes[2].store, 2, id, keyword)
            && s'.nodes == Cached(Cached(s.nodes, 1, id), 2, id)
  {
    var s, m := Run(ring, steps), Want(ring[0], id, keyword);
    WantArrives(ring, steps, 1, m, [Packet(ring[2], m)]);
    ReactionIsDispatch(ring, s.nodes[1].store, 1, id, keyword);
    ReactionIsDispatch(ring, s.nodes[2].store, 2, id, keyword);
    WantArrives(ring, steps + [Deliver(0, 1, 0)], 2, m, Reaction(ring, s.nodes[1].store, 1, id, keyword));
  }

  // ----- Everything that is left is refused -----

  /** A message of the request for one of the nodes 0, 1 and 2. */
  ghost predicate ForPrefix(ring: seq<Endpoint>, p: Packet, id: string)
    requires |ring| > NUM_REPLICATIONS
  {
    && p.message.requestId == id && !p.message.body.KeywordAdd?
    && exists i :: 0 <= i <= NUM_REPLICATIONS && p.target == ring[i]
  }

  function PrefixIndex(ring: seq<Endpoint>, target: Endpoint): nat
    requires |ring| > NUM_REPLICATIONS
  {
    if target == ring[0] then 0 else if target == ring[1] then 1 else 2
  }

  /** Deliver all these messages in order. */
  function DeliverAll(ring: seq<Endpoint>, net: seq<Packet>): seq<Step>
    requires |ring| > NUM_REPLICATIONS
  {
    seq(|net|, k requires 0 <= k < |net| => Deliver(0, PrefixIndex(ring, net[k].target), 0))
  }

  lemma HeadForPrefix(ring: seq<Endpoint>, net: seq<Packet>, id: string)
    requires |ring| > NUM_REPLICATIONS && net != [] && ForPrefix(ring, net[0], id)
    ensures net == [Packet(ring[PrefixIndex(ring, net[0].target)], net[0].message)] + net[1..]
  {
  }

  lemma DeliverAllSplit(ring: seq<Endpoint>, net: seq<Packet>)
    requires |ring| > NUM_REPLICATIONS && net != []
    ensures DeliverAll(ring, net) == [Deliver(0, PrefixIndex(ring, net[0].target), 0)] + DeliverAll(ring, net[1..])
  {
  }

  lemma {:induction false} AllRefused(ring: seq<Endpoint>, steps: seq<Step>, net: seq<Packet>, id: string)
    requires |ring| > NUM_REPLICATIONS && id != ""
    requires Run(ring, steps).net == net && SeenByPrefix(Run(ring, steps), id)
    requires forall p :: p in net ==> ForPrefix(ring, p, id)
    ensures var s' := Run(ring, steps + DeliverAll(ring, net)); s'.net == [] && s'.nodes == Run(ring, steps).nodes
    decreases net
  {
    if net == [] {
      assert steps + DeliverAll(ring, net) == steps;
    } else {
      var i, m, rest := PrefixIndex(ring, net[0].target), net[0].message, net[1..];
      var first := Deliver(0, i, 0);
      assert ForPrefix(ring, net[0], id);
      HeadForPrefix(ring, net, id);
      SeenArrives(ring, steps, i, m, rest);
      AllRefused(ring, steps + [first], rest, id);
      DeliverAllSplit(ring, net);
      Associate(steps, [first], DeliverAll(ring, rest));
    }
  }

  lemma ReactionForPrefix(ring: seq<Endpoint>, st: Store, i: nat, id: string, keyword: string)
    requires |ring| >= 4 && i < |ring|
    ensures forall p :: p in Reaction(ring, st, i, id, keyword) ==> ForPrefix(ring, p, id)
  {
    if !Responsible(i, keyword, |ring|) {
      var m := Want(ring[0], id, keyword);
      var ps := WantPackets(ring, st, i, m);
      ForwardsShape(ring, i, m, NUM_REPLICATIONS + 1);
      forall p | p in Stamped(ring[i], ps)
        ensures ForPrefix(ring, p, id)
      {
        var x :| 0 <= x < |ps| && Stamped(ring[i], ps)[x] == p;
        assert ps[x] in ps;
      }
    }
  }

  // ----- The client's search -----

  /** The client sends the search to node 0, as it does, and it reaches the nodes 0, 1 and 2. */
  function Asking(client: Endpoint, id: string, keyword: string): seq<Step> {
    [ClientSend(client, 0, id, WantTorrent(keyword))] + Reaching()
  }

  /** Then all messages that are left are delivered. */
  ghost function Settling(ring: seq<Endpoint>, steps: seq<Step>, client: Endpoint, id: string, keyword: string): seq<Step>
    requires |ring| > NUM_REPLICATIONS
  {
    DeliverAll(ring, Run(ring, steps + Asking(client, id, keyword)).net)
  }

  lemma SearchAsked(ring: seq<Endpoint>, steps: seq<Step>, client: Endpoint, id: string, keyword: string)
    requires |ring| > 0 && client !in ring && Run(ring, steps).net == []
    ensures var s, s' := Run(ring, steps), Run(ring, steps + [ClientSend(client, 0, id, WantTorrent(keyword))]);
            s'.net == [Packet(ring[0], Want(client, id, keyword))] && s'.nodes == s.nodes
  {
    RunSnoc(ring, steps, ClientSend(client, 0, id, WantTorrent(keyword)));
  }

  /** Once the nodes 0, 1 and 2 have the search, the holders among 1 and 2 have answered, but to node 0. */
  lemma HoldersAnswerZero(ring: seq<Endpoint>, steps: seq<Step>, client: Endpoint, id: string, keyword: string)
    requires |ring| > 0 && client !in ring && id != "" && !Responsible(0, keyword, |ring|)
    requires Run(ring, steps).net == [] && Unseen(Run(ring, steps), id)
    ensures |ring| >= 4
    ensures var s, s' := Run(ring, steps), Run(ring, steps + Asking(client, id, keyword));
            && s'.net == Reaction(ring, s.nodes[1].store, 1, id, keyword) + Reaction(ring, s.nodes[2].store, 2, id, keyword)
            && SeenByPrefix(s', id) && SameStores(s, s')
  {
    ForwardingNeedsFourNodes(0, keyword, |ring|);
    var asked := steps + [ClientSend(client, 0, id, WantTorrent(keyword))];
    SearchAsked(ring, steps, client, id, keyword);
    SearchReaches(ring, asked, client, id, keyword);
    Associate(steps, [ClientSend(client, 0, id, WantTorrent(keyword))], Reaching());
  }

  /**
   * On every ring, whatever the index holds, a client's search for a keyword that node 0 does not hold
   * comes to nothing: the holders that are reached answer node 0, every message left is refused where
   * it arrives, and in the end none is left. Nothing was ever sent to the client, for that could only
   * have gone by a `Consume` step.
   */
  lemma SearchComesToNothing(ring: seq<Endpoint>, steps: seq<Step>, client: Endpoint, id: string, keyword: string)
    requires |ring| > 0 && client !in ring && id != "" && !Responsible(0, keyword, |ring|)
    requires Run(ring, steps).net == [] && Unseen(Run(ring, steps), id)
    ensures |ring| >= 4
    ensures var s, reached := Run(ring, steps), steps + Asking(client, id, keyword);
            var s' := Run(ring, reached + Settling(ring, steps, client, id, keyword));
            && Run(ring, reached).net
               == Reaction(ring, s.nodes[1].store, 1, id, keyword) + Reaction(ring, s.nodes[2].store, 2, id, keyword)
            && s'.net == [] && s'.nodes == Run(ring, reached).nodes && SameStores(s, s')
  {
    HoldersAnswerZero(ring, steps, client, id, keyword);
    var s := Run(ring, steps);
    ReactionForPrefix(ring, s.nodes[1].store, 1, id, keyword);
    ReactionForPrefix(ring, s.nodes[2].store, 2, id, keyword);
    var reached := steps + Asking(client, id, keyword);
    AllRefused(ring, reached, Run(ring, reached).net, id);
  }

  /** Every ring of four or more has a one-letter keyword that node 0 does not hold. */
  lemma LetterOffZero(n: nat) returns (keyword: string)
    requires n >= 4
    ensures !Responsible(0, keyword, n) && |keyword| == 1 && 'a' <= keyword[0] <= 'd'
  {
    var base := 5381 * 33 + 97;
    var q, b := base / n, base % n;
    assert base == q * n + b;
    var shift := if b == 0 then 1 else if b <= n - 3 then 0 else n + 1 - b;
    ModUnique(base + shift, n, if b <= n - 3 then q else q + 1, if b == 0 then 1 else if b <= n - 3 then b else 1);
    keyword := [(97 + shift) as char];
    OneLetterHash(keyword);
  }

  // ----- A title that is stored and not delivered -----

  /** On a ring of five "b" is held by the nodes 1, 2 and 3. */
  lemma PlacedOnFive()
    ensures Deliveries(Keywords("b"), 5) == [Delivery(1, "b"), Delivery(2, "b"), Delivery(3, "b")]
    ensures !Responsible(0, "b", 5) && Responsible(1, "b", 5) && Responsible(2, "b", 5)
  {
    OneLetterHash("b");
    CleanWordIsItsKeyword("b");
    assert ["b"][1..] == [];
    assert DeliveriesOf("b", 5) == [Delivery(1, "b"), Delivery(2, "b"), Delivery(3, "b")];
    assert Deliveries(["b"], 5) == DeliveriesOf("b", 5) + [] == DeliveriesOf("b", 5);
  }

  /** The client adds the title "b" at node 0, which sends it to its three holders. */
  function Adding(client: Endpoint, id: string, magnet: string): seq<Step> {
    [ClientSend(client, 0, id, AddTorrent("b", magnet))] + [Deliver(0, 0, 0)]
  }

  function Storing(client: Endpoint, id: string, magnet: string): seq<Step> {
    Adding(client, id, magnet) + Repeated(RunJob(0), 3) + [Deliver(0, 1, 0)] + [Deliver(0, 2, 0)] + [Deliver(0, 3, 0)]
  }

  lemma AddReceived(ring: seq<Endpoint>, client: Endpoint, id: string, magnet: string)
    requires |ring| == 5 && client !in ring && id != ""
    ensures var s := Run(ring, Adding(client, id, magnet));
            && s.net == [] && s.jobs == JobsOf(0, Deliveries(Keywords("b"), 5), "b", magnet)
            && s.nodes[0].gate == {id}
            && (forall i :: 1 <= i < 5 ==> s.nodes[i] == NodeState(EMPTY_STORE, {}))
  {
    var send, m := ClientSend(client, 0, id, AddTorrent("b", magnet)), IndexMessage(client, id, AddTorrent("b", magnet));
    AddAsked(ring, client, id, magnet);
    AddDelivered(ring, [send], m);
  }

  lemma AddDelivered(ring: seq<Endpoint>, steps: seq<Step>, m: IndexMessage)
    requires |ring| == 5 && m.requestId != "" && m.body.AddTorrent? && m.body.title == "b"
    requires var s := Run(ring, steps);
             && s.net == [Packet(ring[0], m)] && s.jobs == []
             && forall i :: 0 <= i < 5 ==> s.nodes[i] == NodeState(EMPTY_STORE, {})
    ensures var s := Run(ring, steps + [Deliver(0, 0, 0)]);
            && s.net == [] && s.jobs == JobsOf(0, Deliveries(Keywords("b"), 5), "b", m.body.magnet)
            && s.nodes[0].gate == {m.requestId}
            && (forall i :: 1 <= i < 5 ==> s.nodes[i] == NodeState(EMPTY_STORE, {}))
  {
    var s := Run(ring, steps);
    RunSnoc(ring, steps, Deliver(0, 0, 0));
    assert Without(s.net, 0) == [];
    AddTaken(ring, s.(net := []), m);
  }

  lemma AddAsked(ring: seq<Endpoint>, client: Endpoint, id: string, magnet: string)
    requires |ring| == 5 && client !in ring
    ensures var s := Run(ring, [ClientSend(client, 0, id, AddTorrent("b", magnet))]);
            && s.net == [Packet(ring[0], IndexMessage(client, id, AddTorrent("b", magnet)))] && s.jobs == []
            && forall i :: 0 <= i < 5 ==> s.nodes[i] == NodeState(EMPTY_STORE, {})
  {
    var send := ClientSend(client, 0, id, AddTorrent("b", magnet));
    assert [] + [send] == [send];
    RunSnoc(ring, [], send);
  }

  lemma AddTaken(ring: seq<Endpoint>, s: System, m: IndexMessage)
    requires |ring| == |s.nodes| == 5 && m.requestId != "" && m.body.AddTorrent? && m.body.title == "b"
    requires s.jobs == [] && forall i :: 0 <= i < 5 ==> s.nodes[i] == NodeState(EMPTY_STORE, {})
    ensures var s' := Received(ring, s, 0, m, 0);
            && s'.net == s.net && s'.jobs == JobsOf(0, Deliveries(Keywords("b"), 5), "b", m.body.magnet)
            && s'.nodes[0].gate == {m.requestId}
            && (forall i :: 1 <= i < 5 ==> s'.nodes[i] == s.nodes[i])
  {
    assert [] + JobsOf(0, Deliveries(Keywords("b"), 5), "b", m.body.magnet) == JobsOf(0, Deliveries(Keywords("b"), 5), "b", m.body.magnet);
    assert |{m.requestId}| == 1 && {} + {m.requestId} == {m.requestId};
  }

  function KeywordAddFromZero(ring: seq<Endpoint>, i: nat, magnet: string): Packet
    requires i < |ring| == 5
  {
    Packet(ring[i], IndexMessage(ring[0], "", KeywordAdd("b", "b", magnet)))
  }

  lemma AddSent(ring: seq<Endpoint>, client: Endpoint, id: string, magnet: string)
    requires |ring| == 5 && client !in ring && id != ""
    ensures var s := Run(ring, Adding(client, id, magnet) + Repeated(RunJob(0), 3));
            && s.net == [KeywordAddFromZero(ring, 1, magnet), KeywordAddFromZero(ring, 2, magnet), KeywordAddFromZero(ring, 3, magnet)]
            && s.jobs == [] && s.nodes[0].gate == {id}
            && (forall i :: 1 <= i < 5 ==> s.nodes[i] == NodeState(EMPTY_STORE, {}))
  {
    var steps, ds := Adding(client, id, magnet), Deliveries(Keywords("b"), 5);
    AddReceived(ring, client, id, magnet);
    PlacedOnFive();
    assert [] + JobsOf(0, ds, "b", magnet) == JobsOf(0, ds, "b", magnet);
    JobsWorkedOff(ring, steps, 0, ds, "b", magnet, [], 3);
    AllSent(ring, Run(ring, steps), ds, magnet);
  }

  lemma AllSent(ring: seq<Endpoint>, s: System, ds: seq<Delivery>, magnet: string)
    requires |ring| == |s.nodes| == 5 && ds == [Delivery(1, "b"), Delivery(2, "b"), Delivery(3, "b")]
    ensures var s' := Midway(ring, s, 0, ds, "b", magnet, [], 3);
            && s'.net == s.net + [KeywordAddFromZero(ring, 1, magnet), KeywordAddFromZero(ring, 2, magnet), KeywordAddFromZero(ring, 3, magnet)]
            && s'.jobs == [] && s'.nodes[0].gate == s.nodes[0].gate
            && (forall i :: 1 <= i < 5 ==> s'.nodes[i] == s.nodes[i])
  {
    assert ds[..3] == ds;
    assert JobsOf(0, ds, "b", magnet)[3..] == [];
    AllRemote(ring, magnet);
  }

  lemma AllRemote(ring: seq<Endpoint>, magnet: string)
    requires |ring| == 5
    ensures var ds := [Delivery(1, "b"), Delivery(2, "b"), Delivery(3, "b")];
            Stamped(ring[0], RemotePackets(ring, 0, ds, "b", magnet))
            == [KeywordAddFromZero(ring, 1, magnet), KeywordAddFromZero(ring, 2, magnet), KeywordAddFromZero(ring, 3, magnet)]
  {
    var ds := [Delivery(1, "b"), Delivery(2, "b"), Delivery(3, "b")];
    assert [] + ds == ds;
    RemoteThree(ring, 0, [], ds[0], ds[1], ds[2], "b", magnet);
  }

  /** A node that has taken up the title from node 0 and nothing else. */
  function Holder(ring: seq<Endpoint>, magnet: string): NodeState
    requires |ring| > 0
  {
    NodeState(Record(EMPTY_STORE, "b", "b", magnet), {SourceKey(ring[0])})
  }

  /** The nodes 1, 2 and 3 list the title, and nothing is under way. */
  lemma TitleStored(ring: seq<Endpoint>, client: Endpoint, id: string, magnet: string)
    requires Ring(ring) && |ring| == 5 && client !in ring && id != ""
    ensures var s := Run(ring, Storing(client, id, magnet));
            && s.net == [] && s.jobs == [] && s.nodes[0].gate == {id}
            && (forall i :: 1 <= i < 4 ==>
                  s.nodes[i] == Holder(ring, magnet))
            && s.nodes[4].gate == {}
  {
    AddSent(ring, client, id, magnet);
    AllStored(ring, Adding(client, id, magnet) + Repeated(RunJob(0), 3), magnet);
  }

  lemma AllStored(ring: seq<Endpoint>, steps: seq<Step>, magnet: string)
    requires Ring(ring) && |ring| == 5
    requires var s := Run(ring, steps);
             && s.net == [KeywordAddFromZero(ring, 1, magnet), KeywordAddFromZero(ring, 2, magnet), KeywordAddFromZero(ring, 3, magnet)]
             && s.nodes[1] == s.nodes[2] == s.nodes[3] == NodeState(EMPTY_STORE, {})
    ensures var s, s' := Run(ring, steps), Run(ring, steps + [Deliver(0, 1, 0)] + [Deliver(0, 2, 0)] + [Deliver(0, 3, 0)]);
            && s'.net == [] && s'.jobs == s.jobs
            && s'.nodes == s.nodes[1 := Holder(ring, magnet)][2 := Holder(ring, magnet)][3 := Holder(ring, magnet)]
  {
    var a, b, c := KeywordAddFromZero(ring, 1, magnet), KeywordAddFromZero(ring, 2, magnet), KeywordAddFromZero(ring, 3, magnet);
    assert [a, b, c] == [a] + [b, c] && [b, c] == [b] + [c] && [c] == [c] + [];
    StoredAt(ring, steps, 1, magnet, [b, c]);
    StoredAt(ring, steps + [Deliver(0, 1, 0)], 2, magnet, [c]);
    StoredAt(ring, steps + [Deliver(0, 1, 0)] + [Deliver(0, 2, 0)], 3, magnet, []);
  }

  lemma StoredAt(ring: seq<Endpoint>, steps: seq<Step>, i: nat, magnet: string, rest: seq<Packet>)
    requires Ring(ring) && i < |ring| == 5
    requires var s := Run(ring, steps);
             s.net == [KeywordAddFromZero(ring, i, magnet)] + rest && s.nodes[i] == NodeState(EMPTY_STORE, {})
    ensures var s, s' := Run(ring, steps), Run(ring, steps + [Deliver(0, i, 0)]);
            && s'.net == rest && s'.jobs == s.jobs
            && s'.nodes == s.nodes[i := Holder(ring, magnet)]
  {
    KeywordAddArrives(ring, steps, i, KeywordAddFromZero(ring, i, magnet).message, rest);
  }

  /**
   * On a ring of five, the size in use, a client adds the title "b" and then searches for it. Both holders
   * that are reached find it and send it to node 0; in the end no message is left and the client has
   * been sent nothing.
   */
  lemma StoredTitleNotDelivered(ring: seq<Endpoint>, client: Endpoint, addId: string, id: string, magnet: string)
    requires Ring(ring) && |ring| == 5 && client !in ring
    requires addId != "" && id != "" && id != addId && id != SourceKey(ring[0])
    ensures var stored := Storing(client, addId, magnet);
            var reached := stored + Asking(client, id, "b");
            var found := [TorrentResult("b", magnet)];
            && Search(Run(ring, stored).nodes[1].store, "b") == found == Search(Run(ring, stored).nodes[2].store, "b")
            && Run(ring, reached).net == [Packet(ring[0], IndexMessage(ring[1], id, GiveTorrent("", found))),
                                          Packet(ring[0], IndexMessage(ring[2], id, GiveTorrent("", found)))]
            && Run(ring, reached + Settling(ring, stored, client, id, "b")).net == []
  {
    TitleStored(ring, client, addId, magnet);
    UnseenByKeys(Run(ring, Storing(client, addId, magnet)), addId, SourceKey(ring[0]), id);
    FoundNotDelivered(ring, Storing(client, addId, magnet), client, id, magnet);
  }

  lemma UnseenByKeys(s: System, a: string, b: string, id: string)
    requires id != a && id != b && |s.nodes| == 5
    requires s.nodes[0].gate == {a} && s.nodes[4].gate == {} && forall i :: 1 <= i < 4 ==> s.nodes[i].gate == {b}
    ensures Unseen(s, id)
  {
    assert |{a}| == 1 && |{b}| == 1;
  }

  lemma FoundNotDelivered(ring: seq<Endpoint>, steps: seq<Step>, client: Endpoint, id: string, magnet: string)
    requires |ring| == 5 && client !in ring && id != ""
    requires var s := Run(ring, steps);
             && s.net == [] && Unseen(s, id)
             && s.nodes[1].store == Record(EMPTY_STORE, "b", "b", magnet) == s.nodes[2].store
    ensures var s, reached, found := Run(ring, steps), steps + Asking(client, id, "b"), [TorrentResult("b", magnet)];
            && Search(s.nodes[1].store, "b") == found == Search(s.nodes[2].store, "b")
            && Run(ring, reached).net == [Packet(ring[0], IndexMessage(ring[1], id, GiveTorrent("", found))),
                                          Packet(ring[0], IndexMessage(ring[2], id, GiveTorrent("", found)))]
            && Run(ring, reached + Settling(ring, steps, client, id, "b")).net == []
  {
    PlacedOnFive();
    SearchComesToNothing(ring, steps, client, id, "b");
    OneFound(magnet);
  }

  lemma OneFound(magnet: string)
    ensures Search(Record(EMPTY_STORE, "b", "b", magnet), "b") == [TorrentResult("b", magnet)]
  {
  }
}
