/**
 * The whole index: a ring of nodes, the messages in flight between them and their clients, and
 * the keyword distributions still being worked off. Steps interleave freely; messages may be
 * reordered, duplicated and lost.
 */
module IndexSystem {
  import opened Common
  import opened RingHash
  import opened Tokeniser
  import opened IndexNode
  import opened Convergence

  /** A pending element of `keyword_distribution` at node `adder`. */
  datatype Job = Job(adder: nat, delivery: Delivery, title: string, magnet: string)

  /** An index entry that a node should have: this title under this keyword. */
  datatype Entry = Entry(node: nat, keyword: string, title: string)

  /** A search a client sent: who asked, which node, for what. */
  datatype Ask = Ask(requestId: string, client: Endpoint, node: nat, keyword: string)

  /**
   * `lost`, `accepted` and `asks` are history: the entries whose KeywordAdd was lost by the network
   * or refused by a gate, the client adds that were taken up, and the searches clients sent.
   */
  datatype System = System(
    nodes: seq<NodeState>,
    net: seq<Packet>,
    jobs: seq<Job>,
    lost: set<Entry>,
    accepted: set<TorrentResult>,
    asks: set<Ask>)

  datatype Step =
    | ClientSend(client: Endpoint, node: nat, requestId: string, body: Body)
    | LocalAdd(node: nat, title: string, magnet: string)
    | RunJob(k: nat)
    | Deliver(k: nat, node: nat, now: nat)
    | Drop(k: nat, node: nat)
    | Consume(k: nat)
    | Duplicate(k: nat)

  ghost predicate Ring(ring: seq<Endpoint>) {
    |ring| > 0 && NoDuplicates(ring)
  }

  function Init(ring: seq<Endpoint>): System {
    System(seq(|ring|, i => NodeState(EMPTY_STORE, {})), [], [], {}, {}, {})
  }

  predicate JobOnRing(s: System, j: Job) {
    j.adder < |s.nodes| && j.delivery.node < |s.nodes|
  }

  /** Soundness puts every job of a reachable state on the ring, so the guard on jobs never blocks one. */
  predicate Enabled(ring: seq<Endpoint>, s: System, step: Step)
    requires |s.nodes| == |ring|
  {
    match step
    case ClientSend(c, i, _, body) => i < |s.nodes| && c !in ring && (body.AddTorrent? || body.WantTorrent?)
    case LocalAdd(i, _, _) => i < |s.nodes|
    case RunJob(k) => k < |s.jobs| && JobOnRing(s, s.jobs[k])
    case Deliver(k, i, _) => k < |s.net| && i < |s.nodes| && s.net[k].target == ring[i]
    case Drop(k, i) => k < |s.net| && i < |s.nodes| && s.net[k].target == ring[i]
    case Consume(k) => k < |s.net| && s.net[k].target !in ring
    case Duplicate(k) => k < |s.net|
  }

  function WithStore(s: System, i: nat, st: Store): System
    requires i < |s.nodes|
  {
    s.(nodes := s.nodes[i := s.nodes[i].(store := st)])
  }

  function JobsOf(i: nat, ds: seq<Delivery>, title: string, magnet: string): seq<Job> {
    seq(|ds|, j requires 0 <= j < |ds| => Job(i, ds[j], title, magnet))
  }

  /** The locked first part of `addTorrent`, and the distribution list it computes. */
  function BeginAdd(s: System, i: nat, title: string, magnet: string): System
    requires i < |s.nodes|
  {
    if title in s.nodes[i].store.magnets then s
    else
      var ds := Deliveries(Keywords(title), |s.nodes|);
      WithStore(s, i, KnowTitle(s.nodes[i].store, title, magnet)).(
        jobs := s.jobs + JobsOf(i, ds, title, magnet),
        accepted := s.accepted + {TorrentResult(title, magnet)})
  }

  /** One round of the distribution loop: handle locally, or send. */
  function RunOneJob(ring: seq<Endpoint>, s: System, k: nat): System
    requires k < |s.jobs| && JobOnRing(s, s.jobs[k]) && |ring| == |s.nodes|
  {
    var j, rest := s.jobs[k], s.(jobs := Without(s.jobs, k));
    if j.delivery.node == j.adder then
      WithStore(rest, j.adder, Record(s.nodes[j.adder].store, j.delivery.keyword, j.title, j.magnet))
    else
      rest.(net := s.net + Stamped(ring[j.adder], [KeywordAddPacket(ring, j.delivery, j.title, j.magnet)]))
  }

  /** A message that goes no further; a KeywordAdd among them is an entry lost. */
  function Discarded(s: System, i: nat, body: Body): System {
    match body
    case KeywordAdd(k, t, _) => s.(lost := s.lost + {Entry(i, k, t)})
    case _ => s
  }

  /** `handleIndexMessage` at node i, with the addition's distribution left pending. */
  function Received(ring: seq<Endpoint>, s: System, i: nat, message: IndexMessage, now: nat): System
    requires i < |s.nodes| == |ring|
  {
    var nd := s.nodes[i];
    var key := GateKey(message, now);
    var s1 := s.(nodes := s.nodes[i := nd.(gate := Gated(nd.gate, key))]);
    if key in nd.gate then Discarded(s1, i, message.body)
    else if message.body.AddTorrent? then BeginAdd(s1, i, message.body.title, message.body.magnet)
    else WithStore(s1, i, Dispatched(ring, nd.store, i, message)).(
      net := s.net + Stamped(ring[i], DispatchPackets(ring, nd.store, i, message)))
  }

  function Next(ring: seq<Endpoint>, s: System, step: Step): (s': System)
    requires |s.nodes| == |ring|
    ensures |s'.nodes| == |ring|
  {
    if !Enabled(ring, s, step) then s
    else match step
      case ClientSend(c, i, r, body) =>
        s.(net := s.net + [Packet(ring[i], IndexMessage(c, r, body))],
           asks := if body.WantTorrent? then s.asks + {Ask(r, c, i, body.keyword)} else s.asks)
      case LocalAdd(i, t, m) => BeginAdd(s, i, t, m)
      case RunJob(k) => RunOneJob(ring, s, k)
      case Deliver(k, i, now) => Received(ring, s.(net := Without(s.net, k)), i, s.net[k].message, now)
      case Drop(k, i) => Discarded(s.(net := Without(s.net, k)), i, s.net[k].message.body)
      case Consume(k) => s.(net := Without(s.net, k))
      case Duplicate(k) => s.(net := s.net + [s.net[k]])
  }

  // ----- Invariants -----

  ghost predicate Wanted(n: nat, e: Entry)
    requires n > 0
  {
    e.node < n && e.keyword in Keywords(e.title) && Responsible(e.node, e.keyword, n)
  }

  ghost predicate NodeSound(n: nat, i: nat, st: Store, accepted: set<TorrentResult>)
    requires n > 0
  {
    && Consistent(st)
    && (forall t :: t in st.magnets ==> TorrentResult(t, st.magnets[t]) in accepted)
    && (forall k, t :: Lists(st, k, t) ==> Wanted(n, Entry(i, k, t)))
  }

  ghost predicate AddressedTo(ring: seq<Endpoint>, target: Endpoint, keyword: string)
    requires |ring| > 0
  {
    exists r :: 0 <= r < |ring| && ring[r] == target && Responsible(r, keyword, |ring|)
  }

  ghost predicate PacketSound(ring: seq<Endpoint>, p: Packet, accepted: set<TorrentResult>)
    requires |ring| > 0
  {
    match p.message.body
    case KeywordAdd(k, t, m) =>
      && TorrentResult(t, m) in accepted
      && k in Keywords(t)
      && AddressedTo(ring, p.target, k)
    case GiveTorrent(_, results) => forall r :: r in results ==> r in accepted
    case _ => true
  }

  ghost predicate JobSound(n: nat, j: Job, accepted: set<TorrentResult>)
    requires n > 0
  {
    && j.adder < n
    && Wanted(n, Entry(j.delivery.node, j.delivery.keyword, j.title))
    && TorrentResult(j.title, j.magnet) in accepted
  }

  ghost predicate LostSound(n: nat, e: Entry, accepted: set<TorrentResult>)
    requires n > 0
  {
    Wanted(n, e) && exists a :: a in accepted && a.title == e.title
  }

  /** Nothing is stored or travels that a client did not add, and only where it belongs. */
  ghost predicate Sound(ring: seq<Endpoint>, s: System)
    requires |ring| > 0
  {
    && |s.nodes| == |ring|
    && (forall i :: 0 <= i < |s.nodes| ==> NodeSound(|ring|, i, s.nodes[i].store, s.accepted))
    && (forall p :: p in s.net ==> PacketSound(ring, p, s.accepted))
    && (forall j :: j in s.jobs ==> JobSound(|ring|, j, s.accepted))
    && (forall e :: e in s.lost ==> LostSound(|ring|, e, s.accepted))
  }

  ghost predicate InFlight(ring: seq<Endpoint>, s: System, e: Entry) {
    e.node < |ring| &&
    exists p :: && p in s.net && p.target == ring[e.node] && p.message.body.KeywordAdd?
                && p.message.body.keyword == e.keyword && p.message.body.title == e.title
  }

  ghost predicate Pending(s: System, e: Entry) {
    exists j :: j in s.jobs && j.delivery == Delivery(e.node, e.keyword) && j.title == e.title
  }

  ghost predicate Stored(s: System, e: Entry) {
    e.node < |s.nodes| && Lists(s.nodes[e.node].store, e.keyword, e.title)
  }

  /** An entry is somewhere: in the node's map, in flight, still to be sent, or lost. */
  ghost predicate Accounted(ring: seq<Endpoint>, s: System, e: Entry) {
    Stored(s, e) || InFlight(ring, s, e) || Pending(s, e) || e in s.lost
  }

  /** Every keyword of every accepted title is accounted for at every node that should hold it. */
  ghost predicate Complete(ring: seq<Endpoint>, s: System)
    requires |ring| > 0
  {
    forall a: TorrentResult, e: Entry :: a in s.accepted && e.title == a.title && Wanted(|ring|, e) ==> Accounted(ring, s, e)
  }

  ghost predicate Inv(ring: seq<Endpoint>, s: System)
    requires |ring| > 0
  {
    Sound(ring, s) && Complete(ring, s)
  }

  // ----- The distribution list is exactly the set of wanted entries -----

  lemma {:induction false} DeliveriesExact(keywords: seq<string>, n: nat, d: Delivery)
    requires n > 0
    ensures d in Deliveries(keywords, n) <==>
              d.node < n && d.keyword in keywords && Responsible(d.node, d.keyword, n)
  {
    if keywords != [] {
      var ts, first := Targets(keywords[0], n), DeliveriesOf(keywords[0], n);
      assert Deliveries(keywords, n) == first + Deliveries(keywords[1..], n);
      DeliveriesExact(keywords[1..], n, d);
      assert keywords == [keywords[0]] + keywords[1..];
      if d.keyword == keywords[0] && d.node < n {
        WriteSetIsReadSet(d.keyword, n, d.node);
        if d.node in ts {
          var i :| 0 <= i < |ts| && ts[i] == d.node;
          assert first[i] == d;
        }
      }
      if d in first {
        var i :| 0 <= i < |first| && first[i] == d;
        assert ts[i] in ts;
        WriteSetIsReadSet(d.keyword, n, d.node);
      }
    }
  }

  // ----- Soundness is kept -----

  lemma NodeSoundRecord(n: nat, i: nat, st: Store, accepted: set<TorrentResult>, k: string, t: string, m: string)
    requires n > 0 && NodeSound(n, i, st, accepted)
    requires Wanted(n, Entry(i, k, t)) && TorrentResult(t, m) in accepted
    ensures NodeSound(n, i, Record(st, k, t, m), accepted)
  {
  }

  lemma NodeSoundKnow(n: nat, i: nat, st: Store, accepted: set<TorrentResult>, t: string, m: string)
    requires n > 0 && NodeSound(n, i, st, accepted)
    ensures NodeSound(n, i, KnowTitle(st, t, m), accepted + {TorrentResult(t, m)})
  {
    forall k, t' | Lists(KnowTitle(st, t, m), k, t')
      ensures Wanted(n, Entry(i, k, t'))
    {
      assert Lists(st, k, t');
    }
  }

  lemma NodeSoundAbsorb(n: nat, i: nat, st: Store, accepted: set<TorrentResult>, results: seq<TorrentResult>)
    requires n > 0 && NodeSound(n, i, st, accepted)
    requires forall r :: r in results ==> r in accepted
    ensures NodeSound(n, i, Absorbed(st, results), accepted)
  {
    AbsorbedMagnets(st, results);
    forall k, t | Lists(Absorbed(st, results), k, t)
      ensures Wanted(n, Entry(i, k, t))
    {
      assert Lists(st, k, t);
    }
  }

  lemma SoundBeginAdd(ring: seq<Endpoint>, s: System, i: nat, t: string, m: string)
    requires |ring| > 0 && Sound(ring, s) && i < |ring|
    ensures Sound(ring, BeginAdd(s, i, t, m))
  {
    var s' := BeginAdd(s, i, t, m);
    if t !in s.nodes[i].store.magnets {
      NodeSoundKnow(|ring|, i, s.nodes[i].store, s.accepted, t, m);
      var ds := Deliveries(Keywords(t), |ring|);
      forall j | j in s'.jobs
        ensures JobSound(|ring|, j, s'.accepted)
      {
        if j !in s.jobs {
          assert j.delivery in ds;
          DeliveriesExact(Keywords(t), |ring|, j.delivery);
        }
      }
      forall e | e in s'.lost
        ensures LostSound(|ring|, e, s'.accepted)
      {
        var a :| a in s.accepted && a.title == e.title;
        assert a in s'.accepted;
      }
      forall p | p in s'.net
        ensures PacketSound(ring, p, s'.accepted)
      {
        assert PacketSound(ring, p, s.accepted);
      }
    }
  }

  lemma SoundRunJob(ring: seq<Endpoint>, s: System, k: nat)
    requires |ring| > 0 && Sound(ring, s) && k < |s.jobs|
    ensures JobOnRing(s, s.jobs[k]) && Sound(ring, RunOneJob(ring, s, k))
  {
    var j := s.jobs[k];
    assert JobSound(|ring|, j, s.accepted);
    WithoutElements(s.jobs, k);
    if j.delivery.node == j.adder {
      NodeSoundRecord(|ring|, j.adder, s.nodes[j.adder].store, s.accepted, j.delivery.keyword, j.title, j.magnet);
    } else {
      assert ring[j.delivery.node] == KeywordAddPacket(ring, j.delivery, j.title, j.magnet).target;
      assert AddressedTo(ring, ring[j.delivery.node], j.delivery.keyword);
    }
  }

  lemma SearchResultsAccepted(ring: seq<Endpoint>, s: System, i: nat, keyword: string)
    requires |ring| > 0 && Sound(ring, s) && i < |ring|
    ensures forall r :: r in Search(s.nodes[i].store, keyword) ==>
              r in s.accepted && Wanted(|ring|, Entry(i, keyword, r.title))
  {
    var st := s.nodes[i].store;
    forall r | r in Search(st, keyword)
      ensures r in s.accepted && Wanted(|ring|, Entry(i, keyword, r.title))
    {
      InSearch(st, keyword, r);
    }
  }

  lemma SoundReceived(ring: seq<Endpoint>, s: System, i: nat, p: Packet, now: nat)
    requires Ring(ring) && Sound(ring, s) && i < |ring|
    requires PacketSound(ring, p, s.accepted) && p.target == ring[i]
    ensures Sound(ring, Received(ring, s, i, p.message, now))
  {
    var nd, message := s.nodes[i], p.message;
    var key := GateKey(message, now);
    var s1 := s.(nodes := s.nodes[i := nd.(gate := Gated(nd.gate, key))]);
    assert Sound(ring, s1);
    if key in nd.gate {
      SoundDiscarded(ring, s1, i, p);
    } else {
      match message.body
      case AddTorrent(t, m) => SoundBeginAdd(ring, s1, i, t, m);
      case KeywordAdd(k, t, m) =>
        NodeSoundRecord(|ring|, i, nd.store, s.accepted, k, t, m);
      case GiveTorrent(_, results) => NodeSoundAbsorb(|ring|, i, nd.store, s.accepted, results);
      case WantTorrent(k) =>
        SearchResultsAccepted(ring, s, i, k);
        WantPacketBodies(ring, nd.store, i, message);
      case Unhandled =>
    }
  }

  lemma SoundDiscarded(ring: seq<Endpoint>, s: System, i: nat, p: Packet)
    requires Ring(ring) && Sound(ring, s) && i < |ring|
    requires PacketSound(ring, p, s.accepted) && p.target == ring[i]
    ensures Sound(ring, Discarded(s, i, p.message.body))
  {
    match p.message.body
    case KeywordAdd(k, t, m) =>
      assert TorrentResult(t, m).title == t;
      assert LostSound(|ring|, Entry(i, k, t), s.accepted);
    case _ =>
  }

  /** A Want is answered with a Give of search results, or passed on unchanged. */
  lemma WantPacketBodies(ring: seq<Endpoint>, st: Store, i: nat, message: IndexMessage)
    requires i < |ring| && message.body.WantTorrent?
    ensures forall p :: p in WantPackets(ring, st, i, message) ==>
              && p.message.requestId == message.requestId
              && (if Responsible(i, message.body.keyword, |ring|)
                  then p.target == message.source && p.message.body == GiveTorrent("", Search(st, message.body.keyword))
                  else p.target in ring && p.message == message)
  {
    if !Responsible(i, message.body.keyword, |ring|) {
      ForwardsShape(ring, i, message, NUM_REPLICATIONS + 1);
    }
  }

  lemma SoundNext(ring: seq<Endpoint>, s: System, step: Step)
    requires Ring(ring) && Sound(ring, s)
    ensures Sound(ring, Next(ring, s, step))
  {
    if Enabled(ring, s, step) {
      match step
      case ClientSend(c, i, r, body) =>
      case LocalAdd(i, t, m) => SoundBeginAdd(ring, s, i, t, m);
      case RunJob(k) => SoundRunJob(ring, s, k);
      case Deliver(k, i, now) =>
        WithoutElements(s.net, k);
        SoundReceived(ring, s.(net := Without(s.net, k)), i, s.net[k], now);
      case Drop(k, i) =>
        WithoutElements(s.net, k);
        SoundDiscarded(ring, s.(net := Without(s.net, k)), i, s.net[k]);
      case Consume(k) => WithoutElements(s.net, k);
      case Duplicate(k) =>
    }
  }

  // ----- No entry disappears -----

  lemma AccountedReceived(ring: seq<Endpoint>, s: System, i: nat, message: IndexMessage, now: nat, e: Entry)
    requires Ring(ring) && Sound(ring, s) && i < |ring|
    requires Accounted(ring, s, e)
    ensures Accounted(ring, Received(ring, s, i, message, now), e)
  {
    var s' := Received(ring, s, i, message, now);
    AbsorbedKeeps(s.nodes[i].store, message.body);
    if Stored(s, e) {
      assert Stored(s', e);
    } else if InFlight(ring, s, e) {
      var p :| && p in s.net && p.target == ring[e.node] && p.message.body.KeywordAdd?
               && p.message.body.keyword == e.keyword && p.message.body.title == e.title;
      assert p in s'.net;
    } else if Pending(s, e) {
      var j :| j in s.jobs && j.delivery == Delivery(e.node, e.keyword) && j.title == e.title;
      assert j in s'.jobs;
    }
  }

  lemma AbsorbedKeeps(st: Store, body: Body)
    ensures body.GiveTorrent? ==> Absorbed(st, body.results).titles == st.titles
  {
    if body.GiveTorrent? {
      AbsorbedMagnets(st, body.results);
    }
  }

  /** Delivering a KeywordAdd leaves its entry stored, or among the lost ones. */
  lemma DeliveredIsAccounted(ring: seq<Endpoint>, s: System, i: nat, message: IndexMessage, now: nat)
    requires Ring(ring) && |s.nodes| == |ring| && i < |ring| && message.body.KeywordAdd?
    ensures Accounted(ring, Received(ring, s, i, message, now), Entry(i, message.body.keyword, message.body.title))
  {
  }

  lemma AccountedNext(ring: seq<Endpoint>, s: System, step: Step, e: Entry)
    requires Ring(ring) && Sound(ring, s) && Accounted(ring, s, e)
    ensures Accounted(ring, Next(ring, s, step), e)
  {
    if Enabled(ring, s, step) && !(e in s.lost) {
      match step
      case RunJob(k) => AccountedRunJob(ring, s, k, e);
      case Deliver(k, i, now) => AccountedDeliver(ring, s, k, i, now, e);
      case Drop(k, i) => AccountedDrop(ring, s, k, i, e);
      case Consume(k) => AccountedConsume(ring, s, k, e);
      case Duplicate(k) => AccountedGrows(ring, s, s.(net := s.net + [s.net[k]]), e);
      case LocalAdd(i, t, m) => AccountedGrows(ring, s, BeginAdd(s, i, t, m), e);
      case ClientSend(c, i, r, body) => AccountedGrows(ring, s, Next(ring, s, step), e);
    }
  }

  lemma AccountedDeliver(ring: seq<Endpoint>, s: System, k: nat, i: nat, now: nat, e: Entry)
    requires Ring(ring) && Sound(ring, s) && Accounted(ring, s, e)
    requires k < |s.net| && i < |ring| && s.net[k].target == ring[i]
    ensures Accounted(ring, Received(ring, s.(net := Without(s.net, k)), i, s.net[k].message, now), e)
  {
    var rest := s.(net := Without(s.net, k));
    WithoutElements(s.net, k);
    assert Sound(ring, rest);
    if Accounted(ring, rest, e) {
      AccountedReceived(ring, rest, i, s.net[k].message, now, e);
    } else {
      LastCopy(ring, s, k, i, e);
      DeliveredIsAccounted(ring, rest, i, s.net[k].message, now);
    }
  }

  lemma AccountedDrop(ring: seq<Endpoint>, s: System, k: nat, i: nat, e: Entry)
    requires Ring(ring) && Sound(ring, s) && Accounted(ring, s, e)
    requires k < |s.net| && i < |ring| && s.net[k].target == ring[i]
    ensures Accounted(ring, Discarded(s.(net := Without(s.net, k)), i, s.net[k].message.body), e)
  {
    var rest := s.(net := Without(s.net, k));
    if Accounted(ring, rest, e) {
      AccountedDiscarded(ring, rest, i, s.net[k].message.body, e);
    } else {
      LastCopy(ring, s, k, i, e);
    }
  }

  lemma AccountedConsume(ring: seq<Endpoint>, s: System, k: nat, e: Entry)
    requires Ring(ring) && Sound(ring, s) && Accounted(ring, s, e)
    requires k < |s.net| && s.net[k].target !in ring
    ensures Accounted(ring, s.(net := Without(s.net, k)), e)
  {
    var rest := s.(net := Without(s.net, k));
    WithoutElements(s.net, k);
    if InFlight(ring, s, e) {
      var p :| && p in s.net && p.target == ring[e.node] && p.message.body.KeywordAdd?
               && p.message.body.keyword == e.keyword && p.message.body.title == e.title;
      assert p in rest.net;
    }
    assert Pending(s, e) ==> Pending(rest, e);
  }

  /** If removing packet k loses track of e, packet k was the KeywordAdd for e. */
  lemma LastCopy(ring: seq<Endpoint>, s: System, k: nat, i: nat, e: Entry)
    requires Ring(ring) && k < |s.net| && i < |ring| && s.net[k].target == ring[i]
    requires Accounted(ring, s, e) && !Accounted(ring, s.(net := Without(s.net, k)), e)
    ensures s.net[k].message.body.KeywordAdd?
    ensures e == Entry(i, s.net[k].message.body.keyword, s.net[k].message.body.title)
  {
    var rest := s.(net := Without(s.net, k));
    WithoutElements(s.net, k);
    assert Stored(s, e) ==> Stored(rest, e);
    assert Pending(s, e) ==> Pending(rest, e);
    var p :| && p in s.net && p.target == ring[e.node] && p.message.body.KeywordAdd?
             && p.message.body.keyword == e.keyword && p.message.body.title == e.title;
  }

  lemma AccountedDiscarded(ring: seq<Endpoint>, s: System, i: nat, body: Body, e: Entry)
    requires Accounted(ring, s, e)
    ensures Accounted(ring, Discarded(s, i, body), e)
  {
    AccountedGrows(ring, s, Discarded(s, i, body), e);
  }

  /** Growing maps, queues and history keeps every entry accounted for. */
  lemma AccountedGrows(ring: seq<Endpoint>, s: System, s': System, e: Entry)
    requires Accounted(ring, s, e)
    requires |s.nodes| == |s'.nodes| && s.lost <= s'.lost
    requires forall i :: 0 <= i < |s.nodes| ==> s.nodes[i].store.titles == s'.nodes[i].store.titles
    requires forall p :: p in s.net ==> p in s'.net
    requires forall j :: j in s.jobs ==> j in s'.jobs
    ensures Accounted(ring, s', e)
  {
    if InFlight(ring, s, e) {
      var p :| && p in s.net && p.target == ring[e.node] && p.message.body.KeywordAdd?
               && p.message.body.keyword == e.keyword && p.message.body.title == e.title;
      assert p in s'.net;
    } else if Pending(s, e) {
      var j :| j in s.jobs && j.delivery == Delivery(e.node, e.keyword) && j.title == e.title;
      assert j in s'.jobs;
    }
  }

  lemma AccountedRunJob(ring: seq<Endpoint>, s: System, k: nat, e: Entry)
    requires |ring| > 0 && Sound(ring, s) && Accounted(ring, s, e) && k < |s.jobs|
    requires JobOnRing(s, s.jobs[k])
    ensures Accounted(ring, RunOneJob(ring, s, k), e)
  {
    var j, s' := s.jobs[k], RunOneJob(ring, s, k);
    WithoutElements(s.jobs, k);
    if Stored(s, e) {
      assert Stored(s', e);
    } else if InFlight(ring, s, e) {
      var p :| && p in s.net && p.target == ring[e.node] && p.message.body.KeywordAdd?
               && p.message.body.keyword == e.keyword && p.message.body.title == e.title;
      assert p in s'.net;
    } else if Pending(s, e) {
      var j' :| j' in s.jobs && j'.delivery == Delivery(e.node, e.keyword) && j'.title == e.title;
      if j' != j {
        assert j' in s'.jobs;
      } else if j.delivery.node == j.adder {
        assert Stored(s', e);
      } else {
        var p := Stamped(ring[j.adder], [KeywordAddPacket(ring, j.delivery, j.title, j.magnet)])[0];
        assert p in s'.net && p.target == ring[e.node];
      }
    }
  }

  /** A new title starts with every one of its entries in the distribution list. */
  lemma BeginAddComplete(ring: seq<Endpoint>, s: System, i: nat, t: string, m: string)
    requires Ring(ring) && Inv(ring, s) && i < |ring|
    ensures Complete(ring, BeginAdd(s, i, t, m))
  {
    var s' := BeginAdd(s, i, t, m);
    if t !in s.nodes[i].store.magnets {
      forall a: TorrentResult, e: Entry | a in s'.accepted && e.title == a.title && Wanted(|ring|, e)
        ensures Accounted(ring, s', e)
      {
        if a in s.accepted {
          AccountedGrows(ring, s, s', e);
        } else {
          var d, ds := Delivery(e.node, e.keyword), Deliveries(Keywords(t), |ring|);
          DeliveriesExact(Keywords(t), |ring|, d);
          var x :| 0 <= x < |ds| && ds[x] == d;
          assert s'.jobs[|s.jobs| + x] == Job(i, d, t, m);
          assert Pending(s', e);
        }
      }
    }
  }

  lemma CompleteNext(ring: seq<Endpoint>, s: System, step: Step)
    requires Ring(ring) && Inv(ring, s)
    ensures Complete(ring, Next(ring, s, step))
  {
    var s' := Next(ring, s, step);
    if Enabled(ring, s, step) && step.LocalAdd? {
      BeginAddComplete(ring, s, step.node, step.title, step.magnet);
    } else if Enabled(ring, s, step) && step.Deliver? && s.net[step.k].message.body.AddTorrent? {
      CompleteDeliveredAdd(ring, s, step.k, step.node, step.now);
    } else {
      assert s'.accepted == s.accepted;
      forall a: TorrentResult, e: Entry | a in s'.accepted && e.title == a.title && Wanted(|ring|, e)
        ensures Accounted(ring, s', e)
      {
        AccountedNext(ring, s, step, e);
      }
    }
  }

  lemma CompleteDeliveredAdd(ring: seq<Endpoint>, s: System, k: nat, i: nat, now: nat)
    requires Ring(ring) && Inv(ring, s)
    requires k < |s.net| && i < |ring| && s.net[k].target == ring[i] && s.net[k].message.body.AddTorrent?
    ensures Complete(ring, Received(ring, s.(net := Without(s.net, k)), i, s.net[k].message, now))
  {
    var message := s.net[k].message;
    var key := GateKey(message, now);
    var s1 := s.(net := Without(s.net, k),
                 nodes := s.nodes[i := s.nodes[i].(gate := Gated(s.nodes[i].gate, key))]);
    WithoutElements(s.net, k);
    forall a: TorrentResult, e: Entry | a in s1.accepted && e.title == a.title && Wanted(|ring|, e)
      ensures Accounted(ring, s1, e)
    {
      assert Accounted(ring, s, e);
      if InFlight(ring, s, e) {
        var p :| && p in s.net && p.target == ring[e.node] && p.message.body.KeywordAdd?
                 && p.message.body.keyword == e.keyword && p.message.body.title == e.title;
        assert p in s1.net;
      }
      assert Pending(s, e) ==> Pending(s1, e);
      assert Stored(s, e) ==> Stored(s1, e);
    }
    if key !in s.nodes[i].gate {
      BeginAddComplete(ring, s1, i, message.body.title, message.body.magnet);
    }
  }

  // ----- Whole runs -----

  function Run(ring: seq<Endpoint>, steps: seq<Step>): (s: System)
    ensures |s.nodes| == |ring|
  {
    if steps == [] then Init(ring) else Next(ring, Run(ring, steps[..|steps| - 1]), steps[|steps| - 1])
  }

  /** Soundness and completeness hold in every reachable state. */
  lemma {:induction false} Invariant(ring: seq<Endpoint>, steps: seq<Step>)
    requires Ring(ring)
    ensures Inv(ring, Run(ring, steps))
  {
    if steps != [] {
      var s := Run(ring, steps[..|steps| - 1]);
      Invariant(ring, steps[..|steps| - 1]);
      SoundNext(ring, s, steps[|steps| - 1]);
      CompleteNext(ring, s, steps[|steps| - 1]);
    }
  }

  /**
   * No keyword is lost over whole runs: whatever made a title known at some node (an addition, a
   * KeywordAdd or a Give), each of its keywords is, at each node responsible for it, stored, in
   * flight, still to be distributed, or among the KeywordAdds that were lost or refused on arrival.
   */
  lemma NoLostKeywords(ring: seq<Endpoint>, steps: seq<Step>, i: nat, e: Entry)
    requires Ring(ring) && i < |ring| && Wanted(|ring|, e)
    requires e.title in Run(ring, steps).nodes[i].store.magnets
    ensures Accounted(ring, Run(ring, steps), e)
  {
    var s := Run(ring, steps);
    Invariant(ring, steps);
    var a := TorrentResult(e.title, s.nodes[i].store.magnets[e.title]);
    assert NodeSound(|ring|, i, s.nodes[i].store, s.accepted);
    assert a in s.accepted;
  }

  /** No KeywordAdd for this keyword is on its way to node r. */
  ghost predicate Quiescent(ring: seq<Endpoint>, s: System, r: nat, keyword: string) {
    forall t: string :: !InFlight(ring, s, Entry(r, keyword, t)) && !Pending(s, Entry(r, keyword, t))
  }

  ghost predicate Accepted(s: System, title: string) {
    exists a :: a in s.accepted && a.title == title
  }

  /** A search for the keyword returns a result with this title. */
  ghost predicate Finds(st: Store, keyword: string, title: string) {
    exists r :: r in Search(st, keyword) && r.title == title
  }

  /** The search at node r returns exactly the accepted titles that contain the keyword. */
  ghost predicate Exact(s: System, r: nat, keyword: string)
    requires r < |s.nodes|
  {
    forall t :: Finds(s.nodes[r].store, keyword, t) <==> Accepted(s, t) && keyword in Keywords(t)
  }

  /**
   * What a search returns, in every reachable state and under loss, reordering and duplication:
   * only (title, magnet) pairs that were added with this keyword in the title, each title once.
   */
  lemma SearchSound(ring: seq<Endpoint>, steps: seq<Step>, r: nat, keyword: string)
    requires Ring(ring) && r < |ring|
    ensures var s := Run(ring, steps);
            var results := Search(s.nodes[r].store, keyword);
            && (forall x :: x in results ==> x in s.accepted && keyword in Keywords(x.title))
            && (forall x, y :: 0 <= x < y < |results| ==> results[x].title != results[y].title)
  {
    Invariant(ring, steps);
    var s := Run(ring, steps);
    SearchResultsAccepted(ring, s, r, keyword);
    SearchNoDuplicates(s.nodes[r].store, keyword);
  }

  /**
   * Once no KeywordAdd for the keyword is under way to a responsible node, an accepted title with
   * the keyword is found there or was lost on the way, and no other title is either.
   */
  lemma FoundOrLost(ring: seq<Endpoint>, steps: seq<Step>, r: nat, keyword: string, t: string)
    requires Ring(ring) && r < |ring| && Responsible(r, keyword, |ring|)
    requires Quiescent(ring, Run(ring, steps), r, keyword)
    ensures Finds(Run(ring, steps).nodes[r].store, keyword, t) || Entry(r, keyword, t) in Run(ring, steps).lost
       <==> Accepted(Run(ring, steps), t) && keyword in Keywords(t)
  {
    var s, e := Run(ring, steps), Entry(r, keyword, t);
    Invariant(ring, steps);
    assert NodeSound(|ring|, r, s.nodes[r].store, s.accepted);
    FindsIffLists(s.nodes[r].store, keyword, t);
    if Accepted(s, t) && keyword in Keywords(t) {
      assert Wanted(|ring|, e);
      assert Accounted(ring, s, e);
    }
    if Stored(s, e) {
      assert TorrentResult(t, s.nodes[r].store.magnets[t]) in s.accepted;
      assert Wanted(|ring|, e);
    }
    if e in s.lost {
      assert LostSound(|ring|, e, s.accepted);
    }
  }

  lemma FindsIffLists(st: Store, keyword: string, title: string)
    requires Consistent(st)
    ensures Finds(st, keyword, title) <==> Lists(st, keyword, title)
  {
    if Lists(st, keyword, title) {
      InSearch(st, keyword, TorrentResult(title, st.magnets[title]));
    }
    if Finds(st, keyword, title) {
      var r :| r in Search(st, keyword) && r.title == title;
      InSearch(st, keyword, r);
    }
  }

  /**
   * Fault tolerance: with at least three nodes and no KeywordAdd under way or lost, an accepted
   * title is still found under each of its keywords at a live node after any two crashes.
   */
  lemma SurvivesTwoCrashes(ring: seq<Endpoint>, steps: seq<Step>, crashed: set<nat>, title: string, keyword: string)
    requires Ring(ring) && |ring| >= 3 && |crashed| <= 2
    requires Accepted(Run(ring, steps), title) && keyword in Keywords(title)
    requires forall r: nat :: r < |ring| ==> Quiescent(ring, Run(ring, steps), r, keyword)
    requires forall r :: Entry(r, keyword, title) !in Run(ring, steps).lost
    ensures exists r :: 0 <= r < |ring| && r !in crashed
              && Finds(Run(ring, steps).nodes[r].store, keyword, title)
  {
    Invariant(ring, steps);
    var s := Run(ring, steps);
    TwoCrashesSurvived(keyword, |ring|, crashed);
    var r :| 0 <= r < |ring| && r !in crashed && Responsible(r, keyword, |ring|);
    var e := Entry(r, keyword, title);
    assert Wanted(|ring|, e);
    assert Accounted(ring, s, e);
    assert Quiescent(ring, s, r, keyword);
    assert NodeSound(|ring|, r, s.nodes[r].store, s.accepted);
    FindsIffLists(s.nodes[r].store, keyword, title);
  }

  // ----- The handler in one go is one schedule of the system -----

  /** The state after the first x deliveries of an addition at node i. */
  function Midway(ring: seq<Endpoint>, s: System, i: nat, ds: seq<Delivery>, t: string, m: string, js: seq<Job>, x: nat): System
    requires |ring| == |s.nodes| && i < |ring| && OnRing(ring, ds) && x <= |ds|
  {
    WithStore(s, i, Distributed(s.nodes[i].store, i, ds[..x], t, m)).(
      net := s.net + Stamped(ring[i], RemotePackets(ring, i, ds[..x], t, m)),
      jobs := js + JobsOf(i, ds, t, m)[x..])
  }

  lemma MidwayStart(ring: seq<Endpoint>, s: System, i: nat, ds: seq<Delivery>, t: string, m: string, js: seq<Job>)
    requires |ring| == |s.nodes| && i < |ring| && OnRing(ring, ds)
    requires s.jobs == js + JobsOf(i, ds, t, m)
    ensures Midway(ring, s, i, ds, t, m, js, 0) == s
  {
    assert ds[..0] == [];
    assert s.nodes[i := s.nodes[i].(store := s.nodes[i].store)] == s.nodes;
    assert s.net + [] == s.net && JobsOf(i, ds, t, m)[0..] == JobsOf(i, ds, t, m);
  }

  lemma MidwayStep(ring: seq<Endpoint>, s: System, i: nat, ds: seq<Delivery>, t: string, m: string, js: seq<Job>, x: nat)
    requires |ring| == |s.nodes| && i < |ring| && OnRing(ring, ds) && x < |ds|
    ensures |js| < |Midway(ring, s, i, ds, t, m, js, x).jobs|
    ensures JobOnRing(s, Midway(ring, s, i, ds, t, m, js, x).jobs[|js|])
    ensures RunOneJob(ring, Midway(ring, s, i, ds, t, m, js, x), |js|) == Midway(ring, s, i, ds, t, m, js, x + 1)
  {
    var before, after := Midway(ring, s, i, ds, t, m, js, x), Midway(ring, s, i, ds, t, m, js, x + 1);
    var all, d := JobsOf(i, ds, t, m), ds[x];
    assert ds[..x + 1][..x] == ds[..x] && ds[..x + 1][x] == d;
    assert before.jobs[|js|] == all[x] == Job(i, d, t, m);
    assert Without(before.jobs, |js|) == after.jobs;
    var ps, p := RemotePackets(ring, i, ds[..x], t, m), KeywordAddPacket(ring, d, t, m);
    if d.node == i {
      assert RemotePackets(ring, i, ds[..x + 1], t, m) == ps + [] == ps;
    } else {
      assert RemotePackets(ring, i, ds[..x + 1], t, m) == ps + [p];
      assert Stamped(ring[i], ps + [p]) == Stamped(ring[i], ps) + Stamped(ring[i], [p]);
      assert after.net == before.net + Stamped(ring[i], [p]);
    }
  }

  function Repeated(step: Step, x: nat): seq<Step> {
    seq(x, i => step)
  }

  lemma RunRepeated(ring: seq<Endpoint>, steps: seq<Step>, step: Step, x: nat)
    requires x > 0
    ensures Run(ring, steps + Repeated(step, x)) == Next(ring, Run(ring, steps + Repeated(step, x - 1)), step)
  {
    var before := steps + Repeated(step, x - 1);
    assert steps + Repeated(step, x) == before + [step];
    assert (before + [step])[..|before|] == before;
  }

  lemma MidwayNext(ring: seq<Endpoint>, s: System, i: nat, ds: seq<Delivery>, t: string, m: string, js: seq<Job>, x: nat)
    requires |ring| == |s.nodes| && i < |ring| && OnRing(ring, ds) && x < |ds|
    ensures Next(ring, Midway(ring, s, i, ds, t, m, js, x), RunJob(|js|)) == Midway(ring, s, i, ds, t, m, js, x + 1)
  {
    MidwayStep(ring, s, i, ds, t, m, js, x);
  }

  /** Working off the first x jobs of an addition, one after the other, is a run of `RunJob` steps. */
  lemma {:induction false} JobsWorkedOff(ring: seq<Endpoint>, steps: seq<Step>, i: nat, ds: seq<Delivery>, t: string, m: string,
                                         js: seq<Job>, x: nat)
    requires i < |ring| && OnRing(ring, ds) && x <= |ds|
    requires Run(ring, steps).jobs == js + JobsOf(i, ds, t, m)
    ensures Run(ring, steps + Repeated(RunJob(|js|), x)) == Midway(ring, Run(ring, steps), i, ds, t, m, js, x)
  {
    if x == 0 {
      MidwayStart(ring, Run(ring, steps), i, ds, t, m, js);
      assert steps + Repeated(RunJob(|js|), 0) == steps;
    } else {
      JobsWorkedOff(ring, steps, i, ds, t, m, js, x - 1);
      RunRepeated(ring, steps, RunJob(|js|), x);
      MidwayNext(ring, Run(ring, steps), i, ds, t, m, js, x - 1);
    }
  }

  /** The steps of an addition: its locked part, then its own jobs in order. */
  function AddSteps(ring: seq<Endpoint>, s: System, i: nat, t: string, m: string): seq<Step>
    requires |s.nodes| == |ring| && i < |ring|
  {
    [LocalAdd(i, t, m)]
    + if t in s.nodes[i].store.magnets then []
      else Repeated(RunJob(|s.jobs|), |Deliveries(Keywords(t), |ring|)|)
  }

  lemma BeginAddRun(ring: seq<Endpoint>, steps: seq<Step>, i: nat, t: string, m: string)
    requires i < |ring|
    ensures Run(ring, steps + [LocalAdd(i, t, m)]) == BeginAdd(Run(ring, steps), i, t, m)
  {
    assert (steps + [LocalAdd(i, t, m)])[..|steps|] == steps;
  }

  /**
   * `addTorrent` run without interruption, as the node object runs it, is one schedule of the
   * system: it leaves the same maps and the same messages, and no job behind.
   */
  lemma AtomicAdd(ring: seq<Endpoint>, steps: seq<Step>, i: nat, t: string, m: string)
    requires i < |ring|
    ensures var s := Run(ring, steps);
            var s' := Run(ring, steps + AddSteps(ring, s, i, t, m));
            && s'.nodes == s.nodes[i := s.nodes[i].(store := Added(s.nodes[i].store, i, |ring|, t, m))]
            && s'.net == s.net + Stamped(ring[i], AddPackets(ring, s.nodes[i].store, i, t, m))
            && s'.jobs == s.jobs && s'.lost == s.lost
            && s'.accepted == s.accepted + (if t in s.nodes[i].store.magnets then {} else {TorrentResult(t, m)})
  {
    var s, begun := Run(ring, steps), steps + [LocalAdd(i, t, m)];
    BeginAddRun(ring, steps, i, t, m);
    if t in s.nodes[i].store.magnets {
      assert steps + AddSteps(ring, s, i, t, m) == begun;
      assert s.nodes[i := s.nodes[i].(store := s.nodes[i].store)] == s.nodes;
      assert s.net + Stamped(ring[i], []) == s.net;
    } else {
      var ds := Deliveries(Keywords(t), |ring|);
      DeliveriesOnRing(Keywords(t), |ring|);
      JobsWorkedOff(ring, begun, i, ds, t, m, s.jobs, |ds|);
      assert steps + AddSteps(ring, s, i, t, m) == begun + Repeated(RunJob(|s.jobs|), |ds|);
      assert ds[..|ds|] == ds;
      assert JobsOf(i, ds, t, m)[|ds|..] == [];
    }
  }
}
