/**
 * One index node: its two maps, its duplicate gate, and what it does with each message.
 * The functions give the meaning of each handler; the class runs the handlers in place.
 */
module IndexNode {
  import opened Common
  import opened RingHash
  import opened Tokeniser

  const MAX_GATE_SIZE: nat := 10000

  datatype TorrentResult = TorrentResult(title: string, magnet: string)

  datatype Body =
    | AddTorrent(title: string, magnet: string)
    | WantTorrent(keyword: string)
    | GiveTorrent(keyword: string, results: seq<TorrentResult>)
    | KeywordAdd(keyword: string, title: string, magnet: string)
    | Unhandled

  datatype IndexMessage = IndexMessage(source: Endpoint, requestId: string, body: Body)

  datatype Packet = Packet(target: Endpoint, message: IndexMessage)

  const NO_SOURCE := Endpoint("", 0)

  /** `titleToMagnet` and `keywordToTitle`. */
  datatype Store = Store(magnets: map<string, string>, titles: map<string, seq<string>>)

  datatype NodeState = NodeState(store: Store, gate: set<string>)

  const EMPTY_STORE := Store(map[], map[])

  /** Every listed title has a magnet; lists are non-empty and free of duplicates. */
  ghost predicate Consistent(st: Store) {
    forall k :: k in st.titles ==>
      && st.titles[k] != []
      && NoDuplicates(st.titles[k])
      && forall t :: t in st.titles[k] ==> t in st.magnets
  }

  predicate Lists(st: Store, keyword: string, title: string) {
    keyword in st.titles && title in st.titles[keyword]
  }

  // ----- Meaning of the handlers -----

  /** `handleKeywordAddMessage`. */
  function Record(st: Store, keyword: string, title: string, magnet: string): (st': Store)
    ensures Consistent(st) ==> Consistent(st')
    ensures forall k, t :: Lists(st', k, t) <==> Lists(st, k, t) || (k == keyword && t == title)
    ensures forall t :: t in st'.magnets <==> t in st.magnets || t == title
    ensures forall t :: t in st.magnets ==> st'.magnets[t] == st.magnets[t]
  {
    var magnets := if title in st.magnets then st.magnets else st.magnets[title := magnet];
    var titles :=
      if keyword !in st.titles then st.titles[keyword := [title]]
      else if title in st.titles[keyword] then st.titles
      else st.titles[keyword := st.titles[keyword] + [title]];
    Store(magnets, titles)
  }

  function MagnetOf(st: Store, title: string): string {
    if title in st.magnets then st.magnets[title] else ""
  }

  /** `searchTorrent`. */
  function Search(st: Store, keyword: string): (results: seq<TorrentResult>)
  {
    if keyword !in st.titles then []
    else
      var ts := st.titles[keyword];
      seq(|ts|, i requires 0 <= i < |ts| => TorrentResult(ts[i], MagnetOf(st, ts[i])))
  }

  /** One element of `keyword_distribution`; it is local when `node` is the adding node. */
  datatype Delivery = Delivery(node: nat, keyword: string)

  function DeliveriesOf(keyword: string, n: nat): seq<Delivery>
    requires n > 0
  {
    var ts := Targets(keyword, n);
    seq(|ts|, i requires 0 <= i < |ts| => Delivery(ts[i], keyword))
  }

  function Deliveries(keywords: seq<string>, n: nat): seq<Delivery>
    requires n > 0
  {
    if keywords == [] then [] else DeliveriesOf(keywords[0], n) + Deliveries(keywords[1..], n)
  }

  lemma DeliveriesFrom(keywords: seq<string>, k: nat, n: nat)
    requires n > 0 && k < |keywords|
    ensures Deliveries(keywords[k..], n) == DeliveriesOf(keywords[k], n) + Deliveries(keywords[k + 1..], n)
  {
    assert keywords[k..][1..] == keywords[k + 1..];
  }

  function Distributed(st: Store, self: nat, ds: seq<Delivery>, title: string, magnet: string): Store {
    if ds == [] then st
    else
      var st' := Distributed(st, self, ds[..|ds| - 1], title, magnet);
      var d := ds[|ds| - 1];
      if d.node == self then Record(st', d.keyword, title, magnet) else st'
  }

  function KeywordAddPacket(ring: seq<Endpoint>, d: Delivery, title: string, magnet: string): Packet
    requires d.node < |ring|
  {
    Packet(ring[d.node], IndexMessage(NO_SOURCE, "", KeywordAdd(d.keyword, title, magnet)))
  }

  predicate OnRing(ring: seq<Endpoint>, ds: seq<Delivery>) {
    forall i :: 0 <= i < |ds| ==> ds[i].node < |ring|
  }

  function RemotePackets(ring: seq<Endpoint>, self: nat, ds: seq<Delivery>, title: string, magnet: string): seq<Packet>
    requires OnRing(ring, ds)
  {
    if ds == [] then []
    else
      var d := ds[|ds| - 1];
      RemotePackets(ring, self, ds[..|ds| - 1], title, magnet)
      + if d.node == self then [] else [KeywordAddPacket(ring, d, title, magnet)]
  }

  lemma {:induction false} DeliveriesOnRing(keywords: seq<string>, n: nat)
    requires n > 0
    ensures forall i :: 0 <= i < |Deliveries(keywords, n)| ==> Deliveries(keywords, n)[i].node < n
  {
    if keywords != [] {
      DeliveriesOnRing(keywords[1..], n);
    }
  }

  function KnowTitle(st: Store, title: string, magnet: string): Store {
    st.(magnets := st.magnets[title := magnet])
  }

  /** `addTorrent`: the store it leaves behind. */
  function Added(st: Store, self: nat, n: nat, title: string, magnet: string): Store
    requires n > 0
  {
    if title in st.magnets then st
    else Distributed(KnowTitle(st, title, magnet), self, Deliveries(Keywords(title), n), title, magnet)
  }

  /** `addTorrent`: the messages it queues. */
  function AddPackets(ring: seq<Endpoint>, st: Store, self: nat, title: string, magnet: string): seq<Packet>
    requires |ring| > 0
  {
    if title in st.magnets then []
    else
      DeliveriesOnRing(Keywords(title), |ring|);
      RemotePackets(ring, self, Deliveries(Keywords(title), |ring|), title, magnet)
  }

  /** `sendWantMessage`: nodes 0..NUM_REPLICATIONS, whoever is responsible, except this node. */
  function Forwards(ring: seq<Endpoint>, self: nat, message: IndexMessage, i: nat): seq<Packet>
    requires i <= NUM_REPLICATIONS + 1 <= |ring|
  {
    if i == 0 then []
    else Forwards(ring, self, message, i - 1) + if i - 1 == self then [] else [Packet(ring[i - 1], message)]
  }

  /** `sendGiveMessage`: the reply goes to the last hop, and its keyword field is never set. */
  function Reply(message: IndexMessage, results: seq<TorrentResult>): Packet {
    Packet(message.source, message.(body := GiveTorrent("", results)))
  }

  /** `handleWantMessage`: the messages it queues. */
  function WantPackets(ring: seq<Endpoint>, st: Store, self: nat, message: IndexMessage): seq<Packet>
    requires self < |ring| && message.body.WantTorrent?
  {
    var keyword := message.body.keyword;
    if Responsible(self, keyword, |ring|) then [Reply(message, Search(st, keyword))]
    else Forwards(ring, self, message, NUM_REPLICATIONS + 1)
  }

  /** `handleGiveMessage`: later magnets overwrite earlier ones. */
  function Absorbed(st: Store, results: seq<TorrentResult>): Store {
    if results == [] then st
    else
      var r := results[|results| - 1];
      KnowTitle(Absorbed(st, results[..|results| - 1]), r.title, r.magnet)
  }

  /** The key `handleIndexMessage` looks up; only a Want or Give without an id has the time in it. */
  function GateKey(message: IndexMessage, now: nat): string {
    if |message.requestId| > 0 then message.requestId
    else
      message.source.ip + ":" + Decimal(message.source.port) +
      match message.body
      case WantTorrent(k) => ":want:" + k + Decimal(now)
      case GiveTorrent(k, _) => ":give:" + k + Decimal(now)
      case _ => ""
  }

  /** The gate after a message: the naive cache is emptied when it outgrows its limit. */
  function Gated(gate: set<string>, key: string): set<string> {
    if |gate + {key}| > MAX_GATE_SIZE then {} else gate + {key}
  }

  function Dispatched(ring: seq<Endpoint>, st: Store, self: nat, message: IndexMessage): Store
    requires self < |ring|
  {
    match message.body
    case AddTorrent(t, m) => Added(st, self, |ring|, t, m)
    case GiveTorrent(_, results) => Absorbed(st, results)
    case KeywordAdd(k, t, m) => Record(st, k, t, m)
    case _ => st
  }

  function DispatchPackets(ring: seq<Endpoint>, st: Store, self: nat, message: IndexMessage): seq<Packet>
    requires self < |ring|
  {
    match message.body
    case AddTorrent(t, m) => AddPackets(ring, st, self, t, m)
    case WantTorrent(_) => WantPackets(ring, st, self, message)
    case _ => []
  }

  /** `processOutgoingMessages` of the messenger overwrites the source of everything it sends. */
  function Stamped(self: Endpoint, ps: seq<Packet>): (r: seq<Packet>)
    ensures |r| == |ps|
  {
    seq(|ps|, i requires 0 <= i < |ps| => ps[i].(message := ps[i].message.(source := self)))
  }

  lemma {:induction false} ForwardsShape(ring: seq<Endpoint>, self: nat, message: IndexMessage, i: nat)
    requires i <= NUM_REPLICATIONS + 1 <= |ring|
    ensures |Forwards(ring, self, message, i)| <= i
    ensures forall p :: p in Forwards(ring, self, message, i) <==>
              exists j :: 0 <= j < i && j != self && p == Packet(ring[j], message)
  {
    if i > 0 {
      ForwardsShape(ring, self, message, i - 1);
    }
  }

  lemma {:induction false} AbsorbedMagnets(st: Store, results: seq<TorrentResult>)
    ensures Absorbed(st, results).titles == st.titles
    ensures Consistent(st) ==> Consistent(Absorbed(st, results))
    ensures forall t :: t in Absorbed(st, results).magnets <==>
              t in st.magnets || exists i :: 0 <= i < |results| && results[i].title == t
    ensures forall t :: t in Absorbed(st, results).magnets ==>
              || (t in st.magnets && Absorbed(st, results).magnets[t] == st.magnets[t])
              || TorrentResult(t, Absorbed(st, results).magnets[t]) in results
  {
    if results != [] {
      var init, r := results[..|results| - 1], results[|results| - 1];
      AbsorbedMagnets(st, init);
      assert results == init + [r];
    }
  }

  // ----- The node as an object -----

  class Index {
    const ring: seq<Endpoint>
    const id: nat
    var titleToMagnet: map<string, string>
    var keywordToTitle: map<string, seq<string>>
    var messageCache: set<string>
    var sendQueue: seq<Packet>

    ghost predicate Valid()
      reads this
    {
      id < |ring| && Consistent(Contents())
    }

    ghost function Contents(): Store
      reads this
    {
      Store(titleToMagnet, keywordToTitle)
    }

    constructor (ring: seq<Endpoint>, id: nat)
      requires id < |ring|
      ensures Valid() && this.ring == ring && this.id == id
      ensures Contents() == EMPTY_STORE && messageCache == {} && sendQueue == []
    {
      this.ring, this.id := ring, id;
      titleToMagnet, keywordToTitle, messageCache, sendQueue := map[], map[], {}, [];
    }

    method HandleKeywordAdd(keyword: string, title: string, magnet: string)
      requires Valid()
      modifies this`titleToMagnet, this`keywordToTitle
      ensures Valid() && Contents() == Record(old(Contents()), keyword, title, magnet)
    {
      if title !in titleToMagnet {
        titleToMagnet := titleToMagnet[title := magnet];
      }
      if keyword !in keywordToTitle {
        keywordToTitle := keywordToTitle[keyword := [title]];
      } else {
        var titles := keywordToTitle[keyword];
        if title !in titles {
          keywordToTitle := keywordToTitle[keyword := titles + [title]];
        }
      }
      assert Contents() == Record(old(Contents()), keyword, title, magnet);
    }

    /**
     * The lookup `titleToMagnet[title]` would insert a missing title under the shared lock;
     * consistency of the two maps is what makes the search read-only.
     */
    method SearchTorrent(keyword: string) returns (pairs: seq<TorrentResult>)
      requires Valid()
      ensures pairs == Search(Contents(), keyword)
      ensures forall i :: 0 <= i < |pairs| ==> pairs[i].title in titleToMagnet
    {
      pairs := [];
      if keyword !in keywordToTitle {
        return;
      }
      var titles := keywordToTitle[keyword];
      for i := 0 to |titles|
        invariant pairs == Search(Contents(), keyword)[..i]
        invariant forall j :: 0 <= j < i ==> pairs[j].title in titleToMagnet
      {
        assert titles[i] in titles;
        pairs := pairs + [TorrentResult(titles[i], titleToMagnet[titles[i]])];
      }
    }

    method QueueMessage(target: Endpoint, message: IndexMessage)
      modifies this`sendQueue
      ensures sendQueue == old(sendQueue) + [Packet(target, message)]
    {
      sendQueue := sendQueue + [Packet(target, message)];
    }

    method AddTorrent(title: string, magnet: string)
      requires Valid()
      modifies this`titleToMagnet, this`keywordToTitle, this`sendQueue
      ensures Valid() && Contents() == Added(old(Contents()), id, |ring|, title, magnet)
      ensures sendQueue == old(sendQueue) + AddPackets(ring, old(Contents()), id, title, magnet)
    {
      if title in titleToMagnet {
        return;
      }
      titleToMagnet := titleToMagnet[title := magnet];
      assert Contents() == KnowTitle(old(Contents()), title, magnet);
      var keywords := GenerateKeywords(title);
      var distribution := Distribution(keywords);
      DeliveriesOnRing(keywords, |ring|);
      Distribute(distribution, title, magnet);
    }

    /** The keywords' targets in sending order: primary first, then the replicas. */
    method Distribution(keywords: seq<string>) returns (distribution: seq<Delivery>)
      requires id < |ring|
      ensures distribution == Deliveries(keywords, |ring|)
    {
      distribution := [];
      for k := 0 to |keywords|
        invariant distribution + Deliveries(keywords[k..], |ring|) == Deliveries(keywords, |ring|)
      {
        DeliveriesFrom(keywords, k, |ring|);
        var ds := ReplicaTargets(keywords[k]);
        Associate(distribution, ds, Deliveries(keywords[k + 1..], |ring|));
        distribution := distribution + ds;
      }
      assert keywords[|keywords|..] == [] && distribution + [] == distribution;
    }

    method ReplicaTargets(keyword: string) returns (ds: seq<Delivery>)
      requires id < |ring|
      ensures ds == DeliveriesOf(keyword, |ring|)
    {
      var p := ResponsibleNodeIndex(keyword, |ring|);
      ds := [];
      for i := 0 to NUM_REPLICATIONS + 1
        invariant ds == DeliveriesOf(keyword, |ring|)[..i]
      {
        ds := ds + [Delivery(Slot(p, i, |ring|), keyword)];
      }
    }

    /** Works off the list: this node's share is recorded, the rest is sent. */
    method Distribute(distribution: seq<Delivery>, title: string, magnet: string)
      requires Valid() && OnRing(ring, distribution)
      modifies this`titleToMagnet, this`keywordToTitle, this`sendQueue
      ensures Valid() && Contents() == Distributed(old(Contents()), id, distribution, title, magnet)
      ensures sendQueue == old(sendQueue) + RemotePackets(ring, id, distribution, title, magnet)
    {
      for i := 0 to |distribution|
        invariant Valid()
        invariant Contents() == Distributed(old(Contents()), id, distribution[..i], title, magnet)
        invariant sendQueue == old(sendQueue) + RemotePackets(ring, id, distribution[..i], title, magnet)
      {
        var d := distribution[i];
        assert distribution[..i + 1][..i] == distribution[..i];
        if d.node == id {
          HandleKeywordAdd(d.keyword, title, magnet);
        } else {
          QueueMessage(ring[d.node], IndexMessage(NO_SOURCE, "", KeywordAdd(d.keyword, title, magnet)));
        }
      }
      assert distribution[..|distribution|] == distribution;
    }

    method SendWant(message: IndexMessage)
      requires id < |ring| && message.body.WantTorrent? && !Responsible(id, message.body.keyword, |ring|)
      modifies this`sendQueue
      ensures sendQueue == old(sendQueue) + WantPackets(ring, Contents(), id, message)
    {
      ForwardingNeedsFourNodes(id, message.body.keyword, |ring|);
      for i := 0 to NUM_REPLICATIONS + 1
        invariant sendQueue == old(sendQueue) + Forwards(ring, id, message, i)
      {
        if i != id {
          QueueMessage(ring[i], message);
        }
      }
    }

    method HandleWant(message: IndexMessage)
      requires Valid() && message.body.WantTorrent?
      modifies this`sendQueue
      ensures sendQueue == old(sendQueue) + WantPackets(ring, Contents(), id, message)
    {
      var mine := IsResponsible(id, message.body.keyword, |ring|);
      if !mine {
        SendWant(message);
        return;
      }
      var pairs := SearchTorrent(message.body.keyword);
      var reply := Reply(message, pairs);
      QueueMessage(reply.target, reply.message);
    }

    method HandleGive(results: seq<TorrentResult>)
      requires Valid()
      modifies this`titleToMagnet
      ensures Valid() && Contents() == Absorbed(old(Contents()), results)
    {
      for i := 0 to |results|
        invariant Contents() == Absorbed(old(Contents()), results[..i])
      {
        assert results[..i + 1][..i] == results[..i];
        titleToMagnet := titleToMagnet[results[i].title := results[i].magnet];
      }
      assert results[..|results|] == results;
      AbsorbedMagnets(old(Contents()), results);
    }

    /** The gate and the dispatch. `now` is the reading of `std::time`. */
    method HandleIndexMessage(message: IndexMessage, now: nat)
      requires Valid()
      modifies this
      ensures Valid() && messageCache == Gated(old(messageCache), GateKey(message, now))
      ensures GateKey(message, now) in old(messageCache) ==>
                Contents() == old(Contents()) && sendQueue == old(sendQueue)
      ensures GateKey(message, now) !in old(messageCache) ==>
                && Contents() == Dispatched(ring, old(Contents()), id, message)
                && sendQueue == old(sendQueue) + DispatchPackets(ring, old(Contents()), id, message)
    {
      var key := GateKey(message, now);
      var isNew := key !in messageCache;
      messageCache := messageCache + {key};
      if |messageCache| > MAX_GATE_SIZE {
        messageCache := {};
      }
      if !isNew {
        return;
      }
      match message.body
      case AddTorrent(t, m) => AddTorrent(t, m);
      case WantTorrent(_) => HandleWant(message);
      case GiveTorrent(_, results) => HandleGive(results);
      case KeywordAdd(k, t, m) => HandleKeywordAdd(k, t, m);
      case Unhandled =>
    }
  }
}
