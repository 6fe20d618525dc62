/**
 * What one index node's handlers amount to, in terms of their inputs alone: the order of listings, the
 * exact messages of an addition and of a forward, what a Give leaves behind, and when the gate lets
 * a message pass.
 */
module IndexLaws {
  import opened Common
  import opened RingHash
  import opened Tokeniser
  import opened IndexNode
  import opened Convergence

  // ----- Listings and answers -----

  /** The titles posted under a keyword, in the order they came. */
  function TitlesUnder(ps: seq<Posting>, keyword: string): seq<string> {
    if ps == [] then []
    else
      var p := ps[|ps| - 1];
      TitlesUnder(ps[..|ps| - 1], keyword) + if p.keyword == keyword then [p.title] else []
  }

  /** A sequence without repetitions, each element at its first place. */
  function FirstTimes(ts: seq<string>): seq<string> {
    if ts == [] then []
    else
      var init, t := FirstTimes(ts[..|ts| - 1]), ts[|ts| - 1];
      if t in ts[..|ts| - 1] then init else init + [t]
  }

  /** The magnet that came with a title's first posting. */
  function FirstMagnet(ps: seq<Posting>, title: string): Option<string> {
    if ps == [] then None
    else
      var before := FirstMagnet(ps[..|ps| - 1], title);
      if before.None? && ps[|ps| - 1].title == title then Some(ps[|ps| - 1].magnet) else before
  }

  function ListingOf(st: Store, keyword: string): seq<string> {
    if keyword in st.titles then st.titles[keyword] else []
  }

  lemma FirstTimesSnoc(ts: seq<string>, t: string)
    ensures FirstTimes(ts + [t]) == if t in ts then FirstTimes(ts) else FirstTimes(ts) + [t]
  {
    assert (ts + [t])[..|ts|] == ts;
  }

  lemma {:induction false} TitlesUnderPosted(ps: seq<Posting>, keyword: string, t: string)
    ensures t in TitlesUnder(ps, keyword) <==> Posted(ps, keyword, t)
  {
    if ps != [] {
      var init, p := ps[..|ps| - 1], ps[|ps| - 1];
      TitlesUnderPosted(init, keyword, t);
      assert ps == init + [p];
      if Posted(init, keyword, t) {
        var q :| q in init && q.keyword == keyword && q.title == t;
        assert q in ps;
      }
      assert p in ps;
    }
  }

  /**
   * A node's lists are in order of arrival: under each keyword the titles posted under it, each at
   * its first posting; and each title keeps the magnet of its first posting.
   */
  lemma {:induction false} ListedInArrivalOrder(ps: seq<Posting>, keyword: string, title: string)
    ensures ListingOf(RecordAll(ps), keyword) == FirstTimes(TitlesUnder(ps, keyword))
    ensures title in RecordAll(ps).magnets <==> FirstMagnet(ps, title).Some?
    ensures title in RecordAll(ps).magnets ==> RecordAll(ps).magnets[title] == FirstMagnet(ps, title).value
  {
    if ps != [] {
      var init, p := ps[..|ps| - 1], ps[|ps| - 1];
      ListedInArrivalOrder(init, keyword, title);
      RecordAllContents(init);
      if p.keyword == keyword {
        FirstTimesSnoc(TitlesUnder(init, keyword), p.title);
        TitlesUnderPosted(init, keyword, p.title);
        assert Lists(RecordAll(init), keyword, p.title) <==> Posted(init, keyword, p.title);
      } else {
        assert TitlesUnder(init, keyword) + [] == TitlesUnder(init, keyword);
      }
    }
  }

  /** An answer gives the listed titles in list order, each with its magnet. */
  lemma SearchInOrder(st: Store, keyword: string, i: nat)
    requires Consistent(st)
    ensures |Search(st, keyword)| == |ListingOf(st, keyword)|
    ensures i < |ListingOf(st, keyword)| ==>
              && ListingOf(st, keyword)[i] in st.magnets
              && Search(st, keyword)[i].title == ListingOf(st, keyword)[i]
              && Search(st, keyword)[i].magnet == st.magnets[ListingOf(st, keyword)[i]]
  {
    if i < |ListingOf(st, keyword)| {
      assert st.titles[keyword][i] in st.titles[keyword];
    }
  }

  // ----- Additions -----

  lemma DeliveriesOfOne(keyword: string, n: nat, i: nat)
    requires n > 0 && i < 3
    ensures |DeliveriesOf(keyword, n)| == 3
    ensures DeliveriesOf(keyword, n)[i] == Delivery((PrimaryNode(keyword, n) + i) % n, keyword)
  {
  }

  /** The distribution list goes keyword by keyword, three nodes each, the primary first. */
  lemma {:induction false} DeliveriesInOrder(keywords: seq<string>, n: nat, j: nat, i: nat)
    requires n > 0 && j < |keywords| && i < 3
    ensures |Deliveries(keywords, n)| == 3 * |keywords| && 3 * j + i < |Deliveries(keywords, n)|
    ensures Deliveries(keywords, n)[3 * j + i] == Delivery((PrimaryNode(keywords[j], n) + i) % n, keywords[j])
  {
    DeliveriesCount(keywords, n);
    DeliveriesOfOne(keywords[0], n, i);
    if j > 0 {
      var rest := Deliveries(keywords[1..], n);
      DeliveriesInOrder(keywords[1..], n, j - 1, i);
      assert (DeliveriesOf(keywords[0], n) + rest)[3 + (3 * (j - 1) + i)] == rest[3 * (j - 1) + i];
    }
  }

  lemma {:induction false} DeliveriesCount(keywords: seq<string>, n: nat)
    requires n > 0
    ensures |Deliveries(keywords, n)| == 3 * |keywords|
  {
    if keywords != [] {
      DeliveriesOfOne(keywords[0], n, 0);
      DeliveriesCount(keywords[1..], n);
    }
  }

  /** A message of an addition: to the node, with no source and no request id. */
  function AddMessage(ring: seq<Endpoint>, r: nat, keyword: string, title: string, magnet: string): Packet
    requires r < |ring|
  {
    Packet(ring[r], IndexMessage(Endpoint("", 0), "", KeywordAdd(keyword, title, magnet)))
  }

  /** The messages of a distribution list: one for each element that is for another node, in order. */
  lemma {:induction false} RemotePacketsInOrder(ring: seq<Endpoint>, self: nat, a: seq<Delivery>, b: seq<Delivery>,
                                                t: string, m: string)
    requires OnRing(ring, a) && OnRing(ring, b)
    ensures OnRing(ring, a + b)
    ensures RemotePackets(ring, self, a + b, t, m) == RemotePackets(ring, self, a, t, m) + RemotePackets(ring, self, b, t, m)
    ensures |a| == 1 ==>
              RemotePackets(ring, self, a, t, m) == if a[0].node == self then [] else [AddMessage(ring, a[0].node, a[0].keyword, t, m)]
    decreases b
  {
    if |a| == 1 {
      assert a[..0] == [] && RemotePackets(ring, self, a[..0], t, m) == [];
    }
    if b == [] {
      assert a + b == a;
    } else {
      var init, d := b[..|b| - 1], b[|b| - 1];
      RemotePacketsInOrder(ring, self, a, init, t, m);
      assert (a + b)[..|a + b| - 1] == a + init;
      var last := if d.node == self then [] else [KeywordAddPacket(ring, d, t, m)];
      Associate(RemotePackets(ring, self, a, t, m), RemotePackets(ring, self, init, t, m), last);
    }
  }

  /** What working off a list leaves in the node's maps. */
  lemma {:induction false} DistributedLists(st: Store, self: nat, ds: seq<Delivery>, title: string, magnet: string,
                                            k: string, t: string)
    requires title in st.magnets
    ensures var st' := Distributed(st, self, ds, title, magnet);
            && st'.magnets == st.magnets
            && (Lists(st', k, t) <==> Lists(st, k, t) || (t == title && Delivery(self, k) in ds))
  {
    if ds != [] {
      var init, d := ds[..|ds| - 1], ds[|ds| - 1];
      DistributedLists(st, self, init, title, magnet, k, t);
      assert ds == init + [d];
      var before := Distributed(st, self, init, title, magnet);
      assert Record(before, d.keyword, title, magnet).magnets == before.magnets;
    }
  }

  /**
   * An addition: a known title changes nothing; a new one is known with its magnet, and listed under those
   * of its keywords that are this node's. Nothing else changes.
   */
  lemma AddedLists(st: Store, self: nat, n: nat, title: string, magnet: string, k: string, t: string)
    requires self < n
    ensures var st' := Added(st, self, n, title, magnet);
            && (title in st.magnets ==> st' == st)
            && (title !in st.magnets ==>
                  && st'.magnets == st.magnets[title := magnet]
                  && (Lists(st', k, t) <==>
                        Lists(st, k, t) || (t == title && k in Keywords(title) && Responsible(self, k, n))))
  {
    if title !in st.magnets {
      DistributedLists(KnowTitle(st, title, magnet), self, Deliveries(Keywords(title), n), title, magnet, k, t);
      DeliveriesHold(Keywords(title), n, Delivery(self, k));
    }
  }

  lemma {:induction false} DeliveriesHold(keywords: seq<string>, n: nat, d: Delivery)
    requires n > 0 && d.node < n
    ensures d in Deliveries(keywords, n) <==> d.keyword in keywords && Responsible(d.node, d.keyword, n)
  {
    if keywords != [] {
      var ts, first := Targets(keywords[0], n), DeliveriesOf(keywords[0], n);
      DeliveriesHold(keywords[1..], n, d);
      assert keywords == [keywords[0]] + keywords[1..];
      WriteSetIsReadSet(d.keyword, n, d.node);
      if d.keyword == keywords[0] && d.node in ts {
        var i :| 0 <= i < |ts| && ts[i] == d.node;
        assert first[i] == d;
      }
    }
  }

  // ----- Forwards -----

  /** A forward goes to the nodes 0, 1 and 2 without this one, in that order, unchanged. */
  lemma ForwardsExactly(ring: seq<Endpoint>, self: nat, m: IndexMessage)
    requires |ring| >= 3
    ensures Forwards(ring, self, m, 3) ==
              match self
              case 0 => [Packet(ring[1], m), Packet(ring[2], m)]
              case 1 => [Packet(ring[0], m), Packet(ring[2], m)]
              case 2 => [Packet(ring[0], m), Packet(ring[1], m)]
              case _ => [Packet(ring[0], m), Packet(ring[1], m), Packet(ring[2], m)]
  {
    assert Forwards(ring, self, m, 1) == if self == 0 then [] else [Packet(ring[0], m)];
    assert Forwards(ring, self, m, 2) == Forwards(ring, self, m, 1) + if self == 1 then [] else [Packet(ring[1], m)];
  }

  /** Sending changes the source of a message and nothing else, and keeps the order. */
  lemma StampedKeeps(self: Endpoint, ps: seq<Packet>, i: nat)
    requires i < |ps|
    ensures |Stamped(self, ps)| == |ps|
    ensures Stamped(self, ps)[i] == Packet(ps[i].target, IndexMessage(self, ps[i].message.requestId, ps[i].message.body))
  {
  }

  // ----- Gives -----

  /** The last result for a title decides its magnet; other titles keep theirs. */
  lemma {:induction false} LastResultWins(st: Store, results: seq<TorrentResult>, i: nat, title: string)
    ensures title !in st.magnets && (forall j :: 0 <= j < |results| ==> results[j].title != title) ==>
              title !in Absorbed(st, results).magnets
    ensures title in st.magnets && (forall j :: 0 <= j < |results| ==> results[j].title != title) ==>
              title in Absorbed(st, results).magnets && Absorbed(st, results).magnets[title] == st.magnets[title]
    ensures i < |results| && results[i].title == title && (forall j :: i < j < |results| ==> results[j].title != title) ==>
              title in Absorbed(st, results).magnets && Absorbed(st, results).magnets[title] == results[i].magnet
  {
    if results != [] {
      LastResultWins(st, results[..|results| - 1], i, title);
    }
  }

  // ----- The gate -----

  /** A request id is the whole key, whoever sends the message, when, and whatever it says. */
  lemma KeyIsRequestId(m: IndexMessage, now: nat)
    requires m.requestId != ""
    ensures GateKey(m, now) == m.requestId
  {
  }

  /**
   * Without one, all but searches and answers have their source as key, at all times and whatever they
   * say: one source, one key, and different sources have different keys.
   */
  lemma KeyDeterminesSource(m: IndexMessage, m': IndexMessage, now: nat, now': nat)
    requires m.requestId == "" == m'.requestId && ':' !in m.source.ip && ':' !in m'.source.ip
    requires !m.body.WantTorrent? && !m.body.GiveTorrent? && !m'.body.WantTorrent? && !m'.body.GiveTorrent?
    ensures GateKey(m, now) == GateKey(m', now') <==> m.source == m'.source
  {
    if GateKey(m, now) == GateKey(m', now') {
      var ip, ip', port, port' := m.source.ip, m'.source.ip, Decimal(m.source.port), Decimal(m'.source.port);
      assert GateKey(m, now) == ip + (":" + port);
      assert GateKey(m', now') == ip' + (":" + port');
      ColonEnds(ip, port, ip', port');
      DecimalInjective(m.source.port, m'.source.port);
    }
  }

  lemma ColonAt(a: string, x: string)
    requires ':' !in a
    ensures |a| < |a + (":" + x)| && (a + (":" + x))[|a|] == ':'
    ensures forall i :: 0 <= i < |a| ==> (a + (":" + x))[i] != ':'
  {
  }

  lemma ColonEnds(a: string, x: string, b: string, y: string)
    requires ':' !in a && ':' !in b && a + (":" + x) == b + (":" + y)
    ensures a == b && x == y
  {
    ColonAt(a, x);
    ColonAt(b, y);
    assert a == (a + (":" + x))[..|a|] && b == (b + (":" + y))[..|b|];
    SameTail(a, ":" + x, ":" + y);
    SameTail(":", x, y);
  }

  /** A search without request id has the second in its key: it passes again a second later. */
  lemma KeyHasTime(m: IndexMessage, now: nat, now': nat)
    requires m.requestId == "" && (m.body.WantTorrent? || m.body.GiveTorrent?)
    ensures GateKey(m, now) == GateKey(m, now') <==> now == now'
    ensures |GateKey(m, now)| > |m.source.ip + ":" + Decimal(m.source.port)|
  {
    var prefix := m.source.ip + ":" + Decimal(m.source.port);
    var kind := if m.body.WantTorrent? then ":want:" + m.body.keyword else ":give:" + m.body.keyword;
    assert GateKey(m, now) == prefix + (kind + Decimal(now));
    assert GateKey(m, now') == prefix + (kind + Decimal(now'));
    if GateKey(m, now) == GateKey(m, now') {
      SameTail(prefix, kind + Decimal(now), kind + Decimal(now'));
      SameTail(kind, Decimal(now), Decimal(now'));
      DecimalInjective(now, now');
    }
  }

  function GateAfter(gate: set<string>, keys: seq<string>): set<string> {
    if keys == [] then gate else Gated(GateAfter(gate, keys[..|keys| - 1]), keys[|keys| - 1])
  }

  lemma NewElement(keys: seq<string>, key: string)
    requires NoDuplicates(keys + [key])
    ensures NoDuplicates(keys) && key !in keys && Elements(keys + [key]) == Elements(keys) + {key}
  {
    assert forall i :: 0 <= i < |keys| ==> keys[i] == (keys + [key])[i];
    assert (keys + [key])[|keys|] == key;
  }

  lemma {:induction false} ElementsSize(keys: seq<string>)
    requires NoDuplicates(keys)
    ensures |Elements(keys)| == |keys|
  {
    if keys != [] {
      var init, key := keys[..|keys| - 1], keys[|keys| - 1];
      assert keys == init + [key];
      NewElement(init, key);
      ElementsSize(init);
    }
  }

  /** The gate remembers up to 10000 different keys; the next one empties it. */
  lemma {:induction false} GateHoldsTenThousand(keys: seq<string>)
    requires NoDuplicates(keys) && |keys| <= 10001
    ensures GateAfter({}, keys) == if |keys| <= 10000 then Elements(keys) else {}
  {
    if keys != [] {
      var init, key := keys[..|keys| - 1], keys[|keys| - 1];
      assert keys == init + [key];
      NewElement(init, key);
      GateHoldsTenThousand(init);
      ElementsSize(keys);
    }
  }

  /** What a message that passes the gate teaches the node: the titles it names, and only an addition lists any. */
  lemma DispatchTeaches(ring: seq<Endpoint>, st: Store, self: nat, m: IndexMessage)
    requires self < |ring|
    ensures var st' := Dispatched(ring, st, self, m);
            match m.body
            case AddTorrent(t, magnet) => t in st'.magnets && (t !in st.magnets ==> st'.magnets[t] == magnet)
            case KeywordAdd(k, t, magnet) => t in st'.magnets && Lists(st', k, t) && (t !in st.magnets ==> st'.magnets[t] == magnet)
            case GiveTorrent(_, results) =>
              st'.titles == st.titles && forall i :: 0 <= i < |results| ==> results[i].title in st'.magnets
            case WantTorrent(_) => st' == st
            case Unhandled => st' == st
    ensures !m.body.AddTorrent? && !m.body.WantTorrent? ==> DispatchPackets(ring, st, self, m) == []
  {
    match m.body
    case AddTorrent(t, magnet) => AddedLists(st, self, |ring|, t, magnet, "", t);
    case GiveTorrent(_, results) => AbsorbedMagnets(st, results);
    case _ =>
  }
}
