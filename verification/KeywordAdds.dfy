/**
 * KeywordAdds through the duplicate gate: all those of one source share a gate key, so that within a
 * generation a node takes up only the first. What this leaves of the index, exactly.
 */
module KeywordAdds {
  import opened Common
  import opened RingHash
  import opened Tokeniser
  import opened IndexNode
  import opened Convergence
  import opened IndexSystem
  import opened IndexRequests

  function SourceKey(source: Endpoint): string {
    source.ip + ":" + Decimal(source.port)
  }

  /** Every KeywordAdd in flight comes from another ring node and carries no request id. */
  ghost predicate FromRing(ring: seq<Endpoint>, p: Packet) {
    p.message.body.KeywordAdd? ==>
      p.message.source in ring && p.message.source != p.target && p.message.requestId == ""
  }

  lemma {:induction false} KeywordAddsFromRing(ring: seq<Endpoint>, steps: seq<Step>)
    requires Ring(ring)
    ensures forall p :: p in Run(ring, steps).net ==> FromRing(ring, p)
    decreases steps
  {
    if steps != [] {
      var before, step := steps[..|steps| - 1], steps[|steps| - 1];
      KeywordAddsFromRing(ring, before);
      var s := Run(ring, before);
      if Enabled(ring, s, step) {
        match step
        case Deliver(k, i, now) =>
          WithoutElements(s.net, k);
          var message, st := s.net[k].message, s.nodes[i].store;
          if !message.body.AddTorrent? {
            var ps := DispatchPackets(ring, st, i, message);
            var out := Stamped(ring[i], ps);
            forall q | q in out
              ensures FromRing(ring, q)
            {
              var x :| 0 <= x < |out| && out[x] == q;
              assert ps[x] in ps;
              WantPacketBodies(ring, st, i, message);
            }
          }
        case Drop(k, _) => WithoutElements(s.net, k);
        case Consume(k) => WithoutElements(s.net, k);
        case _ =>
      }
    }
  }

  /** The entry a step brings node i from another node: a KeywordAdd that passes its gate. */
  ghost function TakenUp(ring: seq<Endpoint>, s: System, step: Step, i: nat): set<Entry>
    requires |s.nodes| == |ring|
  {
    if step.Deliver? && Enabled(ring, s, step) && step.node == i && s.net[step.k].message.body.KeywordAdd?
       && GateKey(s.net[step.k].message, step.now) !in s.nodes[i].gate
    then {Entry(i, s.net[step.k].message.body.keyword, s.net[step.k].message.body.title)}
    else {}
  }

  /** The entry a step makes at node i for a title added at that very node. */
  ghost function MadeLocally(ring: seq<Endpoint>, s: System, step: Step, i: nat): set<Entry>
    requires |s.nodes| == |ring|
  {
    if step.RunJob? && Enabled(ring, s, step) && s.jobs[step.k].adder == i == s.jobs[step.k].delivery.node
    then {Entry(i, s.jobs[step.k].delivery.keyword, s.jobs[step.k].title)}
    else {}
  }

  ghost function RemoteEntries(ring: seq<Endpoint>, steps: seq<Step>, i: nat): set<Entry>
    decreases steps
  {
    if steps == [] then {}
    else RemoteEntries(ring, steps[..|steps| - 1], i)
         + TakenUp(ring, Run(ring, steps[..|steps| - 1]), steps[|steps| - 1], i)
  }

  ghost function OwnEntries(ring: seq<Endpoint>, steps: seq<Step>, i: nat): set<Entry>
    decreases steps
  {
    if steps == [] then {}
    else OwnEntries(ring, steps[..|steps| - 1], i)
         + MadeLocally(ring, Run(ring, steps[..|steps| - 1]), steps[|steps| - 1], i)
  }

  lemma StoredNext(ring: seq<Endpoint>, s: System, step: Step, e: Entry)
    requires |s.nodes| == |ring| && e.node < |ring|
    ensures Stored(Next(ring, s, step), e) <==>
              Stored(s, e) || e in TakenUp(ring, s, step, e.node) + MadeLocally(ring, s, step, e.node)
  {
    if Enabled(ring, s, step) {
      match step
      case Deliver(k, i, now) => StoredDeliver(ring, s, k, i, now, e);
      case _ =>
    }
  }

  lemma StoredDeliver(ring: seq<Endpoint>, s: System, k: nat, i: nat, now: nat, e: Entry)
    requires |s.nodes| == |ring| && e.node < |ring|
    requires Enabled(ring, s, Deliver(k, i, now))
    ensures Stored(Next(ring, s, Deliver(k, i, now)), e) <==>
              Stored(s, e) || e in TakenUp(ring, s, Deliver(k, i, now), e.node)
  {
    AbsorbedKeeps(s.nodes[i].store, s.net[k].message.body);
  }

  /** What a node lists is what it added itself and what reached it. */
  lemma {:induction false} StoredIsOwnOrRemote(ring: seq<Endpoint>, steps: seq<Step>, e: Entry)
    requires e.node < |ring|
    ensures Stored(Run(ring, steps), e) <==> e in OwnEntries(ring, steps, e.node) + RemoteEntries(ring, steps, e.node)
    decreases steps
  {
    if steps != [] {
      StoredIsOwnOrRemote(ring, steps[..|steps| - 1], e);
      StoredNext(ring, Run(ring, steps[..|steps| - 1]), steps[|steps| - 1], e);
    }
  }

  /** The gate keys under which KeywordAdds from these sources arrive. */
  function SourceKeys(sources: set<Endpoint>): set<string> {
    set e | e in sources :: SourceKey(e)
  }

  lemma {:induction false} SourceKeysSize(sources: set<Endpoint>)
    ensures |SourceKeys(sources)| <= |sources|
  {
    if x :| x in sources {
      SourceKeysSize(sources - {x});
      assert SourceKeys(sources) == {SourceKey(x)} + SourceKeys(sources - {x});
    } else {
      assert SourceKeys(sources) == {};
    }
  }

  /** The node at which a step makes an addition. */
  ghost function AddedBy(ring: seq<Endpoint>, s: System, step: Step): set<nat>
    requires |s.nodes| == |ring|
  {
    if !Enabled(ring, s, step) then {}
    else match step
      case LocalAdd(i, _, _) => {i}
      case Deliver(k, i, _) => if s.net[k].message.body.AddTorrent? then {i} else {}
      case _ => {}
  }

  /** The nodes at which additions were made during the run. */
  ghost function Adders(ring: seq<Endpoint>, steps: seq<Step>): (adders: set<nat>)
    ensures forall j :: j in adders ==> j < |ring|
    decreases steps
  {
    if steps == [] then {}
    else Adders(ring, steps[..|steps| - 1]) + AddedBy(ring, Run(ring, steps[..|steps| - 1]), steps[|steps| - 1])
  }

  /** KeywordAdds come from nodes at which additions were made. */
  ghost predicate FromAdders(ring: seq<Endpoint>, s: System, adders: set<nat>) {
    && (forall p :: p in s.net && p.message.body.KeywordAdd? ==> FromAdder(ring, p, adders))
    && (forall j :: j in s.jobs ==> j.adder in adders)
  }

  ghost predicate FromAdder(ring: seq<Endpoint>, p: Packet, adders: set<nat>) {
    exists j :: j in adders && j < |ring| && p.message.source == ring[j]
  }

  lemma FromAddersGrow(ring: seq<Endpoint>, s: System, adders: set<nat>, adders': set<nat>)
    requires FromAdders(ring, s, adders) && adders <= adders'
    ensures FromAdders(ring, s, adders')
  {
    forall p | p in s.net && p.message.body.KeywordAdd?
      ensures FromAdder(ring, p, adders')
    {
      assert FromAdder(ring, p, adders);
    }
  }

  lemma FromAddersNext(ring: seq<Endpoint>, s: System, step: Step, adders: set<nat>)
    requires |s.nodes| == |ring| && FromAdders(ring, s, adders) && AddedBy(ring, s, step) <= adders
    ensures FromAdders(ring, Next(ring, s, step), adders)
  {
    if Enabled(ring, s, step) {
      match step
      case Deliver(k, i, now) =>
        WithoutElements(s.net, k);
        if !s.net[k].message.body.AddTorrent? {
          NoKeywordAddsSent(ring, s.nodes[i].store, i, s.net[k].message);
        }
      case RunJob(k) =>
        WithoutElements(s.jobs, k);
        assert s.jobs[k] in s.jobs;
      case Drop(k, _) => WithoutElements(s.net, k);
      case Consume(k) => WithoutElements(s.net, k);
      case _ =>
    }
  }

  lemma NoKeywordAddsSent(ring: seq<Endpoint>, st: Store, i: nat, message: IndexMessage)
    requires i < |ring| && !message.body.AddTorrent?
    ensures forall q :: q in Stamped(ring[i], DispatchPackets(ring, st, i, message)) ==> !q.message.body.KeywordAdd?
  {
    var ps := DispatchPackets(ring, st, i, message);
    forall q | q in Stamped(ring[i], ps)
      ensures !q.message.body.KeywordAdd?
    {
      var x :| 0 <= x < |ps| && Stamped(ring[i], ps)[x] == q;
      assert ps[x] in ps;
      WantPacketBodies(ring, st, i, message);
    }
  }

  lemma {:induction false} AddersSend(ring: seq<Endpoint>, steps: seq<Step>)
    ensures FromAdders(ring, Run(ring, steps), Adders(ring, steps))
    decreases steps
  {
    if steps != [] {
      var before := steps[..|steps| - 1];
      AddersSend(ring, before);
      FromAddersGrow(ring, Run(ring, before), Adders(ring, before), Adders(ring, steps));
      FromAddersNext(ring, Run(ring, before), steps[|steps| - 1], Adders(ring, steps));
    }
  }

  /** The endpoints of these nodes other than node i. */
  function Others(ring: seq<Endpoint>, adders: set<nat>, i: nat): set<Endpoint> {
    set j | j in adders && j < |ring| && j != i :: ring[j]
  }

  lemma {:induction false} OthersSize(ring: seq<Endpoint>, adders: set<nat>, i: nat)
    ensures |Others(ring, adders, i)| <= |adders - {i}|
  {
    if j :| j in adders && j != i {
      var rest := adders - {j};
      OthersSize(ring, rest, i);
      assert rest - {i} == adders - {i} - {j};
      if j < |ring| {
        assert Others(ring, adders, i) == Others(ring, rest, i) + {ring[j]};
      } else {
        assert Others(ring, adders, i) == Others(ring, rest, i);
      }
    } else {
      assert Others(ring, adders, i) == {};
    }
  }

  lemma {:induction false} BelowSize(a: set<nat>, n: nat)
    requires forall j :: j in a ==> j < n
    ensures |a| <= n
  {
    if n > 0 {
      BelowSize(a - {n - 1}, n - 1);
    } else {
      assert a == {};
    }
  }

  /** Taking up an entry puts a new source key of another node that made additions into the gate. */
  lemma TakenUpUsesKey(ring: seq<Endpoint>, s: System, step: Step, i: nat, adders: set<nat>)
    requires |s.nodes| == |ring| && i < |ring| && !Clears(ring, s, step)
    requires FromAdders(ring, s, adders) && forall p :: p in s.net ==> FromRing(ring, p)
    ensures |Next(ring, s, step).nodes| == |s.nodes|
    ensures |s.nodes[i].gate * SourceKeys(Others(ring, adders, i))| + |TakenUp(ring, s, step, i)|
         <= |Next(ring, s, step).nodes[i].gate * SourceKeys(Others(ring, adders, i))|
  {
    GatesNext(ring, s, step);
    var keys := SourceKeys(Others(ring, adders, i));
    var a, b := s.nodes[i].gate * keys, Next(ring, s, step).nodes[i].gate * keys;
    if TakenUp(ring, s, step, i) == {} {
      SubsetSize(a, b);
    } else {
      var m := s.net[step.k].message;
      assert FromRing(ring, s.net[step.k]) && FromAdder(ring, s.net[step.k], adders);
      KeywordAddKey(m, step.now);
      assert m.source in Others(ring, adders, i);
      assert b == a + {SourceKey(m.source)};
    }
  }

  lemma KeywordAddKey(m: IndexMessage, now: nat)
    requires m.body.KeywordAdd? && m.requestId == ""
    ensures GateKey(m, now) == SourceKey(m.source)
  {
    assert SourceKey(m.source) + "" == SourceKey(m.source);
  }

  lemma {:induction false} RemoteByKeys(ring: seq<Endpoint>, steps: seq<Step>, i: nat, adders: set<nat>)
    requires Ring(ring) && i < |ring| && OneGeneration(ring, steps) && Adders(ring, steps) <= adders
    ensures |RemoteEntries(ring, steps, i)| <= |Run(ring, steps).nodes[i].gate * SourceKeys(Others(ring, adders, i))|
    decreases steps
  {
    if steps != [] {
      var before := steps[..|steps| - 1];
      RemoteByKeys(ring, before, i, adders);
      KeywordAddsFromRing(ring, before);
      AddersSend(ring, before);
      FromAddersGrow(ring, Run(ring, before), Adders(ring, before), adders);
      TakenUpUsesKey(ring, Run(ring, before), steps[|steps| - 1], i, adders);
      var a, b := RemoteEntries(ring, before, i), TakenUp(ring, Run(ring, before), steps[|steps| - 1], i);
      assert |a + b| == |a| + |b - a|;
      SubsetSize(b - a, b);
    }
  }

  /**
   * KeywordAdds carry no request id, so all of them from one source share a gate key. Within a
   * generation a node therefore takes up at most one entry from each other node that made additions,
   * however many were sent; every further one is refused and counted in `lost`. The client adds at
   * node 0 only: then no node takes up more than one.
   */
  lemma RemoteEntriesBounded(ring: seq<Endpoint>, steps: seq<Step>, i: nat)
    requires Ring(ring) && i < |ring| && OneGeneration(ring, steps)
    ensures |RemoteEntries(ring, steps, i)| <= |Adders(ring, steps) - {i}| <= |ring| - 1
  {
    var adders := Adders(ring, steps);
    var keys := SourceKeys(Others(ring, adders, i));
    RemoteByKeys(ring, steps, i, adders);
    SourceKeysSize(Others(ring, adders, i));
    OthersSize(ring, adders, i);
    SubsetSize(Run(ring, steps).nodes[i].gate * keys, keys);
    WithoutOne(adders, |ring|, i);
  }

  lemma WithoutOne(a: set<nat>, n: nat, i: nat)
    requires i < n && forall j :: j in a ==> j < n
    ensures |a - {i}| <= n - 1
  {
    BelowSize(a + {i}, n);
    assert a - {i} == (a + {i}) - {i};
  }

  /** A KeywordAdd on arrival is stored iff its source has not been heard since the last clearing. */
  lemma KeywordAddPassesIffSourceUnseen(ring: seq<Endpoint>, steps: seq<Step>, k: nat, i: nat, now: nat)
    requires Ring(ring)
    requires var s := Run(ring, steps);
             Enabled(ring, s, Deliver(k, i, now)) && s.net[k].message.body.KeywordAdd?
    ensures var s := Run(ring, steps);
            var m := s.net[k].message;
            var e := Entry(i, m.body.keyword, m.body.title);
            var s' := Next(ring, s, Deliver(k, i, now));
            && (SourceKey(m.source) !in s.nodes[i].gate ==> Stored(s', e) && s'.lost == s.lost)
            && (SourceKey(m.source) in s.nodes[i].gate ==>
                  s'.nodes[i].store == s.nodes[i].store && s'.lost == s.lost + {e})
  {
    var s := Run(ring, steps);
    KeywordAddsFromRing(ring, steps);
    assert FromRing(ring, s.net[k]);
    KeywordAddKey(s.net[k].message, now);
  }

  // ----- What this leaves of search -----

  /** Every entry lost on the way to node r was brought in otherwise: by r itself or by a KeywordAdd that passed. */
  ghost predicate LossesMadeGood(ring: seq<Endpoint>, steps: seq<Step>, r: nat, keyword: string) {
    forall t :: Entry(r, keyword, t) in Run(ring, steps).lost ==>
      Entry(r, keyword, t) in OwnEntries(ring, steps, r) + RemoteEntries(ring, steps, r)
  }

  /**
   * The search at a quiescent responsible node is exact iff every entry refused or lost on the way
   * there was made by the node's own addition or by another KeywordAdd that passed the gate.
   */
  lemma SearchExact(ring: seq<Endpoint>, steps: seq<Step>, r: nat, keyword: string)
    requires Ring(ring) && r < |ring| && Responsible(r, keyword, |ring|)
    requires Quiescent(ring, Run(ring, steps), r, keyword)
    ensures Exact(Run(ring, steps), r, keyword) <==> LossesMadeGood(ring, steps, r, keyword)
  {
    var s, brought := Run(ring, steps), OwnEntries(ring, steps, r) + RemoteEntries(ring, steps, r);
    forall t
      ensures Finds(s.nodes[r].store, keyword, t) <==> Entry(r, keyword, t) in brought
      ensures Finds(s.nodes[r].store, keyword, t) || Entry(r, keyword, t) in s.lost
              <==> Accepted(s, t) && keyword in Keywords(t)
    {
      FoundIffBrought(ring, steps, r, keyword, t);
    }
  }

  /** A title is found iff it was brought to the node, and brought or lost iff it was accepted. */
  ghost predicate Found(ring: seq<Endpoint>, steps: seq<Step>, r: nat, keyword: string, t: string)
    requires r < |ring|
  {
    var s, e := Run(ring, steps), Entry(r, keyword, t);
    && (Finds(s.nodes[r].store, keyword, t) <==> e in OwnEntries(ring, steps, r) + RemoteEntries(ring, steps, r))
    && (Finds(s.nodes[r].store, keyword, t) || e in s.lost <==> Accepted(s, t) && keyword in Keywords(t))
  }

  lemma FoundIffBrought(ring: seq<Endpoint>, steps: seq<Step>, r: nat, keyword: string, t: string)
    requires Ring(ring) && r < |ring| && Responsible(r, keyword, |ring|)
    requires Quiescent(ring, Run(ring, steps), r, keyword)
    ensures Found(ring, steps, r, keyword, t)
  {
    var s := Run(ring, steps);
    Invariant(ring, steps);
    assert NodeSound(|ring|, r, s.nodes[r].store, s.accepted);
    FindsIffLists(s.nodes[r].store, keyword, t);
    StoredIsOwnOrRemote(ring, steps, Entry(r, keyword, t));
    FoundOrLost(ring, steps, r, keyword, t);
  }

  /**
   * End to end the index is incomplete as soon as more entries belong at a node than it made itself
   * plus one per other node that made additions: within a generation, once nothing is under way, one of
   * them was refused or lost on the way and a search for its keyword misses it.
   */
  lemma TooManyEntriesLost(ring: seq<Endpoint>, steps: seq<Step>, i: nat, wanted: set<Entry>)
    requires Ring(ring) && i < |ring| && OneGeneration(ring, steps)
    requires forall e :: e in wanted ==>
               && e.node == i && Wanted(|ring|, e) && Accepted(Run(ring, steps), e.title)
               && Quiescent(ring, Run(ring, steps), i, e.keyword)
               && e !in OwnEntries(ring, steps, i)
    requires |wanted| > |Adders(ring, steps) - {i}|
    ensures exists e :: e in wanted && e in Run(ring, steps).lost && !Exact(Run(ring, steps), i, e.keyword)
  {
    RemoteEntriesBounded(ring, steps, i);
    if wanted <= RemoteEntries(ring, steps, i) {
      SubsetSize(wanted, RemoteEntries(ring, steps, i));
      assert false;
    } else {
      var e :| e in wanted && e !in RemoteEntries(ring, steps, i);
      FoundIffBrought(ring, steps, i, e.keyword, e.title);
      assert e == Entry(i, e.keyword, e.title);
    }
  }

  /**
   * Replicas agree: once nothing is under way, two responsible nodes whose losses were made good give
   * the same answers, if each accepted title came with one magnet.
   */
  lemma ReplicasAgree(ring: seq<Endpoint>, steps: seq<Step>, q: nat, r: nat, keyword: string)
    requires Ring(ring) && q < |ring| && r < |ring|
    requires Responsible(q, keyword, |ring|) && Responsible(r, keyword, |ring|)
    requires Quiescent(ring, Run(ring, steps), q, keyword) && Quiescent(ring, Run(ring, steps), r, keyword)
    requires LossesMadeGood(ring, steps, q, keyword) && LossesMadeGood(ring, steps, r, keyword)
    requires OneMagnetEach(Run(ring, steps).accepted)
    ensures var s := Run(ring, steps);
            multiset(Search(s.nodes[q].store, keyword)) == multiset(Search(s.nodes[r].store, keyword))
  {
    SearchExact(ring, steps, q, keyword);
    SearchExact(ring, steps, r, keyword);
    Invariant(ring, steps);
    var s := Run(ring, steps);
    var a, b := s.nodes[q].store, s.nodes[r].store;
    assert NodeSound(|ring|, q, a, s.accepted) && NodeSound(|ring|, r, b, s.accepted);
    SearchNoDuplicates(a, keyword);
    SearchNoDuplicates(b, keyword);
    forall x
      ensures x in Search(a, keyword) <==> x in Search(b, keyword)
    {
      SameAnswer(a, b, s.accepted, keyword, x);
      SameAnswer(b, a, s.accepted, keyword, x);
    }
    SameSetSameMultiset(Search(a, keyword), Search(b, keyword));
  }

  ghost predicate OneMagnetEach(accepted: set<TorrentResult>) {
    forall x, y :: x in accepted && y in accepted && x.title == y.title ==> x == y
  }

  lemma SameAnswer(a: Store, b: Store, accepted: set<TorrentResult>, keyword: string, x: TorrentResult)
    requires Consistent(a) && Consistent(b) && OneMagnetEach(accepted)
    requires forall t :: t in a.magnets ==> TorrentResult(t, a.magnets[t]) in accepted
    requires forall t :: t in b.magnets ==> TorrentResult(t, b.magnets[t]) in accepted
    requires Finds(a, keyword, x.title) <==> Finds(b, keyword, x.title)
    ensures x in Search(a, keyword) ==> x in Search(b, keyword)
  {
    FindsIffLists(a, keyword, x.title);
    FindsIffLists(b, keyword, x.title);
    InSearch(a, keyword, x);
    InSearch(b, keyword, x);
    if x in Search(a, keyword) {
      assert TorrentResult(x.title, a.magnets[x.title]) == TorrentResult(x.title, b.magnets[x.title]);
    }
  }

  // ----- A run that loses a keyword -----

  const TITLE := "a b"

  lemma TitleKeywords()
    ensures Keywords(TITLE) == ["a", "b"]
  {
    SeparatorLaw("a", ' ', "b");
    assert "a" + [' '] + "b" == TITLE;
    CleanWordIsItsKeyword("a");
    CleanWordIsItsKeyword("b");
  }

  /** On a ring of two, "a" has node 0 and "b" node 1 as primary, and both nodes hold both. */
  lemma TitlePlacement()
    ensures PrimaryNode("a", 2) == 0 && PrimaryNode("b", 2) == 1
    ensures Deliveries(Keywords(TITLE), 2) == First() + Second()
    ensures Responsible(1, "a", 2) && Responsible(1, "b", 2)
  {
    TitleKeywords();
    LetterPlacement();
    assert ["a", "b"][1..] == ["b"] && ["b"][1..] == [];
    assert Deliveries(["b"], 2) == Second() + [] == Second();
  }

  lemma LetterPlacement()
    ensures PrimaryNode("a", 2) == 0 && PrimaryNode("b", 2) == 1
    ensures DeliveriesOf("a", 2) == First() && DeliveriesOf("b", 2) == Second()
  {
    OneLetterHash("a");
    OneLetterHash("b");
  }

  function First(): seq<Delivery> {
    [Delivery(0, "a"), Delivery(1, "a"), Delivery(0, "a")]
  }

  function Second(): seq<Delivery> {
    [Delivery(1, "b"), Delivery(0, "b"), Delivery(1, "b")]
  }

  lemma RemoteSnoc(ring: seq<Endpoint>, self: nat, ds: seq<Delivery>, d: Delivery, t: string, m: string)
    requires OnRing(ring, ds) && d.node < |ring|
    ensures OnRing(ring, ds + [d])
    ensures RemotePackets(ring, self, ds + [d], t, m) == RemotePackets(ring, self, ds, t, m) + RemoteOf(ring, self, d, t, m)
  {
    assert (ds + [d])[..|ds|] == ds;
  }

  lemma RemoteThree(ring: seq<Endpoint>, self: nat, ds: seq<Delivery>, a: Delivery, b: Delivery, c: Delivery,
                    t: string, m: string)
    requires OnRing(ring, ds) && a.node < |ring| && b.node < |ring| && c.node < |ring|
    ensures OnRing(ring, ds + [a, b, c])
    ensures RemotePackets(ring, self, ds + [a, b, c], t, m)
         == RemotePackets(ring, self, ds, t, m)
            + RemoteOf(ring, self, a, t, m) + RemoteOf(ring, self, b, t, m) + RemoteOf(ring, self, c, t, m)
  {
    RemoteSnoc(ring, self, ds, a, t, m);
    RemoteSnoc(ring, self, ds + [a], b, t, m);
    RemoteSnoc(ring, self, ds + [a] + [b], c, t, m);
    assert ds + [a] + [b] + [c] == ds + [a, b, c];
  }

  function RemoteOf(ring: seq<Endpoint>, self: nat, d: Delivery, t: string, m: string): seq<Packet>
    requires d.node < |ring|
  {
    if d.node == self then [] else [KeywordAddPacket(ring, d, t, m)]
  }

  /** Adding the title at node 0 sends node 1 one KeywordAdd for "a" and two for "b". */
  lemma TitlePackets(ring: seq<Endpoint>, m: string)
    requires |ring| == 2
    ensures AddPackets(ring, EMPTY_STORE, 0, TITLE, m)
         == [KeywordAddPacket(ring, Delivery(1, "a"), TITLE, m), KeywordAddPacket(ring, Delivery(1, "b"), TITLE, m),
             KeywordAddPacket(ring, Delivery(1, "b"), TITLE, m)]
  {
    TitlePlacement();
    DeliveriesOnRing(Keywords(TITLE), 2);
    assert [] + First() == First();
    RemoteThree(ring, 0, [], Delivery(0, "a"), Delivery(1, "a"), Delivery(0, "a"), TITLE, m);
    RemoteThree(ring, 0, First(), Delivery(1, "b"), Delivery(0, "b"), Delivery(1, "b"), TITLE, m);
  }

  /** A KeywordAdd handed to node i with the key of its source unseen, or seen. */
  ghost predicate TookKeywordAdd(s: System, s': System, i: nat, m: IndexMessage)
    requires i < |s.nodes| && m.body.KeywordAdd?
  {
    && s'.jobs == s.jobs && s'.accepted == s.accepted
    && |s'.nodes| == |s.nodes| && (forall j :: 0 <= j < |s.nodes| && j != i ==> s'.nodes[j] == s.nodes[j])
    && s'.nodes[i].gate == s.nodes[i].gate + {SourceKey(m.source)}
    && (if SourceKey(m.source) in s.nodes[i].gate
        then s'.nodes[i].store == s.nodes[i].store && s'.lost == s.lost + {Entry(i, m.body.keyword, m.body.title)}
        else s'.nodes[i].store == Record(s.nodes[i].store, m.body.keyword, m.body.title, m.body.magnet)
             && s'.lost == s.lost)
  }

  lemma KeywordAddReceived(ring: seq<Endpoint>, s: System, i: nat, m: IndexMessage)
    requires i < |s.nodes| == |ring| && m.body.KeywordAdd? && m.requestId == "" && |s.nodes[i].gate| < MAX_GATE_SIZE
    ensures var s' := Received(ring, s, i, m, 0); s'.net == s.net && TookKeywordAdd(s, s', i, m)
  {
    KeywordAddKey(m, 0);
    assert s.net + Stamped(ring[i], []) == s.net;
  }

  /** A KeywordAdd arriving at node i. */
  lemma KeywordAddArrives(ring: seq<Endpoint>, steps: seq<Step>, i: nat, m: IndexMessage, rest: seq<Packet>)
    requires i < |ring| && m.body.KeywordAdd? && m.requestId == ""
    requires var s := Run(ring, steps); s.net == [Packet(ring[i], m)] + rest && |s.nodes[i].gate| < MAX_GATE_SIZE
    ensures var s, s' := Run(ring, steps), Run(ring, steps + [Deliver(0, i, 0)]);
            s'.net == rest && TookKeywordAdd(s, s', i, m)
  {
    var s := Run(ring, steps);
    RunSnoc(ring, steps, Deliver(0, i, 0));
    assert Without(s.net, 0) == rest;
    KeywordAddReceived(ring, s.(net := rest), i, m);
  }

  /** Node 0 adds the title, and its three KeywordAdds reach node 1 in order. */
  function LossRun(ring: seq<Endpoint>, m: string): seq<Step>
    requires |ring| == 2
  {
    AddSteps(ring, Init(ring), 0, TITLE, m) + [Deliver(0, 1, 0)] + [Deliver(0, 1, 0)] + [Deliver(0, 1, 0)]
  }

  lemma TitleAdded(ring: seq<Endpoint>, m: string)
    requires |ring| == 2
    ensures var s := Run(ring, AddSteps(ring, Init(ring), 0, TITLE, m));
            && s.net == [KeywordAddFrom(ring, "a", m), KeywordAddFrom(ring, "b", m), KeywordAddFrom(ring, "b", m)]
            && s.jobs == [] && s.lost == {} && TorrentResult(TITLE, m) in s.accepted
            && s.nodes[1] == NodeState(EMPTY_STORE, {})
  {
    var add := AddSteps(ring, Init(ring), 0, TITLE, m);
    AtomicAdd(ring, [], 0, TITLE, m);
    assert [] + add == add;
    TitleStamped(ring, m);
    var s := Run(ring, add);
    assert Init(ring).nodes[0].store == EMPTY_STORE && s.net == [] + Stamped(ring[0], AddPackets(ring, EMPTY_STORE, 0, TITLE, m));
  }

  lemma TitleStamped(ring: seq<Endpoint>, m: string)
    requires |ring| == 2
    ensures Stamped(ring[0], AddPackets(ring, EMPTY_STORE, 0, TITLE, m))
         == [KeywordAddFrom(ring, "a", m), KeywordAddFrom(ring, "b", m), KeywordAddFrom(ring, "b", m)]
  {
    TitlePackets(ring, m);
  }

  function KeywordAddFrom(ring: seq<Endpoint>, keyword: string, m: string): Packet
    requires |ring| == 2
  {
    Packet(ring[1], IndexMessage(ring[0], "", KeywordAdd(keyword, TITLE, m)))
  }

  lemma TitleDelivered(ring: seq<Endpoint>, m: string)
    requires Ring(ring) && |ring| == 2
    ensures var s := Run(ring, LossRun(ring, m));
            && s.net == [] && s.jobs == [] && TorrentResult(TITLE, m) in s.accepted
            && s.nodes[1].store == Record(EMPTY_STORE, "a", TITLE, m)
            && Entry(1, "b", TITLE) in s.lost
  {
    TitleAdded(ring, m);
    ThreeDelivered(ring, AddSteps(ring, Init(ring), 0, TITLE, m), m);
  }

  lemma ThreeDelivered(ring: seq<Endpoint>, steps: seq<Step>, m: string)
    requires |ring| == 2 && Run(ring, steps).nodes[1] == NodeState(EMPTY_STORE, {})
    requires Run(ring, steps).net == [KeywordAddFrom(ring, "a", m), KeywordAddFrom(ring, "b", m), KeywordAddFrom(ring, "b", m)]
    ensures var s, s' := Run(ring, steps), Run(ring, steps + [Deliver(0, 1, 0)] + [Deliver(0, 1, 0)] + [Deliver(0, 1, 0)]);
            && s'.net == [] && s'.jobs == s.jobs && s'.accepted == s.accepted
            && s'.nodes[1].store == Record(EMPTY_STORE, "a", TITLE, m)
            && Entry(1, "b", TITLE) in s'.lost
  {
    FirstTaken(ring, steps, m);
    BothRefused(ring, steps + [Deliver(0, 1, 0)], m);
  }

  lemma FirstTaken(ring: seq<Endpoint>, steps: seq<Step>, m: string)
    requires |ring| == 2 && Run(ring, steps).nodes[1] == NodeState(EMPTY_STORE, {})
    requires Run(ring, steps).net == [KeywordAddFrom(ring, "a", m), KeywordAddFrom(ring, "b", m), KeywordAddFrom(ring, "b", m)]
    ensures var s, s', b := Run(ring, steps), Run(ring, steps + [Deliver(0, 1, 0)]), KeywordAddFrom(ring, "b", m);
            && s'.net == [b, b] && s'.jobs == s.jobs && s'.accepted == s.accepted
            && s'.nodes[1].store == Record(EMPTY_STORE, "a", TITLE, m) && s'.nodes[1].gate == {SourceKey(ring[0])}
  {
    var a, b := KeywordAddFrom(ring, "a", m), KeywordAddFrom(ring, "b", m);
    assert [a, b, b] == [a] + [b, b];
    KeywordAddArrives(ring, steps, 1, a.message, [b, b]);
  }

  lemma BothRefused(ring: seq<Endpoint>, steps: seq<Step>, m: string)
    requires |ring| == 2
    requires var s, b := Run(ring, steps), KeywordAddFrom(ring, "b", m);
             s.net == [b, b] && s.nodes[1].gate == {SourceKey(ring[0])}
    ensures var s, s' := Run(ring, steps), Run(ring, steps + [Deliver(0, 1, 0)] + [Deliver(0, 1, 0)]);
            && s'.net == [] && s'.jobs == s.jobs && s'.accepted == s.accepted && s'.nodes[1] == s.nodes[1]
            && Entry(1, "b", TITLE) in s'.lost
  {
    var b := KeywordAddFrom(ring, "b", m);
    assert [b, b] == [b] + [b] && [b] == [b] + [];
    SecondRefused(ring, steps, m, [b]);
    SecondRefused(ring, steps + [Deliver(0, 1, 0)], m, []);
  }

  lemma SecondRefused(ring: seq<Endpoint>, steps: seq<Step>, m: string, rest: seq<Packet>)
    requires |ring| == 2
    requires var s := Run(ring, steps);
             s.net == [KeywordAddFrom(ring, "b", m)] + rest && s.nodes[1].gate == {SourceKey(ring[0])}
    ensures var s, s' := Run(ring, steps), Run(ring, steps + [Deliver(0, 1, 0)]);
            && s'.net == rest && s'.jobs == s.jobs && s'.accepted == s.accepted && s'.nodes[1] == s.nodes[1]
            && s'.lost == s.lost + {Entry(1, "b", TITLE)}
  {
    KeywordAddArrives(ring, steps, 1, KeywordAddFrom(ring, "b", m).message, rest);
  }

  /**
   * On every ring of two nodes this run, without a single message lost by the network, ends with
   * nothing under way and node 1 unable to find the title under "b", a keyword it is responsible for.
   */
  lemma SecondKeywordRefused(ring: seq<Endpoint>, m: string)
    requires Ring(ring) && |ring| == 2
    ensures var s := Run(ring, LossRun(ring, m));
            && s.net == [] && s.jobs == []
            && Accepted(s, TITLE) && "b" in Keywords(TITLE) && Responsible(1, "b", 2)
            && Finds(s.nodes[1].store, "a", TITLE)
            && !Finds(s.nodes[1].store, "b", TITLE) && Entry(1, "b", TITLE) in s.lost
  {
    TitleDelivered(ring, m);
    TitlePlacement();
    TitleKeywords();
    assert TorrentResult(TITLE, m) in Run(ring, LossRun(ring, m)).accepted;
    FindsOnlyFirst(m);
  }

  lemma FindsOnlyFirst(m: string)
    ensures var st := Record(EMPTY_STORE, "a", TITLE, m); Finds(st, "a", TITLE) && !Finds(st, "b", TITLE)
  {
    var st := Record(EMPTY_STORE, "a", TITLE, m);
    FindsIffLists(st, "a", TITLE);
    FindsIffLists(st, "b", TITLE);
  }
}
