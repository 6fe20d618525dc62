/**
 * What the duplicate gate does to requests over whole runs: forwarding terminates, and replies to a
 * forwarding node are refused.
 */
module IndexRequests {
  import opened Common
  import opened RingHash
  import opened Tokeniser
  import opened IndexNode
  import opened IndexSystem
  import opened Spread

  /** This step empties the gate of the node it delivers to. */
  ghost predicate Clears(ring: seq<Endpoint>, s: System, step: Step)
    requires |s.nodes| == |ring|
  {
    && step.Deliver? && Enabled(ring, s, step)
    && |s.nodes[step.node].gate + {GateKey(s.net[step.k].message, step.now)}| > MAX_GATE_SIZE
  }

  /** A run within one cache generation: no gate is emptied. */
  ghost predicate OneGeneration(ring: seq<Endpoint>, steps: seq<Step>)
    decreases steps
  {
    steps == [] ||
    (OneGeneration(ring, steps[..|steps| - 1])
     && !Clears(ring, Run(ring, steps[..|steps| - 1]), steps[|steps| - 1]))
  }

  /** What a step does to the gates. */
  lemma GatesNext(ring: seq<Endpoint>, s: System, step: Step)
    requires |s.nodes| == |ring| && !Clears(ring, s, step)
    ensures forall i :: 0 <= i < |s.nodes| ==>
              (Next(ring, s, step).nodes[i].gate ==
                if Enabled(ring, s, step) && step.Deliver? && step.node == i
                then s.nodes[i].gate + {GateKey(s.net[step.k].message, step.now)}
                else s.nodes[i].gate)
  {
    if step.Deliver? && Enabled(ring, s, step) {
      GatesReceived(ring, s.(net := Without(s.net, step.k)), step.node, s.net[step.k].message, step.now);
    }
  }

  lemma GatesReceived(ring: seq<Endpoint>, s: System, i: nat, message: IndexMessage, now: nat)
    requires i < |s.nodes| == |ring|
    ensures |Received(ring, s, i, message, now).nodes| == |s.nodes|
    ensures forall j :: 0 <= j < |s.nodes| ==>
              Received(ring, s, i, message, now).nodes[j].gate
              == if j == i then Gated(s.nodes[i].gate, GateKey(message, now)) else s.nodes[j].gate
  {
  }

  /** A run, one more step. */
  lemma RunSnoc(ring: seq<Endpoint>, steps: seq<Step>, step: Step)
    ensures Run(ring, steps + [step]) == Next(ring, Run(ring, steps), step)
    ensures OneGeneration(ring, steps + [step]) ==> OneGeneration(ring, steps) && !Clears(ring, Run(ring, steps), step)
  {
    assert (steps + [step])[..|steps|] == steps;
  }

  /** Within a generation gates only grow. */
  lemma {:induction false} GateRemembers(ring: seq<Endpoint>, steps: seq<Step>, more: seq<Step>, i: nat, key: string)
    requires OneGeneration(ring, steps + more) && i < |ring|
    requires key in Run(ring, steps).nodes[i].gate
    ensures key in Run(ring, steps + more).nodes[i].gate
    decreases more
  {
    if more == [] {
      assert steps + more == steps;
    } else {
      var init, last := more[..|more| - 1], more[|more| - 1];
      assert steps + more == (steps + init) + [last];
      RunSnoc(ring, steps + init, last);
      GateRemembers(ring, steps, init, i, key);
      GatesNext(ring, Run(ring, steps + init), last);
    }
  }

  lemma {:induction false} OneGenerationPrefix(ring: seq<Endpoint>, steps: seq<Step>, more: seq<Step>)
    requires OneGeneration(ring, steps + more)
    ensures OneGeneration(ring, steps)
    decreases more
  {
    if more == [] {
      assert steps + more == steps;
    } else {
      var init, last := more[..|more| - 1], more[|more| - 1];
      assert steps + more == (steps + init) + [last];
      RunSnoc(ring, steps + init, last);
      OneGenerationPrefix(ring, steps, init);
    }
  }

  lemma GateHasDelivered(ring: seq<Endpoint>, steps: seq<Step>, k: nat, i: nat, now: nat)
    requires OneGeneration(ring, steps + [Deliver(k, i, now)])
    requires Enabled(ring, Run(ring, steps), Deliver(k, i, now))
    ensures GateKey(Run(ring, steps).net[k].message, now) in Run(ring, steps + [Deliver(k, i, now)]).nodes[i].gate
  {
    RunSnoc(ring, steps, Deliver(k, i, now));
    GatesNext(ring, Run(ring, steps), Deliver(k, i, now));
  }

  /**
   * At most once: within a generation, after a delivery to a node, a later delivery to it with the
   * same gate key changes no map and sends nothing.
   */
  lemma SecondDeliveryRefused(ring: seq<Endpoint>, before: seq<Step>, between: seq<Step>, i: nat,
                              k: nat, now: nat, k': nat, now': nat)
    requires OneGeneration(ring, before + [Deliver(k, i, now)] + between)
    requires var s, t := Run(ring, before), Run(ring, before + [Deliver(k, i, now)] + between);
             && Enabled(ring, s, Deliver(k, i, now)) && Enabled(ring, t, Deliver(k', i, now'))
             && GateKey(s.net[k].message, now) == GateKey(t.net[k'].message, now')
    ensures var t := Run(ring, before + [Deliver(k, i, now)] + between);
            var t' := Next(ring, t, Deliver(k', i, now'));
            && |t'.nodes| == |t.nodes| && t'.net == Without(t.net, k') && t'.jobs == t.jobs
            && forall j :: 0 <= j < |ring| ==> t'.nodes[j].store == t.nodes[j].store
  {
    var steps := before + [Deliver(k, i, now)];
    OneGenerationPrefix(ring, steps, between);
    GateHasDelivered(ring, before, k, i, now);
    GateRemembers(ring, steps, between, i, GateKey(Run(ring, before).net[k].message, now));
    RefusedEffect(ring, Run(ring, steps + between), k', i, now');
  }

  lemma RefusedEffect(ring: seq<Endpoint>, s: System, k: nat, i: nat, now: nat)
    requires |s.nodes| == |ring| && Enabled(ring, s, Deliver(k, i, now))
    requires GateKey(s.net[k].message, now) in s.nodes[i].gate
    ensures var s' := Next(ring, s, Deliver(k, i, now));
            && |s'.nodes| == |s.nodes| && s'.net == Without(s.net, k) && s'.jobs == s.jobs
            && forall j :: 0 <= j < |ring| ==> s'.nodes[j].store == s.nodes[j].store
  {
  }

  // ----- Forwarding terminates -----

  function Ids(net: seq<Packet>): seq<string> {
    seq(|net|, i requires 0 <= i < |net| => net[i].message.requestId)
  }

  function Gates(nodes: seq<NodeState>): seq<set<string>> {
    seq(|nodes|, i requires 0 <= i < |nodes| => nodes[i].gate)
  }

  /** Work left for a request: four units per node that has not seen it, one per copy in flight. */
  function Measure(s: System, id: string): nat {
    4 * Missing(Gates(s.nodes), id) + Copies(Ids(s.net), id)
  }

  /** This step takes a copy of the request out of the network. */
  predicate Removes(s: System, step: Step, id: string) {
    match step
    case Deliver(k, _, _) => k < |s.net| && s.net[k].message.requestId == id
    case Drop(k, _) => k < |s.net| && s.net[k].message.requestId == id
    case Consume(k) => k < |s.net| && s.net[k].message.requestId == id
    case _ => false
  }

  /** This step puts a new copy of the request into the network from outside the protocol. */
  predicate Injects(s: System, step: Step, id: string) {
    match step
    case ClientSend(_, _, r, _) => r == id
    case Duplicate(k) => k < |s.net| && s.net[k].message.requestId == id
    case _ => false
  }

  /** What one delivery sends on: at most three copies, and only for the same request. */
  lemma DispatchBounded(ring: seq<Endpoint>, st: Store, i: nat, message: IndexMessage, id: string)
    requires i < |ring| && id != "" && !message.body.AddTorrent?
    ensures Copies(Ids(Stamped(ring[i], DispatchPackets(ring, st, i, message))), id)
         <= if message.requestId == id then 3 else 0
  {
    var ps := DispatchPackets(ring, st, i, message);
    var out := Stamped(ring[i], ps);
    if message.body.WantTorrent? {
      WantBounded(ring, st, i, message);
      CopiesBounded(Ids(out), id);
    } else {
      assert Ids(out) == [];
    }
  }

  lemma WantBounded(ring: seq<Endpoint>, st: Store, i: nat, message: IndexMessage)
    requires i < |ring| && message.body.WantTorrent?
    ensures var ids := Ids(Stamped(ring[i], WantPackets(ring, st, i, message)));
            |ids| <= 3 && forall x :: x in ids ==> x == message.requestId
  {
    var ps := WantPackets(ring, st, i, message);
    WantPacketBodies(ring, st, i, message);
    if !Responsible(i, message.body.keyword, |ring|) {
      ForwardsShape(ring, i, message, NUM_REPLICATIONS + 1);
    }
    forall x: nat | x < |ps|
      ensures Ids(Stamped(ring[i], ps))[x] == message.requestId
    {
      assert ps[x] in ps;
    }
  }

  /**
   * Within a generation every delivery or loss of a copy of a request decreases the measure, a
   * copy from outside raises it by one, and no other step raises it.
   */
  lemma MeasureNext(ring: seq<Endpoint>, s: System, step: Step, id: string)
    requires |s.nodes| == |ring| && id != ""
    requires Enabled(ring, s, step) && !Clears(ring, s, step)
    ensures Removes(s, step, id) ==> Measure(Next(ring, s, step), id) < Measure(s, id)
    ensures Injects(s, step, id) ==> Measure(Next(ring, s, step), id) == Measure(s, id) + 1
    ensures !Injects(s, step, id) ==> Measure(Next(ring, s, step), id) <= Measure(s, id)
  {
    var s' := Next(ring, s, step);
    GatesNext(ring, s, step);
    if !step.Deliver? {
      assert Gates(s'.nodes) == Gates(s.nodes);
    }
    match step
    case Deliver(k, i, now) => MeasureDeliver(ring, s, k, i, now, id);
    case ClientSend(c, i, r, body) => assert Ids(s'.net) == Ids(s.net) + [r];
    case Duplicate(k) => assert Ids(s'.net) == Ids(s.net) + [s.net[k].message.requestId];
    case RunJob(k) => JobIds(ring, s, k);
    case LocalAdd(_, _, _) =>
    case Drop(k, _) => TakeOut(s.net, k, id);
    case Consume(k) => TakeOut(s.net, k, id);
  }

  /** A job sends at most one message, and that carries no request id. */
  lemma JobIds(ring: seq<Endpoint>, s: System, k: nat)
    requires |ring| == |s.nodes| && k < |s.jobs| && JobOnRing(s, s.jobs[k])
    ensures var net' := RunOneJob(ring, s, k).net;
            Ids(net') == Ids(s.net) || Ids(net') == Ids(s.net) + [""]
  {
  }

  lemma TakeOut(net: seq<Packet>, k: nat, id: string)
    requires k < |net|
    ensures Copies(Ids(net), id) == Copies(Ids(Without(net, k)), id) + if net[k].message.requestId == id then 1 else 0
  {
    CopiesWithout(Ids(net), k, id);
    assert Ids(Without(net, k)) == Without(Ids(net), k);
  }

  lemma MeasureDeliver(ring: seq<Endpoint>, s: System, k: nat, i: nat, now: nat, id: string)
    requires |s.nodes| == |ring| && id != ""
    requires Enabled(ring, s, Deliver(k, i, now)) && !Clears(ring, s, Deliver(k, i, now))
    ensures s.net[k].message.requestId == id ==> Measure(Next(ring, s, Deliver(k, i, now)), id) < Measure(s, id)
    ensures Measure(Next(ring, s, Deliver(k, i, now)), id) <= Measure(s, id)
  {
    GatesDelivered(ring, s, k, i, now, id);
    CopiesDelivered(ring, s, k, i, now, id);
  }

  lemma GatesDelivered(ring: seq<Endpoint>, s: System, k: nat, i: nat, now: nat, id: string)
    requires |s.nodes| == |ring| && id != ""
    requires Enabled(ring, s, Deliver(k, i, now)) && !Clears(ring, s, Deliver(k, i, now))
    ensures var key := GateKey(s.net[k].message, now);
            Missing(Gates(Next(ring, s, Deliver(k, i, now)).nodes), id)
            == Missing(Gates(s.nodes), id) - if key == id && id !in s.nodes[i].gate then 1 else 0
  {
    var s' := Next(ring, s, Deliver(k, i, now));
    var gate' := s.nodes[i].gate + {GateKey(s.net[k].message, now)};
    GatesNext(ring, s, Deliver(k, i, now));
    assert Gates(s'.nodes) == Gates(s.nodes)[i := gate'];
    MissingUpdate(Gates(s.nodes), i, gate', id);
  }

  lemma CopiesDelivered(ring: seq<Endpoint>, s: System, k: nat, i: nat, now: nat, id: string)
    requires |s.nodes| == |ring| && id != ""
    requires Enabled(ring, s, Deliver(k, i, now))
    ensures var message := s.net[k].message;
            Copies(Ids(Next(ring, s, Deliver(k, i, now)).net), id) + (if message.requestId == id then 1 else 0)
            <= Copies(Ids(s.net), id) + if message.requestId == id && id !in s.nodes[i].gate then 3 else 0
  {
    var message, st := s.net[k].message, s.nodes[i].store;
    var net' := Next(ring, s, Deliver(k, i, now)).net;
    TakeOut(s.net, k, id);
    if GateKey(message, now) !in s.nodes[i].gate && !message.body.AddTorrent? {
      var out := Stamped(ring[i], DispatchPackets(ring, st, i, message));
      DispatchBounded(ring, st, i, message, id);
      assert net' == Without(s.net, k) + out;
      assert Ids(net') == Ids(Without(s.net, k)) + Ids(out);
    } else {
      assert net' == Without(s.net, k);
    }
  }

  /** How many steps of a run took a copy of the request out of the network. */
  ghost function Removed(ring: seq<Endpoint>, steps: seq<Step>, id: string): nat
    decreases steps
  {
    if steps == [] then 0
    else
      var before, step := steps[..|steps| - 1], steps[|steps| - 1];
      Removed(ring, before, id)
      + if Enabled(ring, Run(ring, before), step) && Removes(Run(ring, before), step, id) then 1 else 0
  }

  /** How many copies clients sent or the network duplicated. */
  ghost function Injected(ring: seq<Endpoint>, steps: seq<Step>, id: string): nat
    decreases steps
  {
    if steps == [] then 0
    else
      var before, step := steps[..|steps| - 1], steps[|steps| - 1];
      Injected(ring, before, id)
      + if Enabled(ring, Run(ring, before), step) && Injects(Run(ring, before), step, id) then 1 else 0
  }

  /** How many steps of a run emptied a gate. */
  ghost function Emptied(ring: seq<Endpoint>, steps: seq<Step>): nat
    decreases steps
  {
    if steps == [] then 0
    else
      var before, step := steps[..|steps| - 1], steps[|steps| - 1];
      Emptied(ring, before) + if Clears(ring, Run(ring, before), step) then 1 else 0
  }

  lemma {:induction false} EmptiedNone(ring: seq<Endpoint>, steps: seq<Step>)
    ensures Emptied(ring, steps) == 0 <==> OneGeneration(ring, steps)
    decreases steps
  {
    if steps != [] {
      EmptiedNone(ring, steps[..|steps| - 1]);
    }
  }

  /** A delivery that empties a gate makes at most one node forget the request, which costs four units. */
  lemma MeasureCleared(ring: seq<Endpoint>, s: System, step: Step, id: string)
    requires |s.nodes| == |ring| && id != "" && Clears(ring, s, step)
    ensures Measure(Next(ring, s, step), id) + (if Removes(s, step, id) then 1 else 0) <= Measure(s, id) + 4
  {
    var k, i, now := step.k, step.node, step.now;
    var s' := Next(ring, s, step);
    GatesReceived(ring, s.(net := Without(s.net, k)), i, s.net[k].message, now);
    assert s'.nodes[i].gate == {};
    assert Gates(s'.nodes) == Gates(s.nodes)[i := {}];
    MissingUpdate(Gates(s.nodes), i, {}, id);
    CopiesDelivered(ring, s, k, i, now, id);
  }

  /**
   * Want propagation terminates: a request causes no more deliveries and losses than four per node,
   * one per copy sent by clients or duplicated by the network, and four per emptying of a gate. In one
   * generation a request sent once thus causes at most 4n + 1, whatever the order of events.
   */
  lemma {:induction false} WantTerminates(ring: seq<Endpoint>, steps: seq<Step>, id: string)
    requires id != ""
    ensures Removed(ring, steps, id) + Measure(Run(ring, steps), id)
         <= 4 * |ring| + Injected(ring, steps, id) + 4 * Emptied(ring, steps)
    ensures Emptied(ring, steps) == 0 <==> OneGeneration(ring, steps)
    decreases steps
  {
    EmptiedNone(ring, steps);
    if steps != [] {
      var before, step := steps[..|steps| - 1], steps[|steps| - 1];
      WantTerminates(ring, before, id);
      if Clears(ring, Run(ring, before), step) {
        MeasureCleared(ring, Run(ring, before), step, id);
      } else if Enabled(ring, Run(ring, before), step) {
        MeasureNext(ring, Run(ring, before), step, id);
      }
    }
  }

  // ----- Who gets an answer -----

  /** A Want straight from a client was asked, and a Give to a client answers an ask. */
  ghost predicate Traceable(ring: seq<Endpoint>, asks: set<Ask>, p: Packet)
    requires |ring| > 0
  {
    match p.message.body
    case WantTorrent(k) =>
      p.message.source !in ring ==>
        exists i :: 0 <= i < |ring| && ring[i] == p.target && Ask(p.message.requestId, p.message.source, i, k) in asks
    case GiveTorrent(_, results) =>
      && p.message.source in ring
      && (p.target !in ring ==> Answered(ring, asks, p.message, p.target, results))
    case _ => true
  }

  /** The reply comes from a responsible node that the client asked, and its titles have the keyword. */
  ghost predicate Answered(ring: seq<Endpoint>, asks: set<Ask>, m: IndexMessage, client: Endpoint, results: seq<TorrentResult>)
    requires |ring| > 0
  {
    exists i, k :: && 0 <= i < |ring| && ring[i] == m.source
                   && Ask(m.requestId, client, i, k) in asks && Responsible(i, k, |ring|)
                   && forall r :: r in results ==> k in Keywords(r.title)
  }

  lemma TraceableMonotone(ring: seq<Endpoint>, asks: set<Ask>, asks': set<Ask>, p: Packet)
    requires |ring| > 0 && asks <= asks' && Traceable(ring, asks, p)
    ensures Traceable(ring, asks', p)
  {
    match p.message.body
    case WantTorrent(k) =>
      if p.message.source !in ring {
        var i :| 0 <= i < |ring| && ring[i] == p.target && Ask(p.message.requestId, p.message.source, i, k) in asks;
        assert Ask(p.message.requestId, p.message.source, i, k) in asks';
      }
    case GiveTorrent(_, results) =>
      if p.target !in ring {
        var i, k :| && 0 <= i < |ring| && ring[i] == p.message.source
                    && Ask(p.message.requestId, p.target, i, k) in asks && Responsible(i, k, |ring|)
                    && forall r :: r in results ==> k in Keywords(r.title);
        assert Ask(p.message.requestId, p.target, i, k) in asks';
      }
    case _ =>
  }

  lemma TraceableDispatch(ring: seq<Endpoint>, s: System, i: nat, p: Packet)
    requires Ring(ring) && Inv(ring, s) && i < |ring| && p.target == ring[i]
    requires Traceable(ring, s.asks, p) && !p.message.body.AddTorrent?
    ensures forall q :: q in Stamped(ring[i], DispatchPackets(ring, s.nodes[i].store, i, p.message)) ==>
              Traceable(ring, s.asks, q)
  {
    var message, st := p.message, s.nodes[i].store;
    var ps := DispatchPackets(ring, st, i, message);
    var out := Stamped(ring[i], ps);
    forall q | q in out
      ensures Traceable(ring, s.asks, q)
    {
      var x :| 0 <= x < |out| && out[x] == q;
      assert ps[x] in ps;
      WantPacketBodies(ring, st, i, message);
      if Responsible(i, message.body.keyword, |ring|) {
        SearchResultsAccepted(ring, s, i, message.body.keyword);
      }
    }
  }

  ghost predicate NetTraceable(ring: seq<Endpoint>, s: System)
    requires |ring| > 0
  {
    forall p :: p in s.net ==> Traceable(ring, s.asks, p)
  }

  lemma TraceableNext(ring: seq<Endpoint>, s: System, step: Step)
    requires Ring(ring) && Inv(ring, s) && NetTraceable(ring, s)
    ensures NetTraceable(ring, Next(ring, s, step))
  {
    if Enabled(ring, s, step) {
      match step
      case Deliver(k, i, now) =>
        WithoutElements(s.net, k);
        if !s.net[k].message.body.AddTorrent? {
          TraceableDispatch(ring, s, i, s.net[k]);
        }
      case ClientSend(c, i, r, body) =>
        forall p | p in s.net
          ensures Traceable(ring, Next(ring, s, step).asks, p)
        {
          TraceableMonotone(ring, s.asks, Next(ring, s, step).asks, p);
        }
      case Drop(k, _) => WithoutElements(s.net, k);
      case Consume(k) => WithoutElements(s.net, k);
      case _ =>
    }
  }

  lemma {:induction false} AllTraceable(ring: seq<Endpoint>, steps: seq<Step>)
    requires Ring(ring)
    ensures NetTraceable(ring, Run(ring, steps))
    decreases steps
  {
    if steps != [] {
      Invariant(ring, steps[..|steps| - 1]);
      AllTraceable(ring, steps[..|steps| - 1]);
      TraceableNext(ring, Run(ring, steps[..|steps| - 1]), steps[|steps| - 1]);
    }
  }

  /**
   * A search is answered only by the node the client asked, and only if that node is responsible:
   * a client that asked a node that had to forward never gets a reply, in any run.
   */
  lemma ForwardedSearchUnanswered(ring: seq<Endpoint>, steps: seq<Step>, client: Endpoint, id: string, p: Packet)
    requires Ring(ring) && client !in ring
    requires forall a :: a in Run(ring, steps).asks && a.requestId == id && a.client == client && a.node < |ring| ==>
               !Responsible(a.node, a.keyword, |ring|)
    requires p in Run(ring, steps).net && p.target == client && p.message.requestId == id
    ensures !p.message.body.GiveTorrent?
  {
    AllTraceable(ring, steps);
    assert Traceable(ring, Run(ring, steps).asks, p);
  }

  /**
   * Delivering a client's search for the first time sends the client a reply iff the node is
   * responsible for the keyword, and the reply carries the node's search results.
   */
  lemma FirstDeliveryAnswers(ring: seq<Endpoint>, steps: seq<Step>, k: nat, i: nat, now: nat)
    requires var s := Run(ring, steps);
             && Enabled(ring, s, Deliver(k, i, now))
             && s.net[k].message.body.WantTorrent? && s.net[k].message.source !in ring
             && GateKey(s.net[k].message, now) !in s.nodes[i].gate
    ensures var s := Run(ring, steps);
            var m := s.net[k].message;
            var sent := Next(ring, s, Deliver(k, i, now)).net[|s.net| - 1..];
            && (Responsible(i, m.body.keyword, |ring|) ==>
                  sent == [Packet(m.source, IndexMessage(ring[i], m.requestId,
                                  GiveTorrent("", Search(s.nodes[i].store, m.body.keyword))))])
            && (!Responsible(i, m.body.keyword, |ring|) ==>
                  && |sent| <= 3
                  && forall p :: p in sent ==> p.target in ring && p.message == m.(source := ring[i]))
  {
    var s := Run(ring, steps);
    var m, st := s.net[k].message, s.nodes[i].store;
    var ps := DispatchPackets(ring, st, i, m);
    var out := Stamped(ring[i], ps);
    assert Next(ring, s, Deliver(k, i, now)).net == Without(s.net, k) + out;
    assert Next(ring, s, Deliver(k, i, now)).net[|s.net| - 1..] == out;
    if !Responsible(i, m.body.keyword, |ring|) {
      ForwardsShape(ring, i, m, NUM_REPLICATIONS + 1);
      forall p | p in out
        ensures p.target in ring && p.message == m.(source := ring[i])
      {
        var x :| 0 <= x < |out| && out[x] == p;
        assert ps[x] in ps;
      }
    }
  }

  /** A request message sent by a node, or a reply on its way to a node, has been cached there. */
  ghost predicate SeenBySender(ring: seq<Endpoint>, nodes: seq<NodeState>, p: Packet)
    requires |ring| == |nodes|
  {
    p.message.requestId != "" ==>
      forall j :: 0 <= j < |ring| ==>
        && (ring[j] == p.message.source ==> p.message.requestId in nodes[j].gate)
        && (p.message.body.GiveTorrent? && ring[j] == p.target ==> p.message.requestId in nodes[j].gate)
  }

  lemma SeenDispatch(ring: seq<Endpoint>, s: System, nodes': seq<NodeState>, i: nat, message: IndexMessage)
    requires Ring(ring) && |s.nodes| == |ring| == |nodes'| && i < |ring|
    requires SeenBySender(ring, s.nodes, Packet(ring[i], message)) && !message.body.AddTorrent?
    requires forall j :: 0 <= j < |ring| ==> s.nodes[j].gate <= nodes'[j].gate
    requires message.requestId != "" ==> message.requestId in nodes'[i].gate
    ensures forall q :: q in Stamped(ring[i], DispatchPackets(ring, s.nodes[i].store, i, message)) ==>
              SeenBySender(ring, nodes', q)
  {
    var st := s.nodes[i].store;
    var ps := DispatchPackets(ring, st, i, message);
    var out := Stamped(ring[i], ps);
    forall q | q in out
      ensures SeenBySender(ring, nodes', q)
    {
      var x :| 0 <= x < |out| && out[x] == q;
      assert ps[x] in ps;
      WantPacketBodies(ring, st, i, message);
    }
  }

  lemma {:induction false} AllSeenBySender(ring: seq<Endpoint>, steps: seq<Step>)
    requires Ring(ring) && OneGeneration(ring, steps)
    ensures forall p :: p in Run(ring, steps).net ==> SeenBySender(ring, Run(ring, steps).nodes, p)
    decreases steps
  {
    if steps != [] {
      var before, step := steps[..|steps| - 1], steps[|steps| - 1];
      AllSeenBySender(ring, before);
      var s, s' := Run(ring, before), Run(ring, steps);
      GatesNext(ring, s, step);
      forall p | p in s.net
        ensures SeenBySender(ring, s'.nodes, p)
      {
        assert SeenBySender(ring, s.nodes, p);
      }
      if Enabled(ring, s, step) {
        match step
        case Deliver(k, i, now) =>
          WithoutElements(s.net, k);
          if !s.net[k].message.body.AddTorrent? {
            assert s.net[k] == Packet(ring[i], s.net[k].message);
            SeenDispatch(ring, s, s'.nodes, i, s.net[k].message);
          }
        case Drop(k, _) => WithoutElements(s.net, k);
        case Consume(k) => WithoutElements(s.net, k);
        case _ =>
      }
    }
  }

  /**
   * Within a generation a reply to a forwarding node is always refused by that node's gate, since
   * it carries the request id the node cached before forwarding: nothing is stored or sent.
   */
  lemma RepliesToForwardersRefused(ring: seq<Endpoint>, steps: seq<Step>, k: nat, i: nat, now: nat)
    requires Ring(ring) && OneGeneration(ring, steps)
    requires var s := Run(ring, steps);
             && Enabled(ring, s, Deliver(k, i, now))
             && s.net[k].message.body.GiveTorrent? && s.net[k].message.requestId != ""
    ensures var s := Run(ring, steps);
            var s' := Next(ring, s, Deliver(k, i, now));
            && s'.net == Without(s.net, k)
            && forall j :: 0 <= j < |ring| ==> s'.nodes[j].store == s.nodes[j].store
  {
    var s := Run(ring, steps);
    AllSeenBySender(ring, steps);
    assert SeenBySender(ring, s.nodes, s.net[k]);
    RefusedEffect(ring, s, k, i, now);
  }
}
