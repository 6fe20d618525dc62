/**
 * Gossip flooding over N nodes: a node that receives an id it does not have in its cache
 * remembers it and queues the message for at most two peers.
 */
module Flood {
  import opened Common
  import opened MessageCache
  import opened Spread

  const FAN_OUT: nat := 2

  /** A queued copy of a message: where to, and which message. */
  datatype Copy = Copy(target: nat, id: string)

  /** `caches` are the nodes' cache lists, `net` the copies queued or on the wire. */
  datatype State = State(caches: seq<seq<string>>, net: seq<Copy>)

  /**
   * The peers of a step are whatever `selectRandomPeers` picked. The originator of a message does
   * not put its id into its own cache.
   */
  datatype Step =
    | Originate(id: string, peers: seq<nat>)
    | Deliver(k: nat, peers: seq<nat>)
    | Lose(k: nat)

  function Init(n: nat): State {
    State(seq(n, i => []), [])
  }

  predicate Enabled(s: State, step: Step) {
    match step
    case Originate(_, peers) => |peers| <= FAN_OUT
    case Deliver(k, peers) => k < |s.net| && s.net[k].target < |s.caches| && |peers| <= FAN_OUT
    case Lose(k) => k < |s.net|
  }

  function CopiesTo(peers: seq<nat>, id: string): seq<Copy> {
    seq(|peers|, i requires 0 <= i < |peers| => Copy(peers[i], id))
  }

  /** The copies a step queues. */
  function Queues(s: State, step: Step): seq<Copy>
    requires Enabled(s, step)
  {
    match step
    case Originate(id, peers) => CopiesTo(peers, id)
    case Deliver(k, peers) =>
      if s.net[k].id in s.caches[s.net[k].target] then [] else CopiesTo(peers, s.net[k].id)
    case Lose(_) => []
  }

  function Next(s: State, step: Step): State {
    if !Enabled(s, step) then s
    else match step
      case Originate(_, _) => s.(net := s.net + Queues(s, step))
      case Deliver(k, _) =>
        var c := s.net[k];
        State(s.caches[c.target := Remember(s.caches[c.target], c.id)], Without(s.net, k) + Queues(s, step))
      case Lose(k) => s.(net := Without(s.net, k))
  }

  /** The step pushes the id out of some node's cache. */
  predicate Evicts(s: State, step: Step, id: string) {
    && step.Deliver? && Enabled(s, step)
    && id in s.caches[s.net[step.k].target]
    && id !in Remember(s.caches[s.net[step.k].target], s.net[step.k].id)
  }

  function Ids(net: seq<Copy>): seq<string> {
    seq(|net|, i requires 0 <= i < |net| => net[i].id)
  }

  function CacheSets(caches: seq<seq<string>>): seq<set<string>> {
    seq(|caches|, i requires 0 <= i < |caches| => Elements(caches[i]))
  }

  /** Work left: three units per node that lacks the id, one per copy in flight. */
  function Measure(s: State, id: string): nat {
    3 * Missing(CacheSets(s.caches), id) + Copies(Ids(s.net), id)
  }

  predicate TakesCopy(s: State, step: Step, id: string) {
    match step
    case Originate(_, _) => false
    case Deliver(k, _) => k < |s.net| && s.net[k].id == id
    case Lose(k) => k < |s.net| && s.net[k].id == id
  }

  lemma TakeOut(net: seq<Copy>, k: nat, id: string)
    requires k < |net|
    ensures Copies(Ids(net), id) == Copies(Ids(Without(net, k)), id) + if net[k].id == id then 1 else 0
  {
    CopiesWithout(Ids(net), k, id);
    assert Ids(Without(net, k)) == Without(Ids(net), k);
  }

  lemma CopiesToCount(peers: seq<nat>, x: string, id: string)
    ensures Copies(Ids(CopiesTo(peers, x)), id) <= if x == id then |peers| else 0
  {
    CopiesBounded(Ids(CopiesTo(peers, x)), id);
  }

  lemma RememberHas(order: seq<string>, id: string)
    ensures id in Remember(order, id)
    ensures forall x :: x in Remember(order, id) ==> x == id || x in order
  {
    assert (order + [id])[|order|] == id;
    assert |order| + 1 > MAX_CACHE_SIZE ==> (order + [id])[1..][|order| - 1] == id;
  }

  /** What a delivery does to the number of nodes lacking the id, and to the copies of it. */
  lemma DeliverCounts(s: State, k: nat, peers: seq<nat>, id: string)
    requires Enabled(s, Deliver(k, peers)) && !Evicts(s, Deliver(k, peers), id)
    ensures var s' := Next(s, Deliver(k, peers));
            var queued := Copies(Ids(Queues(s, Deliver(k, peers))), id);
            var isNew := s.net[k].id == id && id !in s.caches[s.net[k].target];
            && Missing(CacheSets(s'.caches), id) == Missing(CacheSets(s.caches), id) - (if isNew then 1 else 0)
            && Copies(Ids(s'.net), id) + (if s.net[k].id == id then 1 else 0) == Copies(Ids(s.net), id) + queued
            && queued <= (if isNew then 2 else 0)
  {
    var s', c := Next(s, Deliver(k, peers)), s.net[k];
    var after := Remember(s.caches[c.target], c.id);
    RememberHas(s.caches[c.target], c.id);
    assert CacheSets(s'.caches) == CacheSets(s.caches)[c.target := Elements(after)];
    MissingUpdate(CacheSets(s.caches), c.target, Elements(after), id);
    TakeOut(s.net, k, id);
    var queued := Queues(s, Deliver(k, peers));
    assert Ids(s'.net) == Ids(Without(s.net, k)) + Ids(queued);
    CopiesToCount(peers, c.id, id);
  }

  /**
   * Every delivery or loss of a copy decreases the measure as long as no cache evicts the id, an
   * origination raises it by at most two, and nothing else raises it.
   */
  lemma MeasureNext(s: State, step: Step, id: string)
    requires Enabled(s, step) && !Evicts(s, step, id)
    ensures TakesCopy(s, step, id) ==> Measure(Next(s, step), id) < Measure(s, id)
    ensures Measure(Next(s, step), id) <= Measure(s, id) + if step.Originate? && step.id == id then 2 else 0
  {
    match step
    case Originate(x, peers) =>
      assert Ids(Next(s, step).net) == Ids(s.net) + Ids(Queues(s, step));
      CopiesToCount(peers, x, id);
    case Deliver(k, peers) => DeliverCounts(s, k, peers, id);
    case Lose(k) => TakeOut(s.net, k, id);
  }

  // ----- Whole runs -----

  function Run(n: nat, steps: seq<Step>): State {
    if steps == [] then Init(n) else Next(Run(n, steps[..|steps| - 1]), steps[|steps| - 1])
  }

  predicate NoEviction(n: nat, steps: seq<Step>, id: string) {
    steps == [] ||
    (NoEviction(n, steps[..|steps| - 1], id) && !Evicts(Run(n, steps[..|steps| - 1]), steps[|steps| - 1], id))
  }

  /** Copies of the id queued during the run. */
  function Queued(n: nat, steps: seq<Step>, id: string): nat {
    if steps == [] then 0
    else
      var s, step := Run(n, steps[..|steps| - 1]), steps[|steps| - 1];
      Queued(n, steps[..|steps| - 1], id) + if Enabled(s, step) then Copies(Ids(Queues(s, step)), id) else 0
  }

  function Originations(n: nat, steps: seq<Step>, id: string): nat {
    if steps == [] then 0
    else Originations(n, steps[..|steps| - 1], id)
         + if steps[|steps| - 1].Originate? && steps[|steps| - 1].id == id then 1 else 0
  }

  /** Copies of the id delivered or lost during the run. */
  function Taken(n: nat, steps: seq<Step>, id: string): nat {
    if steps == [] then 0
    else
      var s, step := Run(n, steps[..|steps| - 1]), steps[|steps| - 1];
      Taken(n, steps[..|steps| - 1], id) + if Enabled(s, step) && TakesCopy(s, step, id) then 1 else 0
  }

  lemma RunSize(n: nat, steps: seq<Step>)
    ensures |Run(n, steps).caches| == n
  {
  }

  /**
   * Bounded flooding: with no eviction of the id, a message originated once is queued at most
   * 2*(n + 1) times over n nodes, and each queued copy is delivered or lost at most once.
   */
  lemma {:induction false} FloodBounded(n: nat, steps: seq<Step>, id: string)
    requires NoEviction(n, steps, id)
    ensures Queued(n, steps, id) + 2 * Missing(CacheSets(Run(n, steps).caches), id)
         <= 2 * (n + Originations(n, steps, id))
    ensures Queued(n, steps, id) == Taken(n, steps, id) + Copies(Ids(Run(n, steps).net), id)
  {
    RunSize(n, steps);
    if steps != [] {
      var before, step := steps[..|steps| - 1], steps[|steps| - 1];
      RunSize(n, before);
      FloodBounded(n, before, id);
      var s := Run(n, before);
      if Enabled(s, step) {
        match step
        case Originate(x, peers) =>
          assert Ids(Next(s, step).net) == Ids(s.net) + Ids(Queues(s, step));
          CopiesToCount(peers, x, id);
        case Deliver(k, peers) => DeliverCounts(s, k, peers, id);
        case Lose(k) => TakeOut(s.net, k, id);
      }
    }
  }

  // ----- Flooding when caches evict -----

  /** The step puts a copy's id into the cache of its target. */
  predicate Admits(s: State, step: Step) {
    step.Deliver? && Enabled(s, step) && s.net[step.k].id !in s.caches[s.net[step.k].target]
  }

  /** The ids each node admitted to its cache during the run, in order. */
  function Admissions(n: nat, steps: seq<Step>): (hs: seq<seq<string>>)
    ensures |hs| == n == |Run(n, steps).caches|
  {
    RunSize(n, steps);
    if steps == [] then seq(n, i => [])
    else
      var s, step, hs := Run(n, steps[..|steps| - 1]), steps[|steps| - 1], Admissions(n, steps[..|steps| - 1]);
      if Admits(s, step) then hs[s.net[step.k].target := hs[s.net[step.k].target] + [s.net[step.k].id]] else hs
  }

  function Occurrences(hs: seq<seq<string>>, id: string): nat {
    if hs == [] then 0 else Occurrences(hs[..|hs| - 1], id) + multiset(hs[|hs| - 1])[id]
  }

  lemma {:induction false} OccurrencesUpdate(hs: seq<seq<string>>, i: nat, x: string, id: string)
    requires i < |hs|
    ensures Occurrences(hs[i := hs[i] + [x]], id) == Occurrences(hs, id) + if x == id then 1 else 0
  {
    var hs', init := hs[i := hs[i] + [x]], hs[..|hs| - 1];
    if i == |hs| - 1 {
      assert hs'[..|hs| - 1] == init;
    } else {
      OccurrencesUpdate(init, i, x, id);
      assert hs'[..|hs| - 1] == init[i := init[i] + [x]];
    }
  }

  /** Each cache is the window of its node's admissions, which lie far apart. */
  lemma {:induction false} CachesAreWindows(n: nat, steps: seq<Step>, i: nat)
    requires i < n
    ensures FarApart(Admissions(n, steps)[i]) && Run(n, steps).caches[i] == Window(Admissions(n, steps)[i])
  {
    if steps != [] {
      var before, step := steps[..|steps| - 1], steps[|steps| - 1];
      CachesAreWindows(n, before, i);
      var s, h := Run(n, before), Admissions(n, before)[i];
      if step.Deliver? && Enabled(s, step) && s.net[step.k].target == i {
        RememberIsWindow(h, s.net[step.k].id);
        AdmitFarApart(h, s.net[step.k].id);
      }
    }
  }

  /** A step queues two copies for an origination or an admission, and otherwise none. */
  lemma QueuedByStep(s: State, step: Step, id: string)
    requires Enabled(s, step)
    ensures Copies(Ids(Queues(s, step)), id)
         <= if (step.Originate? && step.id == id) || (Admits(s, step) && s.net[step.k].id == id) then 2 else 0
  {
    match step
    case Originate(x, peers) => CopiesToCount(peers, x, id);
    case Deliver(k, peers) => CopiesToCount(peers, s.net[k].id, id);
    case Lose(_) =>
  }

  /**
   * Flooding with eviction: whatever the caches forget, a message is queued at most twice per
   * origination and per admission.
   */
  lemma {:induction false} FloodByAdmissions(n: nat, steps: seq<Step>, id: string)
    ensures Queued(n, steps, id) <= 2 * (Originations(n, steps, id) + Occurrences(Admissions(n, steps), id))
  {
    if steps != [] {
      var before, step := steps[..|steps| - 1], steps[|steps| - 1];
      var s := Run(n, before);
      FloodByAdmissions(n, before, id);
      if Admits(s, step) {
        OccurrencesUpdate(Admissions(n, before), s.net[step.k].target, s.net[step.k].id, id);
      }
      if Enabled(s, step) {
        QueuedByStep(s, step, id);
      }
    }
  }

  /** And a node admits it c times only if it admitted more than 1001*(c - 1) messages in all. */
  lemma ReadmissionsSpaced(n: nat, steps: seq<Step>, id: string, i: nat)
    requires i < n
    ensures var h := Admissions(n, steps)[i];
            multiset(h)[id] > 0 ==> 1001 * (multiset(h)[id] - 1) < |h|
  {
    CachesAreWindows(n, steps, i);
    CountSpaced(Admissions(n, steps)[i], id);
  }
}
