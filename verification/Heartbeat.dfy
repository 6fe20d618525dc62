/**
 * The heartbeat failure detector. Bootstrap nodes and index nodes share it; they differ in whether
 * a heartbeat from an unknown node puts that node on the list. Times are nanoseconds.
 */
module Heartbeat {
  import opened Common

  const NODE_TIMEOUT: int := 45_000_000_000

  /** Which override of `processHeartbeatResponse` is in force. */
  datatype Kind = BootstrapNodes | IndexNodes

  datatype Tracker = Tracker(nodes: seq<Endpoint>, last: map<Endpoint, int>)

  /** Heard from once, but not for the timeout period. */
  predicate Stale(last: map<Endpoint, int>, now: int, x: Endpoint) {
    x in last && now - last[x] >= NODE_TIMEOUT
  }

  /** The list in its order, stale nodes left out. */
  function Kept(nodes: seq<Endpoint>, last: map<Endpoint, int>, now: int): (kept: seq<Endpoint>)
    ensures forall x :: x in kept <==> x in nodes && !Stale(last, now, x)
  {
    if nodes == [] then []
    else
      var init, x := nodes[..|nodes| - 1], nodes[|nodes| - 1];
      assert nodes == init + [x];
      if Stale(last, now, x) then Kept(init, last, now) else Kept(init, last, now) + [x]
  }

  /** The stale occurrences in list order: `failed_nodes`. */
  function Failed(nodes: seq<Endpoint>, last: map<Endpoint, int>, now: int): seq<Endpoint> {
    if nodes == [] then []
    else
      var init, x := nodes[..|nodes| - 1], nodes[|nodes| - 1];
      if Stale(last, now, x) then Failed(init, last, now) + [x] else Failed(init, last, now)
  }

  /** `std::find` and `erase`. */
  function EraseFirst(nodes: seq<Endpoint>, x: Endpoint): seq<Endpoint> {
    if nodes == [] then []
    else if nodes[0] == x then nodes[1..]
    else [nodes[0]] + EraseFirst(nodes[1..], x)
  }

  function EraseEach(nodes: seq<Endpoint>, failed: seq<Endpoint>): seq<Endpoint> {
    if failed == [] then nodes
    else EraseFirst(EraseEach(nodes, failed[..|failed| - 1]), failed[|failed| - 1])
  }

  lemma {:induction false} EraseAfterPrefix(pre: seq<Endpoint>, x: Endpoint, rest: seq<Endpoint>)
    requires x !in pre
    ensures EraseFirst(pre + [x] + rest, x) == pre + rest
  {
    if pre == [] {
      assert ([x] + rest)[1..] == rest;
      assert pre + [x] + rest == [x] + rest;
    } else {
      assert (pre + [x] + rest)[1..] == pre[1..] + [x] + rest;
      EraseAfterPrefix(pre[1..], x, rest);
    }
  }

  /** Erasing the stale nodes of a prefix filters the prefix and leaves the rest alone. */
  lemma {:induction false} EraseFailedOfPrefix(pre: seq<Endpoint>, rest: seq<Endpoint>, last: map<Endpoint, int>, now: int)
    ensures EraseEach(pre + rest, Failed(pre, last, now)) == Kept(pre, last, now) + rest
    decreases pre
  {
    if pre == [] {
      assert pre + rest == Kept(pre, last, now) + rest;
    } else {
      var init, x := pre[..|pre| - 1], pre[|pre| - 1];
      EraseFailedOfPrefix(init, [x] + rest, last, now);
      assert pre + rest == init + ([x] + rest);
      assert Kept(init, last, now) + ([x] + rest) == Kept(init, last, now) + [x] + rest;
      if Stale(last, now, x) {
        EraseAfterPrefix(Kept(init, last, now), x, rest);
      }
    }
  }

  /**
   * Collecting the stale nodes and then erasing the first occurrence of each is the stable filter,
   * even when the list holds duplicates.
   */
  lemma CollectThenEraseIsFilter(nodes: seq<Endpoint>, last: map<Endpoint, int>, now: int)
    ensures EraseEach(nodes, Failed(nodes, last, now)) == Kept(nodes, last, now)
  {
    EraseFailedOfPrefix(nodes, [], last, now);
    assert nodes + [] == nodes && Kept(nodes, last, now) + [] == Kept(nodes, last, now);
  }

  lemma {:induction false} KeptAllFresh(nodes: seq<Endpoint>, last: map<Endpoint, int>, now: int)
    requires forall x :: x in nodes ==> !Stale(last, now, x)
    ensures Kept(nodes, last, now) == nodes
  {
    if nodes != [] {
      KeptAllFresh(nodes[..|nodes| - 1], last, now);
    }
  }

  /** The filter goes piece by piece, and keeps a single node iff it was never heard or less than 45 s ago. */
  lemma {:induction false} KeptInOrder(a: seq<Endpoint>, b: seq<Endpoint>, last: map<Endpoint, int>, now: int)
    ensures Kept(a + b, last, now) == Kept(a, last, now) + Kept(b, last, now)
    ensures |a| == 1 ==>
              Kept(a, last, now) == if a[0] !in last || now - last[a[0]] < 45_000_000_000 then a else []
    decreases b
  {
    if |a| == 1 {
      assert a[..0] == [] && a == [a[0]];
    }
    if b == [] {
      assert a + b == a;
    } else {
      var init := b[..|b| - 1];
      KeptInOrder(a, init, last, now);
      assert (a + b)[..|a + b| - 1] == a + init;
    }
  }

  /** Checking twice at one instant changes nothing more, and all that is left is alive. */
  lemma CheckSettles(t: Tracker, now: int)
    ensures Checked(Checked(t, now), now) == Checked(t, now)
    ensures forall x :: x in Checked(t, now).nodes ==> !Stale(t.last, now, x)
    ensures AliveNodes(Checked(t, now), now) == Checked(t, now).nodes
  {
    KeptAllFresh(Kept(t.nodes, t.last, now), t.last, now);
  }

  // ----- The operations on values -----

  function Added(t: Tracker, x: Endpoint): Tracker {
    if x in t.nodes then t else t.(nodes := t.nodes + [x])
  }

  function Removed(t: Tracker, x: Endpoint): Tracker {
    Tracker(EraseFirst(t.nodes, x), t.last - {x})
  }

  function Heard(kind: Kind, t: Tracker, x: Endpoint, now: int): Tracker {
    var t' := t.(last := t.last[x := now]);
    if kind.IndexNodes? then Added(t', x) else t'
  }

  function Checked(t: Tracker, now: int): Tracker {
    t.(nodes := Kept(t.nodes, t.last, now))
  }

  function AliveNodes(t: Tracker, now: int): seq<Endpoint> {
    Kept(t.nodes, t.last, now)
  }

  // ----- The detector as an object -----

  class HeartbeatManager {
    const kind: Kind
    var nodes: seq<Endpoint>
    var lastHeartbeat: map<Endpoint, int>

    ghost function Contents(): Tracker
      reads this
    {
      Tracker(nodes, lastHeartbeat)
    }

    constructor (kind: Kind, nodes: seq<Endpoint>)
      ensures this.kind == kind && Contents() == Tracker(nodes, map[])
    {
      this.kind, this.nodes, lastHeartbeat := kind, nodes, map[];
    }

    method AddNode(x: Endpoint)
      modifies this`nodes
      ensures Contents() == Added(old(Contents()), x)
      ensures x in old(nodes) ==> nodes == old(nodes)
      ensures x !in old(nodes) ==> nodes == old(nodes) + [x]
    {
      if x !in nodes {
        nodes := nodes + [x];
      }
    }

    method RemoveNode(x: Endpoint)
      modifies this
      ensures Contents() == Removed(old(Contents()), x)
      ensures FirstTakenOut(old(nodes), nodes, x) && lastHeartbeat == old(lastHeartbeat) - {x}
    {
      EraseTakesFirst(nodes, x);
      EraseNode(x);
      lastHeartbeat := lastHeartbeat - {x};
    }

    method EraseNode(x: Endpoint)
      modifies this`nodes
      ensures nodes == EraseFirst(old(nodes), x)
    {
      var i := 0;
      while i < |nodes| && nodes[i] != x
        invariant 0 <= i <= |nodes|
        invariant nodes[..i] + EraseFirst(nodes[i..], x) == EraseFirst(nodes, x)
      {
        assert nodes[i..][1..] == nodes[i + 1..];
        i := i + 1;
      }
      if i < |nodes| {
        assert nodes[i..][1..] == nodes[i + 1..];
        nodes := nodes[..i] + nodes[i + 1..];
      } else {
        assert nodes[i..] == [] && nodes[..i] == nodes;
      }
    }

    method IsNodeAlive(x: Endpoint, now: int) returns (alive: bool)
      ensures alive <==> !Stale(lastHeartbeat, now, x)
      ensures alive <==> (x in lastHeartbeat ==> now - lastHeartbeat[x] < 45_000_000_000)
    {
      if x !in lastHeartbeat {
        return true;
      }
      alive := now - lastHeartbeat[x] < NODE_TIMEOUT;
    }

    method ProcessHeartbeatResponse(sender: Endpoint, now: int)
      modifies this
      ensures Contents() == Heard(kind, old(Contents()), sender, now)
      ensures lastHeartbeat == old(lastHeartbeat)[sender := now]
      ensures kind.BootstrapNodes? || sender in old(nodes) ==> nodes == old(nodes)
      ensures kind.IndexNodes? && sender !in old(nodes) ==> nodes == old(nodes) + [sender]
    {
      lastHeartbeat := lastHeartbeat[sender := now];
      if kind.IndexNodes? {
        AddNode(sender);
      }
    }

    method FailedNodes(now: int) returns (failed: seq<Endpoint>)
      ensures failed == Failed(nodes, lastHeartbeat, now)
    {
      failed := [];
      for i := 0 to |nodes|
        invariant failed == Failed(nodes[..i], lastHeartbeat, now)
      {
        assert nodes[..i + 1][..i] == nodes[..i];
        if nodes[i] in lastHeartbeat && now - lastHeartbeat[nodes[i]] >= NODE_TIMEOUT {
          failed := failed + [nodes[i]];
        }
      }
      assert nodes[..|nodes|] == nodes;
    }

    method CheckNodeHealth(now: int)
      modifies this`nodes
      ensures Contents() == Checked(old(Contents()), now)
    {
      var failed := FailedNodes(now);
      for i := 0 to |failed|
        invariant nodes == EraseEach(old(nodes), failed[..i])
      {
        assert failed[..i + 1][..i] == failed[..i];
        EraseNode(failed[i]);
      }
      assert failed[..|failed|] == failed;
      CollectThenEraseIsFilter(old(nodes), lastHeartbeat, now);
    }

    method GetAliveIndexNodes(now: int) returns (alive: seq<Endpoint>)
      ensures alive == AliveNodes(Contents(), now)
    {
      alive := [];
      for i := 0 to |nodes|
        invariant alive == Kept(nodes[..i], lastHeartbeat, now)
      {
        assert nodes[..i + 1][..i] == nodes[..i];
        if nodes[i] !in lastHeartbeat || now - lastHeartbeat[nodes[i]] < NODE_TIMEOUT {
          alive := alive + [nodes[i]];
        }
      }
      assert nodes[..|nodes|] == nodes;
    }
  }

  // ----- Timed runs -----

  datatype Step =
    | Pass(duration: nat)
    | Hear(node: Endpoint)
    | Add(node: Endpoint)
    | Remove(node: Endpoint)
    | Check

  /** `lastCheck` and `addedSince` are history: the last check, and the `addNode` calls since. */
  datatype State = State(tracker: Tracker, now: int, lastCheck: int, addedSince: set<Endpoint>)

  function Init(nodes: seq<Endpoint>, now: int): State {
    State(Tracker(nodes, map[]), now, now, {})
  }

  function Next(kind: Kind, s: State, step: Step): State {
    match step
    case Pass(d) => s.(now := s.now + d)
    case Hear(x) => s.(tracker := Heard(kind, s.tracker, x, s.now))
    case Add(x) => s.(tracker := Added(s.tracker, x), addedSince := s.addedSince + {x})
    case Remove(x) => s.(tracker := Removed(s.tracker, x))
    case Check => s.(tracker := Checked(s.tracker, s.now), lastCheck := s.now, addedSince := {})
  }

  function RunFrom(kind: Kind, s: State, steps: seq<Step>): State
    decreases steps
  {
    if steps == [] then s else RunFrom(kind, Next(kind, s, steps[0]), steps[1..])
  }

  ghost predicate Inv(kind: Kind, s: State) {
    && s.lastCheck <= s.now
    && (forall x :: x in s.tracker.last ==> s.tracker.last[x] <= s.now)
    && (forall x :: x in s.tracker.nodes && x in s.tracker.last ==>
          s.lastCheck - s.tracker.last[x] < NODE_TIMEOUT || x in s.addedSince)
    && (kind.IndexNodes? ==>
          forall x :: x in s.tracker.last && !Stale(s.tracker.last, s.now, x) ==> x in s.tracker.nodes)
  }

  lemma {:induction false} EraseFirstElements(nodes: seq<Endpoint>, x: Endpoint)
    ensures forall y :: y in EraseFirst(nodes, x) ==> y in nodes
    ensures forall y :: y in nodes && y != x ==> y in EraseFirst(nodes, x)
  {
    if nodes != [] {
      EraseFirstElements(nodes[1..], x);
    }
  }

  lemma {:induction false} EraseUnlisted(nodes: seq<Endpoint>, x: Endpoint)
    requires x !in nodes
    ensures EraseFirst(nodes, x) == nodes
  {
    if nodes != [] {
      EraseUnlisted(nodes[1..], x);
      assert nodes == [nodes[0]] + nodes[1..];
    }
  }

  /** Of a list without duplicates nothing is left of the node. */
  lemma EraseFirstDistinct(nodes: seq<Endpoint>, x: Endpoint)
    requires NoDuplicates(nodes)
    ensures NoDuplicates(EraseFirst(nodes, x)) && x !in EraseFirst(nodes, x)
  {
    if i :| 0 <= i < |nodes| && nodes[i] == x {
      assert nodes == nodes[..i] + [x] + nodes[i + 1..];
      EraseAfterPrefix(nodes[..i], x, nodes[i + 1..]);
    } else {
      EraseUnlisted(nodes, x);
    }
  }

  lemma {:induction false} KeptNoDuplicates(nodes: seq<Endpoint>, last: map<Endpoint, int>, now: int)
    requires NoDuplicates(nodes)
    ensures NoDuplicates(Kept(nodes, last, now))
  {
    if nodes != [] {
      var init, x := nodes[..|nodes| - 1], nodes[|nodes| - 1];
      KeptNoDuplicates(init, last, now);
      assert x !in init;
    }
  }

  /** No step lists a node twice. */
  lemma NoDuplicatesNext(kind: Kind, s: State, step: Step)
    requires NoDuplicates(s.tracker.nodes)
    ensures NoDuplicates(Next(kind, s, step).tracker.nodes)
  {
    match step
    case Remove(x) => EraseFirstDistinct(s.tracker.nodes, x);
    case Check => KeptNoDuplicates(s.tracker.nodes, s.tracker.last, s.now);
    case _ =>
  }

  /** From a list without duplicates on, no node is ever listed twice. */
  lemma {:induction false} NeverListedTwice(kind: Kind, s: State, steps: seq<Step>)
    requires NoDuplicates(s.tracker.nodes)
    ensures NoDuplicates(RunFrom(kind, s, steps).tracker.nodes)
    decreases steps
  {
    if steps != [] {
      NoDuplicatesNext(kind, s, steps[0]);
      NeverListedTwice(kind, Next(kind, s, steps[0]), steps[1..]);
    }
  }

  /** When a node was last heard since it was last removed; `before` if neither happened. */
  function LastHeard(steps: seq<Step>, now: int, before: Option<int>, x: Endpoint): Option<int>
    decreases steps
  {
    if steps == [] then before
    else match steps[0]
      case Pass(d) => LastHeard(steps[1..], now + d, before, x)
      case Hear(y) => LastHeard(steps[1..], now, if y == x then Some(now) else before, x)
      case Remove(y) => LastHeard(steps[1..], now, if y == x then None else before, x)
      case _ => LastHeard(steps[1..], now, before, x)
  }

  function TimeOf(t: Tracker, x: Endpoint): Option<int> {
    if x in t.last then Some(t.last[x]) else None
  }

  /** The recorded time is that of the last heartbeat since the last `removeNode`; nothing else touches it. */
  lemma {:induction false} TimesFromHistory(kind: Kind, s: State, steps: seq<Step>, x: Endpoint)
    ensures TimeOf(RunFrom(kind, s, steps).tracker, x) == LastHeard(steps, s.now, TimeOf(s.tracker, x), x)
    decreases steps
  {
    if steps != [] {
      TimesFromHistory(kind, Next(kind, s, steps[0]), steps[1..], x);
    }
  }

  /** Once off the list, a node stays off until `addNode` or, among index nodes, a heartbeat brings it back. */
  lemma {:induction false} OffUntilBroughtBack(kind: Kind, s: State, steps: seq<Step>, x: Endpoint)
    requires x !in s.tracker.nodes && Add(x) !in steps && (kind.IndexNodes? ==> Hear(x) !in steps)
    ensures x !in RunFrom(kind, s, steps).tracker.nodes
    decreases steps
  {
    if steps != [] {
      if steps[0].Remove? {
        EraseFirstElements(s.tracker.nodes, steps[0].node);
      }
      OffUntilBroughtBack(kind, Next(kind, s, steps[0]), steps[1..], x);
    }
  }

  lemma {:induction false} RunFromAppend(kind: Kind, s: State, a: seq<Step>, b: seq<Step>)
    ensures RunFrom(kind, s, a + b) == RunFrom(kind, RunFrom(kind, s, a), b)
    decreases a
  {
    if a == [] {
      assert a + b == b;
    } else {
      assert (a + b)[1..] == a[1..] + b;
      RunFromAppend(kind, Next(kind, s, a[0]), a[1..], b);
    }
  }

  /**
   * A removed node is off the list, in every run from a list without duplicates, until it is added or, among
   * index nodes, heard again.
   */
  lemma RemovedStaysOff(kind: Kind, initial: seq<Endpoint>, start: int, before: seq<Step>, x: Endpoint, after: seq<Step>)
    requires NoDuplicates(initial) && Add(x) !in after && (kind.IndexNodes? ==> Hear(x) !in after)
    ensures x !in RunFrom(kind, Init(initial, start), before + [Remove(x)] + after).tracker.nodes
  {
    var s := RunFrom(kind, Init(initial, start), before);
    NeverListedTwice(kind, Init(initial, start), before);
    EraseFirstDistinct(s.tracker.nodes, x);
    RunFromAppend(kind, Init(initial, start), before, [Remove(x)]);
    assert [Remove(x)][1..] == [];
    assert RunFrom(kind, s, [Remove(x)]) == Next(kind, s, Remove(x));
    RunFromAppend(kind, Init(initial, start), before + [Remove(x)], after);
    OffUntilBroughtBack(kind, Next(kind, s, Remove(x)), after, x);
  }

  /** A list without its first `x`: what came before and after `x` stays; without an `x`, all of it. */
  predicate FirstTakenOut(nodes: seq<Endpoint>, nodes': seq<Endpoint>, x: Endpoint) {
    if x in nodes
    then exists i :: 0 <= i < |nodes| && nodes[i] == x && x !in nodes[..i] && nodes' == nodes[..i] + nodes[i + 1..]
    else nodes' == nodes
  }

  lemma {:induction false} EraseTakesFirst(nodes: seq<Endpoint>, x: Endpoint)
    ensures FirstTakenOut(nodes, EraseFirst(nodes, x), x)
  {
    if x in nodes {
      var i := FirstIndex(nodes, x);
      assert nodes == nodes[..i] + [x] + nodes[i + 1..];
      EraseAfterPrefix(nodes[..i], x, nodes[i + 1..]);
    } else {
      EraseUnlisted(nodes, x);
    }
  }

  function FirstIndex(nodes: seq<Endpoint>, x: Endpoint): (i: nat)
    requires x in nodes
    ensures i < |nodes| && nodes[i] == x && x !in nodes[..i]
  {
    if nodes[0] == x then 0 else
      assert nodes == [nodes[0]] + nodes[1..];
      1 + FirstIndex(nodes[1..], x)
  }

  /** What each step does to the list: it puts a new node last, and reorders nothing. */
  lemma ListChanges(kind: Kind, s: State, step: Step)
    ensures var nodes, nodes' := s.tracker.nodes, Next(kind, s, step).tracker.nodes;
            match step
            case Pass(_) => nodes' == nodes
            case Add(x) => nodes' == if x in nodes then nodes else nodes + [x]
            case Hear(x) => nodes' == if kind.IndexNodes? && x !in nodes then nodes + [x] else nodes
            case Remove(x) => FirstTakenOut(nodes, nodes', x)
            case Check =>
              forall x :: x in nodes' <==> x in nodes && (x in s.tracker.last ==> s.now - s.tracker.last[x] < 45_000_000_000)
  {
    match step
    case Remove(x) => EraseTakesFirst(s.tracker.nodes, x);
    case _ =>
  }

  lemma InvNext(kind: Kind, s: State, step: Step)
    requires Inv(kind, s)
    ensures Inv(kind, Next(kind, s, step))
  {
    if step.Remove? {
      EraseFirstElements(s.tracker.nodes, step.node);
    }
  }

  lemma {:induction false} InvRun(kind: Kind, s: State, steps: seq<Step>)
    requires Inv(kind, s)
    ensures Inv(kind, RunFrom(kind, s, steps))
    decreases steps
  {
    if steps != [] {
      InvNext(kind, s, steps[0]);
      InvRun(kind, Next(kind, s, steps[0]), steps[1..]);
    }
  }

  /**
   * Bounded completeness: if the last check is at most `gap` ago, a node that has been silent for
   * the timeout plus the gap is off the list, unless `addNode` put it back since that check.
   */
  lemma SilentNodeDetected(kind: Kind, initial: seq<Endpoint>, start: int, steps: seq<Step>, x: Endpoint, gap: nat)
    requires var s := RunFrom(kind, Init(initial, start), steps);
             && s.now - s.lastCheck <= gap
             && x in s.tracker.last && s.now - s.tracker.last[x] >= NODE_TIMEOUT + gap
    ensures var s := RunFrom(kind, Init(initial, start), steps);
            x in s.tracker.nodes ==> x in s.addedSince
  {
    InvRun(kind, Init(initial, start), steps);
  }

  /** The node is heard often enough, or never heard at all, whenever a check happens. */
  predicate NotStaleAtChecks(kind: Kind, s: State, steps: seq<Step>, x: Endpoint)
    decreases steps
  {
    steps == [] ||
    ((steps[0].Check? ==> !Stale(s.tracker.last, s.now, x))
     && NotStaleAtChecks(kind, Next(kind, s, steps[0]), steps[1..], x))
  }

  /** Such a node stays on the list until someone passes it to `removeNode`. */
  lemma {:induction false} LiveNodeKept(kind: Kind, s: State, steps: seq<Step>, x: Endpoint)
    requires x in s.tracker.nodes && Remove(x) !in steps
    requires NotStaleAtChecks(kind, s, steps, x)
    ensures x in RunFrom(kind, s, steps).tracker.nodes
    decreases steps
  {
    if steps != [] {
      if steps[0].Remove? {
        EraseFirstElements(s.tracker.nodes, steps[0].node);
      }
      LiveNodeKept(kind, Next(kind, s, steps[0]), steps[1..], x);
    }
  }

  /**
   * Heartbeats come often enough: from the first one on, the time that passes between two of them,
   * and after the last, stays below the timeout. `silent` is the time since the last one so far.
   */
  predicate HeardOften(steps: seq<Step>, x: Endpoint, silent: Option<nat>)
    decreases steps
  {
    && (silent.Some? ==> silent.value < NODE_TIMEOUT)
    && (steps == [] ||
        HeardOften(steps[1..], x,
                   match steps[0]
                   case Pass(d) => if silent.Some? then Some(silent.value + d) else None
                   case Hear(y) => if y == x then Some(0) else silent
                   case _ => silent))
  }

  /** How long the node has been silent, if it was ever heard. */
  ghost predicate Silent(s: State, x: Endpoint, silent: Option<nat>) {
    match silent
    case None => x !in s.tracker.last
    case Some(d) => x in s.tracker.last && s.now - s.tracker.last[x] == d
  }

  lemma {:induction false} HeardOftenNeverStale(kind: Kind, s: State, steps: seq<Step>, x: Endpoint, silent: Option<nat>)
    requires Remove(x) !in steps && Silent(s, x, silent) && HeardOften(steps, x, silent)
    ensures NotStaleAtChecks(kind, s, steps, x)
    decreases steps
  {
    if steps != [] {
      var after := match steps[0]
        case Pass(d) => if silent.Some? then Some(silent.value + d) else None
        case Hear(y) => if y == x then Some(0) else silent
        case _ => silent;
      assert steps[0] != Remove(x);
      HeardOftenNeverStale(kind, Next(kind, s, steps[0]), steps[1..], x, after);
    }
  }

  /**
   * Accuracy: a listed node whose heartbeats are less than the timeout apart is never taken off the
   * list, whenever the checks happen and whatever is done to other nodes.
   */
  lemma RegularNodeKept(kind: Kind, s: State, steps: seq<Step>, x: Endpoint, silent: Option<nat>)
    requires x in s.tracker.nodes && Silent(s, x, silent)
    requires Remove(x) !in steps && HeardOften(steps, x, silent)
    ensures x in RunFrom(kind, s, steps).tracker.nodes
  {
    HeardOftenNeverStale(kind, s, steps, x, silent);
    LiveNodeKept(kind, s, steps, x);
  }

  /** For index nodes: every endpoint heard within the timeout and not removed since is on the list. */
  lemma RecentIndexNodeListed(initial: seq<Endpoint>, start: int, steps: seq<Step>, x: Endpoint)
    requires var s := RunFrom(IndexNodes, Init(initial, start), steps);
             x in s.tracker.last && s.now - s.tracker.last[x] < NODE_TIMEOUT
    ensures x in RunFrom(IndexNodes, Init(initial, start), steps).tracker.nodes
  {
    InvRun(IndexNodes, Init(initial, start), steps);
  }

  /** Right after a check of index nodes, a node ever heard is listed iff it was heard in time. */
  lemma CheckedIndexNodesExact(initial: seq<Endpoint>, start: int, steps: seq<Step>, x: Endpoint)
    requires x in RunFrom(IndexNodes, Init(initial, start), steps).tracker.last
    ensures var s := RunFrom(IndexNodes, Init(initial, start), steps);
            x in Next(IndexNodes, s, Check).tracker.nodes <==> s.now - s.tracker.last[x] < NODE_TIMEOUT
  {
    InvRun(IndexNodes, Init(initial, start), steps);
  }

  /**
   * For bootstrap nodes heartbeats never bring a node back: once off the list it stays off, however
   * regularly it is heard, until `addNode` is called for it.
   */
  lemma {:induction false} BootstrapNeverReadmits(s: State, steps: seq<Step>, x: Endpoint)
    requires x !in s.tracker.nodes && Add(x) !in steps
    ensures x !in RunFrom(BootstrapNodes, s, steps).tracker.nodes
    decreases steps
  {
    if steps != [] {
      if steps[0].Remove? {
        EraseFirstElements(s.tracker.nodes, steps[0].node);
      }
      BootstrapNeverReadmits(Next(BootstrapNodes, s, steps[0]), steps[1..], x);
    }
  }

  /** The timeout to the nanosecond: silent for d, a node is on the list after a check iff d is less than 45 s. */
  lemma TimeoutExact(kind: Kind, x: Endpoint, start: int, d: nat)
    ensures x in RunFrom(kind, Init([x], start), [Hear(x)] + [Pass(d)] + [Check]).tracker.nodes <==> d < 45_000_000_000
  {
    var s0 := Init([x], start);
    var s1 := Next(kind, s0, Hear(x));
    var s2 := Next(kind, s1, Pass(d));
    var s3 := Next(kind, s2, Check);
    RunFromOne(kind, s0, Hear(x));
    RunFromAppend(kind, s0, [Hear(x)], [Pass(d)]);
    RunFromOne(kind, s1, Pass(d));
    RunFromAppend(kind, s0, [Hear(x)] + [Pass(d)], [Check]);
    RunFromOne(kind, s2, Check);
    assert s2.tracker.nodes == [x] && s2.tracker.last[x] == start && s2.now == start + d;
  }

  lemma RunFromOne(kind: Kind, s: State, step: Step)
    ensures RunFrom(kind, s, [step]) == Next(kind, s, step)
  {
    assert [step][1..] == [];
  }

  /** A node lost for one timeout and then heard again: index nodes list it, bootstrap nodes do not. */
  lemma RecoveryDependsOnKind(kind: Kind, x: Endpoint, start: int)
    ensures var s := RunFrom(kind, Init([x], start), [Hear(x), Pass(45_000_000_000), Check, Hear(x)]);
            && !Stale(s.tracker.last, s.now, x)
            && (x in s.tracker.nodes <==> kind == IndexNodes)
  {
    var s0 := Init([x], start);
    var s1 := Next(kind, s0, Hear(x));
    var s2 := Next(kind, s1, Pass(45_000_000_000));
    var s3 := Next(kind, s2, Check);
    var s4 := Next(kind, s3, Hear(x));
    assert s2.tracker.nodes == [x] && Stale(s2.tracker.last, s2.now, x);
    assert Kept([x], s2.tracker.last, s2.now) == [];
    assert RunFrom(kind, s3, [Hear(x)]) == s4;
    assert [Check, Hear(x)][1..] == [Hear(x)];
    assert RunFrom(kind, s2, [Check, Hear(x)]) == s4;
    assert [Pass(45_000_000_000), Check, Hear(x)][1..] == [Check, Hear(x)];
    assert RunFrom(kind, s1, [Pass(45_000_000_000), Check, Hear(x)]) == s4;
    assert [Hear(x), Pass(45_000_000_000), Check, Hear(x)][1..] == [Pass(45_000_000_000), Check, Hear(x)];
  }
}
