/**
 * The incoming message queue: a priority queue by Lamport stamp, drained in batches of ten. Of the
 * queue only this is used: the top is some element with the smallest stamp.
 */
module BatchQueue {
  import opened Common

  const MAX_BATCH_SIZE: nat := 10

  /** How many elements one batch takes from a queue. */
  function BatchSize<T>(queue: seq<T>): (n: nat)
    ensures n == if |queue| < 10 then |queue| else 10
  {
    if |queue| < MAX_BATCH_SIZE then |queue| else MAX_BATCH_SIZE
  }

  datatype Stamped<T> = Stamped(stamp: nat, payload: T)

  function Stamps<T>(s: seq<Stamped<T>>): seq<nat> {
    seq(|s|, i requires 0 <= i < |s| => s[i].stamp)
  }

  ghost predicate Sorted<T>(s: seq<Stamped<T>>) {
    forall i, j :: 0 <= i < j < |s| ==> s[i].stamp <= s[j].stamp
  }

  /** Every stamp of the first sequence is at most every stamp of the second. */
  ghost predicate Below<T>(a: seq<Stamped<T>>, b: seq<Stamped<T>>) {
    forall x, y :: x in a && y in b ==> x.stamp <= y.stamp
  }

  predicate IsTop<T>(items: seq<Stamped<T>>, k: nat) {
    k < |items| && forall j :: 0 <= j < |items| ==> items[k].stamp <= items[j].stamp
  }

  lemma {:induction false} TopExists<T>(items: seq<Stamped<T>>)
    requires items != []
    ensures exists k :: 0 <= k < |items| && IsTop(items, k)
  {
    if |items| == 1 {
      assert IsTop(items, 0);
    } else {
      var init, x := items[..|items| - 1], items[|items| - 1];
      assert items == init + [x];
      TopExists(init);
      var k :| 0 <= k < |init| && IsTop(init, k);
      assert IsTop(items, if x.stamp < init[k].stamp then |items| - 1 else k);
    }
  }

  /** What extracting one batch may do to the queue. */
  ghost predicate IsBatch<T>(before: seq<Stamped<T>>, batch: seq<Stamped<T>>, after: seq<Stamped<T>>) {
    && |batch| == BatchSize(before)
    && Sorted(batch)
    && Below(batch, after)
    && multiset(before) == multiset(batch) + multiset(after)
  }

  /** `top` then `pop`, up to ten times. Ties are broken arbitrarily. */
  method DrainBatch<T(==)>(items: seq<Stamped<T>>) returns (batch: seq<Stamped<T>>, rest: seq<Stamped<T>>)
    ensures IsBatch(items, batch, rest)
  {
    batch, rest := [], items;
    while rest != [] && |batch| < MAX_BATCH_SIZE
      invariant |batch| + |rest| == |items| && |batch| <= MAX_BATCH_SIZE
      invariant Sorted(batch) && Below(batch, rest)
      invariant multiset(items) == multiset(batch) + multiset(rest)
      decreases |rest|
    {
      TopExists(rest);
      var k :| 0 <= k < |rest| && IsTop(rest, k);
      WithoutElements(rest, k);
      assert rest[k] in rest;
      batch, rest := batch + [rest[k]], Without(rest, k);
    }
  }

  // ----- Whole histories of arrivals and drains -----

  datatype Event<T> =
    | Arrive(message: Stamped<T>)
    | Drain(batch: seq<Stamped<T>>, rest: seq<Stamped<T>>)

  function Queued<T>(events: seq<Event<T>>): seq<Stamped<T>> {
    if events == [] then []
    else match events[|events| - 1]
      case Arrive(m) => Queued(events[..|events| - 1]) + [m]
      case Drain(_, rest) => rest
  }

  function Processed<T>(events: seq<Event<T>>): seq<Stamped<T>> {
    if events == [] then []
    else match events[|events| - 1]
      case Arrive(_) => Processed(events[..|events| - 1])
      case Drain(batch, _) => Processed(events[..|events| - 1]) + batch
  }

  function Arrived<T>(events: seq<Event<T>>): seq<Stamped<T>> {
    if events == [] then []
    else match events[|events| - 1]
      case Arrive(m) => Arrived(events[..|events| - 1]) + [m]
      case Drain(_, _) => Arrived(events[..|events| - 1])
  }

  /** Every drain extracts a batch from the queue as it was. */
  ghost predicate History<T>(events: seq<Event<T>>) {
    events == [] ||
    (var before, e := events[..|events| - 1], events[|events| - 1];
     History(before) && (e.Drain? ==> IsBatch(Queued(before), e.batch, e.rest)))
  }

  /** No message arrives after one with a larger stamp was processed. */
  ghost predicate InTime<T>(events: seq<Event<T>>) {
    events == [] ||
    (var before, e := events[..|events| - 1], events[|events| - 1];
     InTime(before) && (e.Arrive? ==> Below(Processed(before), [e.message])))
  }

  /** Nothing is lost, doubled or invented between arrival and processing. */
  lemma {:induction false} Conservation<T>(events: seq<Event<T>>)
    requires History(events)
    ensures multiset(Arrived(events)) == multiset(Processed(events)) + multiset(Queued(events))
  {
    if events != [] {
      Conservation(events[..|events| - 1]);
    }
  }

  lemma {:induction false} InTimeSorted<T>(events: seq<Event<T>>)
    requires History(events) && InTime(events)
    ensures Sorted(Processed(events)) && Below(Processed(events), Queued(events))
  {
    if events != [] {
      var before, e := events[..|events| - 1], events[|events| - 1];
      InTimeSorted(before);
      if e.Drain? {
        BatchFromQueue(Queued(before), e.batch, e.rest);
        SortedAppend(Processed(before), e.batch);
      }
    }
  }

  lemma BatchFromQueue<T>(before: seq<Stamped<T>>, batch: seq<Stamped<T>>, after: seq<Stamped<T>>)
    requires IsBatch(before, batch, after)
    ensures forall x :: x in before <==> x in batch || x in after
  {
    forall x
      ensures x in before <==> x in batch || x in after
    {
      assert x in before <==> x in multiset(before);
      assert x in batch <==> x in multiset(batch);
      assert x in after <==> x in multiset(after);
    }
  }

  lemma SortedAppend<T>(a: seq<Stamped<T>>, b: seq<Stamped<T>>)
    requires Sorted(a) && Sorted(b) && Below(a, b)
    ensures Sorted(a + b)
  {
    forall i, j | 0 <= i < j < |a + b|
      ensures (a + b)[i].stamp <= (a + b)[j].stamp
    {
      if i < |a| <= j {
        assert a[i] in a && b[j - |a|] in b;
      }
    }
  }

  /** A late arrival shows: as long as it is queued it lies below something processed, then out of order. */
  lemma {:induction false} LateShows<T>(events: seq<Event<T>>)
    requires History(events) && !InTime(events)
    ensures !(Sorted(Processed(events)) && Below(Processed(events), Queued(events)))
  {
    var before, e := events[..|events| - 1], events[|events| - 1];
    if InTime(before) {
      var m := e.message;
      assert m in Queued(events);
    } else {
      LateShows(before);
      match e
      case Arrive(m) =>
        if !Sorted(Processed(before)) {
        } else {
          var x, y :| x in Processed(before) && y in Queued(before) && x.stamp > y.stamp;
          assert y in Queued(events);
        }
      case Drain(batch, rest) =>
        BatchFromQueue(Queued(before), batch, rest);
        if !Sorted(Processed(before)) {
          var i, j :| 0 <= i < j < |Processed(before)| && Processed(before)[i].stamp > Processed(before)[j].stamp;
          assert Processed(events)[i].stamp > Processed(events)[j].stamp;
        } else {
          var x, y :| x in Processed(before) && y in Queued(before) && x.stamp > y.stamp;
          LateDrain(Processed(before), batch, rest, x, y);
        }
    }
  }

  lemma LateDrain<T>(processed: seq<Stamped<T>>, batch: seq<Stamped<T>>, rest: seq<Stamped<T>>, x: Stamped<T>, y: Stamped<T>)
    requires x in processed && (y in batch || y in rest) && x.stamp > y.stamp
    ensures !(Sorted(processed + batch) && Below(processed + batch, rest))
  {
    var i :| 0 <= i < |processed| && processed[i] == x;
    assert (processed + batch)[i] == x;
    if y in batch {
      var j :| 0 <= j < |batch| && batch[j] == y;
      assert (processed + batch)[|processed| + j] == y;
    }
  }

  /**
   * Over any history that ends with an empty queue, the messages were processed in stamp order iff
   * none arrived after a message with a larger stamp had been processed.
   */
  lemma ProcessedInOrderIff<T>(events: seq<Event<T>>)
    requires History(events) && Queued(events) == []
    ensures Sorted(Processed(events)) <==> InTime(events)
  {
    if InTime(events) {
      InTimeSorted(events);
    } else {
      LateShows(events);
    }
  }

  // ----- A history processed out of order -----

  /** One message is drained, and then one with a smaller stamp arrives and is drained. */
  function LateHistory<T>(first: Stamped<T>, late: Stamped<T>): seq<Event<T>> {
    [Arrive(first)] + [Drain([first], [])] + [Arrive(late)] + [Drain([late], [])]
  }

  lemma ArriveSnoc<T>(h: seq<Event<T>>, m: Stamped<T>)
    ensures History(h + [Arrive(m)]) == History(h)
    ensures Queued(h + [Arrive(m)]) == Queued(h) + [m] && Processed(h + [Arrive(m)]) == Processed(h)
    ensures InTime(h + [Arrive(m)]) <==> InTime(h) && Below(Processed(h), [m])
  {
    assert (h + [Arrive(m)])[..|h|] == h;
  }

  lemma DrainSnoc<T>(h: seq<Event<T>>, m: Stamped<T>)
    requires History(h) && Queued(h) == [m]
    ensures History(h + [Drain([m], [])])
    ensures Queued(h + [Drain([m], [])]) == [] && Processed(h + [Drain([m], [])]) == Processed(h) + [m]
    ensures InTime(h + [Drain([m], [])]) <==> InTime(h)
  {
    assert (h + [Drain([m], [])])[..|h|] == h;
    assert multiset([m]) == multiset([m]) + multiset{};
  }

  /**
   * Stamp order is not kept in general: this history ends with an empty queue, its second message came
   * late, and the messages were processed out of stamp order.
   */
  lemma LateProcessedOutOfOrder<T>(first: Stamped<T>, late: Stamped<T>)
    requires late.stamp < first.stamp
    ensures var h := LateHistory(first, late);
            && History(h) && Queued(h) == [] && !InTime(h)
            && Processed(h) == [first, late] && !Sorted(Processed(h))
  {
    var h := [Arrive(first)] + [Drain([first], [])];
    FirstDrained(first);
    ArriveSnoc(h, late);
    assert first in Processed(h) && late in [late];
    DrainSnoc(h + [Arrive(late)], late);
    var processed := [first, late];
    assert processed[0].stamp > processed[1].stamp;
  }

  lemma FirstDrained<T>(first: Stamped<T>)
    ensures var h := [Arrive(first)] + [Drain([first], [])];
            History(h) && Queued(h) == [] && Processed(h) == [first]
  {
    assert [] + [Arrive(first)] == [Arrive(first)];
    ArriveSnoc([], first);
    DrainSnoc([Arrive(first)], first);
  }

  /**
   * Draining with no arrivals sorts the whole queue across batches: after d drains the 10*d messages
   * with the smallest stamps (or all of them) have been processed in stamp order, and no others.
   */
  lemma DrainsSort<T>(arrivals: seq<Event<T>>, drains: seq<Event<T>>)
    requires forall e :: e in arrivals ==> e.Arrive?
    requires forall e :: e in drains ==> e.Drain?
    requires History(arrivals + drains)
    ensures var all := arrivals + drains;
            && Sorted(Processed(all)) && Below(Processed(all), Queued(all))
            && multiset(Arrived(arrivals)) == multiset(Processed(all)) + multiset(Queued(all))
            && |Processed(all)| == (if |arrivals| < 10 * |drains| then |arrivals| else 10 * |drains|)
  {
    Conservation(arrivals + drains);
    ArrivalsThenDrainsInTime(arrivals, drains);
    InTimeSorted(arrivals + drains);
    DrainedCount(arrivals, drains);
  }

  lemma {:induction false} DrainedCount<T>(arrivals: seq<Event<T>>, drains: seq<Event<T>>)
    requires forall e :: e in arrivals ==> e.Arrive?
    requires forall e :: e in drains ==> e.Drain?
    requires History(arrivals + drains)
    ensures Arrived(arrivals + drains) == Arrived(arrivals)
    ensures |Processed(arrivals + drains)| + |Queued(arrivals + drains)| == |arrivals|
    ensures |Processed(arrivals + drains)| == if |arrivals| < 10 * |drains| then |arrivals| else 10 * |drains|
    decreases |arrivals| + |drains|
  {
    if drains == [] {
      assert arrivals + drains == arrivals;
      OnlyArrivals(arrivals);
    } else {
      var before, e := arrivals + drains[..|drains| - 1], drains[|drains| - 1];
      assert arrivals + drains == before + [e];
      LastEvent(before, e);
      assert e in drains;
      DrainedCount(arrivals, drains[..|drains| - 1]);
      assert |multiset(Queued(before))| == |multiset(e.batch)| + |multiset(e.rest)|;
    }
  }

  lemma {:induction false} OnlyArrivals<T>(arrivals: seq<Event<T>>)
    requires forall e :: e in arrivals ==> e.Arrive?
    ensures Processed(arrivals) == [] && |Queued(arrivals)| == |arrivals|
  {
    if arrivals != [] {
      OnlyArrivals(arrivals[..|arrivals| - 1]);
    }
  }

  lemma LastEvent<T>(before: seq<Event<T>>, e: Event<T>)
    requires e.Drain? && History(before + [e])
    ensures History(before) && IsBatch(Queued(before), e.batch, e.rest)
    ensures Arrived(before + [e]) == Arrived(before)
    ensures Processed(before + [e]) == Processed(before) + e.batch && Queued(before + [e]) == e.rest
  {
    assert (before + [e])[..|before|] == before;
  }

  lemma {:induction false} ArrivalsThenDrainsInTime<T>(arrivals: seq<Event<T>>, drains: seq<Event<T>>)
    requires forall e :: e in arrivals ==> e.Arrive?
    requires forall e :: e in drains ==> e.Drain?
    ensures InTime(arrivals + drains)
    ensures drains == [] ==> Processed(arrivals) == []
    decreases |arrivals| + |drains|
  {
    if drains != [] {
      assert (arrivals + drains)[..|arrivals + drains| - 1] == arrivals + drains[..|drains| - 1];
      assert (arrivals + drains)[|arrivals + drains| - 1] in drains;
      ArrivalsThenDrainsInTime(arrivals, drains[..|drains| - 1]);
    } else {
      assert arrivals + drains == arrivals;
      if arrivals != [] {
        ArrivalsThenDrainsInTime(arrivals[..|arrivals| - 1], []);
        assert arrivals[..|arrivals| - 1] + [] == arrivals[..|arrivals| - 1];
      }
    }
  }
}
