/**
 * The gossip duplicate cache: a set for lookups and a list in admission order, trimmed together.
 */
module MessageCache {
  import opened Common

  const MAX_CACHE_SIZE: nat := 1000

  /** The list after `addToCache`: the oldest entry goes when the list outgrows its limit. */
  function Remember(order: seq<string>, id: string): seq<string> {
    if id in order then order
    else if |order| + 1 > MAX_CACHE_SIZE then (order + [id])[1..]
    else order + [id]
  }

  /** The last MAX_CACHE_SIZE elements of a history, or all of it. */
  function Window(history: seq<string>): seq<string> {
    if |history| <= MAX_CACHE_SIZE then history else history[|history| - MAX_CACHE_SIZE..]
  }

  /** The history of admissions after one more arrival: refused iff seen within the window. */
  function Admit(history: seq<string>, id: string): seq<string> {
    if id in Window(history) then history else history + [id]
  }

  function Admissions(arrivals: seq<string>): seq<string> {
    if arrivals == [] then []
    else Admit(Admissions(arrivals[..|arrivals| - 1]), arrivals[|arrivals| - 1])
  }

  function Remembered(arrivals: seq<string>): seq<string> {
    if arrivals == [] then []
    else Remember(Remembered(arrivals[..|arrivals| - 1]), arrivals[|arrivals| - 1])
  }

  /** The bounded list refines the unbounded history: it is its last 1000 admissions. */
  lemma RememberIsWindow(history: seq<string>, id: string)
    ensures Remember(Window(history), id) == Window(Admit(history, id))
  {
  }

  lemma {:induction false} CacheRefinesHistory(arrivals: seq<string>)
    ensures Remembered(arrivals) == Window(Admissions(arrivals))
  {
    if arrivals != [] {
      CacheRefinesHistory(arrivals[..|arrivals| - 1]);
      RememberIsWindow(Admissions(arrivals[..|arrivals| - 1]), arrivals[|arrivals| - 1]);
    }
  }

  /** Equal admissions lie more than MAX_CACHE_SIZE apart. */
  ghost predicate FarApart(history: seq<string>) {
    forall i, j :: 0 <= i < j < |history| && history[i] == history[j] ==> j - i > MAX_CACHE_SIZE
  }

  lemma AdmitFarApart(history: seq<string>, id: string)
    requires FarApart(history)
    ensures FarApart(Admit(history, id))
  {
    if id !in Window(history) {
      var start := |history| - |Window(history)|;
      forall i | start <= i < |history|
        ensures history[i] in Window(history)
      {
        assert Window(history)[i - start] == history[i];
      }
    }
  }

  /** Any MAX_CACHE_SIZE + 1 consecutive admissions are pairwise distinct, whatever arrives. */
  lemma {:induction false} AdmissionsFarApart(arrivals: seq<string>)
    ensures FarApart(Admissions(arrivals))
  {
    if arrivals != [] {
      AdmissionsFarApart(arrivals[..|arrivals| - 1]);
      AdmitFarApart(Admissions(arrivals[..|arrivals| - 1]), arrivals[|arrivals| - 1]);
    }
  }

  /** So an id admitted c times over needs more than 1001*(c - 1) admissions. */
  lemma {:induction false} CountSpaced(history: seq<string>, id: string)
    requires FarApart(history)
    ensures multiset(history)[id] > 0 ==> 1001 * (multiset(history)[id] - 1) < |history|
    decreases |history|
  {
    if history != [] {
      var init, last := history[..|history| - 1], history[|history| - 1];
      assert history == init + [last];
      if last != id {
        CountSpaced(init, id);
      } else {
        var start := if |init| < MAX_CACHE_SIZE then 0 else |init| - MAX_CACHE_SIZE;
        assert init == init[..start] + init[start..];
        assert id !in init[start..];
        CountSpaced(init[..start], id);
      }
    }
  }

  /** An id is refused iff it is one of the last 1000 admissions; once older it is admitted again. */
  lemma RefusedIffRecent(history: seq<string>, id: string)
    ensures Admit(history, id) == history || Admit(history, id) == history + [id]
    ensures Admit(history, id) == history <==> exists i :: 0 <= i < |history| && |history| - i <= 1000 && history[i] == id
  {
    var start := |history| - |Window(history)|;
    if i :| 0 <= i < |history| && |history| - i <= 1000 && history[i] == id {
      assert Window(history)[i - start] == id;
    }
    if id in Window(history) {
      var j :| 0 <= j < |Window(history)| && Window(history)[j] == id;
      assert history[start + j] == id;
    }
    assert |history + [id]| != |history|;
  }

  /** The list holds the last 1000 admissions, oldest first. */
  lemma ListIsLastThousand(arrivals: seq<string>)
    ensures var h := Admissions(arrivals);
            Remembered(arrivals) == if |h| <= 1000 then h else h[|h| - 1000..]
  {
    CacheRefinesHistory(arrivals);
  }

  /** Equal admissions have at least 1000 others between them. */
  lemma EqualAdmissionsApart(arrivals: seq<string>, i: nat, j: nat)
    requires i < j < |Admissions(arrivals)| && Admissions(arrivals)[i] == Admissions(arrivals)[j]
    ensures j - i > 1000
  {
    AdmissionsFarApart(arrivals);
  }

  lemma WindowDistinct(history: seq<string>)
    requires FarApart(history)
    ensures NoDuplicates(Window(history))
  {
  }

  /** Dropping the oldest of a list of distinct ids drops exactly that id from its set. */
  lemma DropOldest(order: seq<string>)
    requires order != [] && NoDuplicates(order)
    ensures Elements(order[1..]) == Elements(order) - {order[0]}
  {
    assert order == [order[0]] + order[1..];
  }
}
