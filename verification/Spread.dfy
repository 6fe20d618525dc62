/** Counting for protocols in which nodes pass a message on the first time they see its id. */
module Spread {
  import opened Common

  /** How many of the caches lack the id. */
  function Missing(caches: seq<set<string>>, id: string): (u: nat)
    ensures u <= |caches|
  {
    if caches == [] then 0
    else Missing(caches[..|caches| - 1], id) + if id in caches[|caches| - 1] then 0 else 1
  }

  function Lacks(cache: set<string>, id: string): nat {
    if id in cache then 0 else 1
  }

  lemma {:induction false} MissingUpdate(caches: seq<set<string>>, i: nat, cache: set<string>, id: string)
    requires i < |caches|
    ensures Missing(caches[i := cache], id) == Missing(caches, id) - Lacks(caches[i], id) + Lacks(cache, id)
  {
    var init := caches[..|caches| - 1];
    if i == |caches| - 1 {
      assert caches[i := cache][..|caches| - 1] == init;
    } else {
      MissingUpdate(init, i, cache, id);
      assert caches[i := cache][..|caches| - 1] == init[i := cache];
    }
  }

  /** Occurrences of an id among the messages in flight. */
  function Copies(ids: seq<string>, id: string): nat {
    multiset(ids)[id]
  }

  lemma CopiesWithout(ids: seq<string>, k: nat, id: string)
    requires k < |ids|
    ensures Copies(ids, id) == Copies(Without(ids, k), id) + if ids[k] == id then 1 else 0
  {
    WithoutElements(ids, k);
  }

  lemma {:induction false} CopiesBounded(ids: seq<string>, id: string)
    ensures Copies(ids, id) <= |ids|
    ensures id !in ids ==> Copies(ids, id) == 0
  {
    if ids != [] {
      var init := ids[..|ids| - 1];
      assert ids == init + [ids[|ids| - 1]];
      CopiesBounded(init, id);
    }
  }
}
