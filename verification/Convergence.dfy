/**
 * Replicas handle KeywordAdds in whatever order the network gives them. What a replica ends up
 * with depends only on which KeywordAdds it handled, not on their order or repetition.
 */
module Convergence {
  import opened Common
  import opened IndexNode

  datatype Posting = Posting(keyword: string, title: string, magnet: string)

  function RecordAll(ps: seq<Posting>): Store {
    if ps == [] then EMPTY_STORE
    else
      var p := ps[|ps| - 1];
      Record(RecordAll(ps[..|ps| - 1]), p.keyword, p.title, p.magnet)
  }

  ghost predicate Posted(ps: seq<Posting>, keyword: string, title: string) {
    exists p :: p in ps && p.keyword == keyword && p.title == title
  }

  /** Contents of a replica in terms of the postings alone. */
  lemma {:induction false} RecordAllContents(ps: seq<Posting>)
    ensures Consistent(RecordAll(ps))
    ensures forall k, t :: Lists(RecordAll(ps), k, t) <==> Posted(ps, k, t)
    ensures forall t :: t in RecordAll(ps).magnets <==> exists p :: p in ps && p.title == t
    ensures forall t :: t in RecordAll(ps).magnets ==>
              exists p :: p in ps && p.title == t && p.magnet == RecordAll(ps).magnets[t]
  {
    if ps != [] {
      var init, p := ps[..|ps| - 1], ps[|ps| - 1];
      RecordAllContents(init);
      assert ps == init + [p];
      forall k, t
        ensures Posted(ps, k, t) <==> Posted(init, k, t) || (k == p.keyword && t == p.title)
      {
        if Posted(init, k, t) {
          var q :| q in init && q.keyword == k && q.title == t;
          assert q in ps;
        }
        assert p in ps;
      }
      forall t | t in RecordAll(ps).magnets
        ensures exists q :: q in ps && q.title == t && q.magnet == RecordAll(ps).magnets[t]
      {
        if t in RecordAll(init).magnets {
          var q :| q in init && q.title == t && q.magnet == RecordAll(init).magnets[t];
          assert q in ps;
        } else {
          assert p in ps;
        }
      }
    }
  }

  lemma {:induction false} SameSetSameMultiset<T(!new)>(a: seq<T>, b: seq<T>)
    requires NoDuplicates(a) && NoDuplicates(b)
    requires forall x :: x in a <==> x in b
    ensures multiset(a) == multiset(b)
  {
    forall x
      ensures multiset(a)[x] == multiset(b)[x]
    {
      CountOne(a, x);
      CountOne(b, x);
    }
  }

  lemma {:induction false} CountOne<T(!new)>(a: seq<T>, x: T)
    requires NoDuplicates(a)
    ensures multiset(a)[x] == if x in a then 1 else 0
  {
    if a != [] {
      assert a == [a[0]] + a[1..];
      forall i, j | 0 <= i < j < |a[1..]|
        ensures a[1..][i] != a[1..][j]
      {
        assert a[1..][i] == a[i + 1] && a[1..][j] == a[j + 1];
      }
      CountOne(a[1..], x);
    }
  }

  ghost predicate OneMagnetPerTitle(ps: seq<Posting>, qs: seq<Posting>) {
    forall p, q :: p in ps + qs && q in ps + qs && p.title == q.title ==> p.magnet == q.magnet
  }

  /** The same titles under the keyword, each once, in whatever order. */
  ghost predicate SameListing(a: Store, b: Store, keyword: string) {
    if keyword !in a.titles then keyword !in b.titles
    else keyword in b.titles && NoDuplicates(a.titles[keyword]) && multiset(a.titles[keyword]) == multiset(b.titles[keyword])
  }

  /**
   * Two replicas that handled the same postings for a keyword, in any orders and with any
   * repetitions, list the same titles for it, each once.
   */
  lemma ReplicasConverge(ps: seq<Posting>, qs: seq<Posting>, keyword: string)
    requires forall t :: Posted(ps, keyword, t) <==> Posted(qs, keyword, t)
    ensures SameListing(RecordAll(ps), RecordAll(qs), keyword)
  {
    RecordAllContents(ps);
    RecordAllContents(qs);
    var a, b := RecordAll(ps), RecordAll(qs);
    KeywordPresent(a, keyword);
    KeywordPresent(b, keyword);
    if keyword in a.titles {
      assert Lists(a, keyword, a.titles[keyword][0]);
      forall t
        ensures t in a.titles[keyword] <==> t in b.titles[keyword]
      {
        assert Lists(a, keyword, t) <==> Lists(b, keyword, t);
      }
      SameSetSameMultiset(a.titles[keyword], b.titles[keyword]);
    }
  }

  /** If moreover every title was submitted with one magnet, they give the same answers. */
  lemma ReplicasAnswerAlike(ps: seq<Posting>, qs: seq<Posting>, keyword: string)
    requires forall t :: Posted(ps, keyword, t) <==> Posted(qs, keyword, t)
    requires OneMagnetPerTitle(ps, qs)
    ensures multiset(Search(RecordAll(ps), keyword)) == multiset(Search(RecordAll(qs), keyword))
  {
    ReplicasConverge(ps, qs, keyword);
    RecordAllContents(ps);
    RecordAllContents(qs);
    var a, b := RecordAll(ps), RecordAll(qs);
    if keyword in a.titles {
      forall t
        ensures t in a.titles[keyword] <==> t in b.titles[keyword]
      {
        assert t in multiset(a.titles[keyword]) <==> t in multiset(b.titles[keyword]);
      }
      SameResults(a, b, ps, qs, keyword);
    }
  }

  lemma KeywordPresent(st: Store, keyword: string)
    requires Consistent(st)
    ensures keyword in st.titles <==> exists t :: Lists(st, keyword, t)
  {
    if keyword in st.titles {
      assert Lists(st, keyword, st.titles[keyword][0]);
    }
  }

  lemma SameResults(a: Store, b: Store, ps: seq<Posting>, qs: seq<Posting>, keyword: string)
    requires a == RecordAll(ps) && b == RecordAll(qs)
    requires OneMagnetPerTitle(ps, qs)
    requires Consistent(a) && Consistent(b)
    requires keyword in a.titles && keyword in b.titles
    requires forall t :: t in a.titles[keyword] <==> t in b.titles[keyword]
    ensures multiset(Search(a, keyword)) == multiset(Search(b, keyword))
  {
    RecordAllContents(ps);
    RecordAllContents(qs);
    forall t | t in a.titles[keyword]
      ensures a.magnets[t] == b.magnets[t]
    {
      var p :| p in ps && p.title == t && p.magnet == a.magnets[t];
      var q :| q in qs && q.title == t && q.magnet == b.magnets[t];
      assert p in ps + qs && q in ps + qs;
    }
    SearchNoDuplicates(a, keyword);
    SearchNoDuplicates(b, keyword);
    forall r
      ensures r in Search(a, keyword) <==> r in Search(b, keyword)
    {
      InSearch(a, keyword, r);
      InSearch(b, keyword, r);
    }
    SameSetSameMultiset(Search(a, keyword), Search(b, keyword));
  }

  lemma InSearch(st: Store, keyword: string, r: TorrentResult)
    requires Consistent(st)
    ensures r in Search(st, keyword) <==>
              Lists(st, keyword, r.title) && r.magnet == st.magnets[r.title]
  {
    if Lists(st, keyword, r.title) {
      var ts := st.titles[keyword];
      var i :| 0 <= i < |ts| && ts[i] == r.title;
      assert Search(st, keyword)[i].title == r.title;
    }
  }

  lemma SearchNoDuplicates(st: Store, keyword: string)
    requires Consistent(st)
    ensures NoDuplicates(Search(st, keyword))
    ensures forall i, j :: 0 <= i < j < |Search(st, keyword)| ==>
              Search(st, keyword)[i].title != Search(st, keyword)[j].title
  {
  }
}
