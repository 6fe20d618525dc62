/**
 * Reputation accounting for one torrent: who contributed blocks to which piece, and what each peer
 * has earned from the verdicts on those pieces.
 */
module Reputation {
  import opened Common

  const GOOD_PIECE: int := 1
  const BAD_PIECE: int := -5

  /** `piece_contributors` and `peer_reputation_delta`. */
  datatype Ledger = Ledger(contributors: map<int, map<Endpoint, set<int>>>, delta: map<Endpoint, int>)

  datatype Alert =
    | BlockFinished(piece: int, block: int, peer: Endpoint)
    | HashFailed(piece: int)
    | PieceFinished(piece: int)

  const EMPTY_LEDGER := Ledger(map[], map[])

  // ----- The operations on values -----

  function PeersOf(l: Ledger, piece: int): map<Endpoint, set<int>> {
    if piece in l.contributors then l.contributors[piece] else map[]
  }

  function WithBlock(l: Ledger, piece: int, block: int, peer: Endpoint): Ledger {
    var peers := PeersOf(l, piece);
    var blocks := if peer in peers then peers[peer] else {};
    l.(contributors := l.contributors[piece := peers[peer := blocks + {block}]])
  }

  function DeltaOf(delta: map<Endpoint, int>, peer: Endpoint): int {
    if peer in delta then delta[peer] else 0
  }

  /** The weight added once for every peer of the set. */
  function Credited(delta: map<Endpoint, int>, peers: set<Endpoint>, weight: int): map<Endpoint, int> {
    map p | p in delta.Keys + peers :: DeltaOf(delta, p) + if p in peers then weight else 0
  }

  /** `record_good_piece` and `record_bad_piece`. */
  function Judged(l: Ledger, piece: int, weight: int): Ledger {
    if piece !in l.contributors then l
    else Ledger(l.contributors - {piece}, Credited(l.delta, l.contributors[piece].Keys, weight))
  }

  /** `get_piece_contributors` leaves an empty entry where there was none. */
  function Touched(l: Ledger, piece: int): Ledger {
    l.(contributors := l.contributors[piece := PeersOf(l, piece)])
  }

  /** The branch of the alert loop for one alert. */
  function Applied(l: Ledger, a: Alert): Ledger {
    match a
    case BlockFinished(p, b, peer) => WithBlock(l, p, b, peer)
    case HashFailed(p) => Touched(Judged(l, p, BAD_PIECE), p)
    case PieceFinished(p) => Judged(l, p, GOOD_PIECE)
  }

  function AppliedAll(l: Ledger, h: seq<Alert>): Ledger {
    if h == [] then l else Applied(AppliedAll(l, h[..|h| - 1]), h[|h| - 1])
  }

  function AfterHistory(h: seq<Alert>): Ledger {
    AppliedAll(EMPTY_LEDGER, h)
  }

  // ----- What the history says -----

  predicate IsVerdict(a: Alert, piece: int) {
    !a.BlockFinished? && a.piece == piece
  }

  /** Before alert j the peer finished a block of the piece, with no verdict on the piece since. */
  ghost predicate Contributed(h: seq<Alert>, j: nat, piece: int, peer: Endpoint) {
    exists i :: 0 <= i < j && i < |h| && BlockSince(h, i, j, piece, peer)
  }

  ghost predicate BlockSince(h: seq<Alert>, i: nat, j: nat, piece: int, peer: Endpoint) {
    && i < |h| && h[i].BlockFinished? && h[i].piece == piece && h[i].peer == peer
    && forall k :: i < k < j && k < |h| ==> !IsVerdict(h[k], piece)
  }

  /** Alert j is a verdict, good or bad, on a piece the peer contributed to since the verdict before. */
  ghost predicate JudgedAt(h: seq<Alert>, j: nat, peer: Endpoint, good: bool) {
    && j < |h| && !h[j].BlockFinished? && h[j].PieceFinished? == good
    && Contributed(h, j, h[j].piece, peer)
  }

  ghost function Verdicts(h: seq<Alert>, n: nat, peer: Endpoint, good: bool): (v: nat)
    ensures v <= n
  {
    if n == 0 then 0 else Verdicts(h, n - 1, peer, good) + if JudgedAt(h, n - 1, peer, good) then 1 else 0
  }

  lemma ContributedPrefix(h: seq<Alert>, a: Alert, j: nat, piece: int, peer: Endpoint)
    requires j <= |h|
    ensures Contributed(h + [a], j, piece, peer) <==> Contributed(h, j, piece, peer)
  {
    var h' := h + [a];
    assert forall k :: 0 <= k < |h| ==> h'[k] == h[k];
    forall i | 0 <= i < j
      ensures BlockSince(h', i, j, piece, peer) <==> BlockSince(h, i, j, piece, peer)
    {
      assert (forall k :: i < k < j && k < |h'| ==> !IsVerdict(h'[k], piece))
        <==> (forall k :: i < k < j && k < |h| ==> !IsVerdict(h[k], piece));
    }
  }

  lemma ContributedNext(h: seq<Alert>, a: Alert, piece: int, peer: Endpoint)
    ensures Contributed(h + [a], |h| + 1, piece, peer) <==>
              if IsVerdict(a, piece) then false
              else Contributed(h, |h|, piece, peer) || (a.BlockFinished? && a.piece == piece && a.peer == peer)
  {
    var h' := h + [a];
    if Contributed(h, |h|, piece, peer) && !IsVerdict(a, piece) {
      var i :| 0 <= i < |h| && BlockSince(h, i, |h|, piece, peer);
      assert BlockSince(h', i, |h| + 1, piece, peer);
    }
    if a.BlockFinished? && a.piece == piece && a.peer == peer {
      assert BlockSince(h', |h|, |h| + 1, piece, peer);
    }
    if Contributed(h', |h| + 1, piece, peer) {
      var i :| 0 <= i < |h| + 1 && BlockSince(h', i, |h| + 1, piece, peer);
      if i < |h| {
        assert !IsVerdict(h'[|h|], piece);
        forall k | i < k < |h|
          ensures !IsVerdict(h[k], piece)
        {
          assert h'[k] == h[k];
        }
        assert BlockSince(h, i, |h|, piece, peer);
      }
    }
  }

  lemma {:induction false} VerdictsPrefix(h: seq<Alert>, a: Alert, n: nat, peer: Endpoint, good: bool)
    requires n <= |h|
    ensures Verdicts(h + [a], n, peer, good) == Verdicts(h, n, peer, good)
  {
    if n > 0 {
      VerdictsPrefix(h, a, n - 1, peer, good);
      ContributedPrefix(h, a, n - 1, h[n - 1].piece, peer);
    }
  }

  lemma VerdictsNext(h: seq<Alert>, a: Alert, peer: Endpoint, good: bool)
    ensures Verdicts(h + [a], |h| + 1, peer, good) == Verdicts(h, |h|, peer, good)
              + if !a.BlockFinished? && a.PieceFinished? == good && Contributed(h, |h|, a.piece, peer) then 1 else 0
  {
    VerdictsPrefix(h, a, |h|, peer, good);
    ContributedPrefix(h, a, |h|, a.piece, peer);
  }

  ghost predicate Listed(l: Ledger, piece: int, peer: Endpoint) {
    piece in l.contributors && peer in l.contributors[piece]
  }

  /** The ledger's contributors are the peers the history says contributed. */
  lemma {:induction false} ContributorsFromHistory(h: seq<Alert>, piece: int, peer: Endpoint)
    ensures Listed(AfterHistory(h), piece, peer) <==> Contributed(h, |h|, piece, peer)
  {
    if h != [] {
      var init, a := h[..|h| - 1], h[|h| - 1];
      assert h == init + [a];
      ContributorsFromHistory(init, piece, peer);
      ContributedNext(init, a, piece, peer);
    }
  }

  /**
   * The ledger equals the history fold: after any alerts a peer's delta is one point for every good
   * verdict and minus five for every bad one, over the pieces it contributed to since the previous
   * verdict on that piece; and it has an entry iff there was such a verdict.
   */
  lemma {:induction false} DeltaFromHistory(h: seq<Alert>, peer: Endpoint)
    ensures DeltaOf(AfterHistory(h).delta, peer)
         == Verdicts(h, |h|, peer, true) - 5 * Verdicts(h, |h|, peer, false)
    ensures peer in AfterHistory(h).delta <==> Verdicts(h, |h|, peer, true) + Verdicts(h, |h|, peer, false) > 0
  {
    if h != [] {
      var init, a := h[..|h| - 1], h[|h| - 1];
      assert h == init + [a];
      DeltaFromHistory(init, peer);
      VerdictsNext(init, a, peer, true);
      VerdictsNext(init, a, peer, false);
      ContributorsFromHistory(init, a.piece, peer);
    }
  }

  /** The blocks kept for a contributor are those it finished of the piece since the last verdict on it. */
  ghost predicate BlockKept(h: seq<Alert>, piece: int, peer: Endpoint, block: int) {
    exists i :: 0 <= i < |h| && BlockSince(h, i, |h|, piece, peer) && h[i].block == block
  }

  lemma BlockKeptNext(h: seq<Alert>, a: Alert, piece: int, peer: Endpoint, block: int)
    ensures BlockKept(h + [a], piece, peer, block) <==>
              if IsVerdict(a, piece) then false
              else BlockKept(h, piece, peer, block) || a == BlockFinished(piece, block, peer)
  {
    var h' := h + [a];
    if BlockKept(h, piece, peer, block) && !IsVerdict(a, piece) {
      var i :| 0 <= i < |h| && BlockSince(h, i, |h|, piece, peer) && h[i].block == block;
      assert BlockSince(h', i, |h'|, piece, peer) && h'[i].block == block;
    }
    if a == BlockFinished(piece, block, peer) {
      assert BlockSince(h', |h|, |h'|, piece, peer) && h'[|h|].block == block;
    }
    if BlockKept(h', piece, peer, block) {
      var i :| 0 <= i < |h'| && BlockSince(h', i, |h'|, piece, peer) && h'[i].block == block;
      if i < |h| {
        assert !IsVerdict(h'[|h|], piece);
        assert forall k :: i < k < |h| ==> h'[k] == h[k];
        assert BlockSince(h, i, |h|, piece, peer);
      }
    }
  }

  lemma {:induction false} BlocksFromHistory(h: seq<Alert>, piece: int, peer: Endpoint, block: int)
    ensures Listed(AfterHistory(h), piece, peer) && block in AfterHistory(h).contributors[piece][peer]
       <==> BlockKept(h, piece, peer, block)
  {
    if h != [] {
      var init, a := h[..|h| - 1], h[|h| - 1];
      assert h == init + [a];
      BlocksFromHistory(init, piece, peer, block);
      BlockKeptNext(init, a, piece, peer, block);
    }
  }

  /** The last alert about the piece, if there is one. */
  function LastAbout(h: seq<Alert>, piece: int): Option<Alert> {
    if h == [] then None
    else if h[|h| - 1].piece == piece then Some(h[|h| - 1])
    else LastAbout(h[..|h| - 1], piece)
  }

  /** A piece has an entry iff it was heard of and the last thing heard is not that it is finished. */
  lemma {:induction false} EntryFromHistory(h: seq<Alert>, piece: int)
    ensures piece in AfterHistory(h).contributors <==>
              LastAbout(h, piece).Some? && !LastAbout(h, piece).value.PieceFinished?
  {
    if h != [] {
      EntryFromHistory(h[..|h| - 1], piece);
    }
  }

  /** A delta never leaves the range a 32-bit `int` has room for before 2^31 / 5 alerts. */
  lemma DeltaBounded(h: seq<Alert>, peer: Endpoint)
    ensures -5 * |h| <= DeltaOf(AfterHistory(h).delta, peer) <= |h|
  {
    DeltaFromHistory(h, peer);
  }

  // ----- Conservation -----

  ghost function Total(delta: map<Endpoint, int>): int {
    if delta == map[] then 0
    else
      var p :| p in delta;
      delta[p] + Total(delta - {p})
  }

  lemma {:induction false} TotalWithout(delta: map<Endpoint, int>, p: Endpoint)
    requires p in delta
    ensures Total(delta) == delta[p] + Total(delta - {p})
    decreases |delta|
  {
    assert delta != map[];
    var q :| q in delta && Total(delta) == delta[q] + Total(delta - {q});
    if q != p {
      TotalWithout(delta - {q}, p);
      TotalWithout(delta - {p}, q);
      assert delta - {q} - {p} == delta - {p} - {q};
    }
  }

  lemma TotalUpdate(delta: map<Endpoint, int>, p: Endpoint, v: int)
    ensures Total(delta[p := v]) == Total(delta) - DeltaOf(delta, p) + v
  {
    TotalWithout(delta[p := v], p);
    assert delta[p := v] - {p} == delta - {p};
    if p in delta {
      TotalWithout(delta, p);
    } else {
      assert delta - {p} == delta;
    }
  }

  lemma {:induction false} TotalCredited(delta: map<Endpoint, int>, peers: set<Endpoint>, weight: int)
    ensures Total(Credited(delta, peers, weight)) == Total(delta) + weight * |peers|
  {
    if peers == {} {
      assert Credited(delta, peers, weight) == delta;
    } else {
      var p :| p in peers;
      var rest := peers - {p};
      assert |peers| == |rest| + 1;
      TotalCredited(delta, rest, weight);
      CreditOne(delta, peers, p, weight);
      TotalUpdate(Credited(delta, rest, weight), p, DeltaOf(delta, p) + weight);
      TimesSucc(weight, |rest|);
    }
  }

  lemma TimesSucc(w: int, n: nat)
    ensures w * (n + 1) == w * n + w
  {
  }

  lemma CreditOne(delta: map<Endpoint, int>, peers: set<Endpoint>, p: Endpoint, weight: int)
    requires p in peers
    ensures Credited(delta, peers, weight) == Credited(delta, peers - {p}, weight)[p := DeltaOf(delta, p) + weight]
    ensures DeltaOf(Credited(delta, peers - {p}, weight), p) == DeltaOf(delta, p)
  {
  }

  ghost function ContributorSet(h: seq<Alert>, j: nat, piece: int): set<Endpoint> {
    set i | 0 <= i < |h| && h[i].BlockFinished? && i < j && BlockSince(h, i, j, piece, h[i].peer) :: h[i].peer
  }

  /** Points handed out by the verdicts so far: the weight times the number of contributors. */
  ghost function PointsGiven(h: seq<Alert>): int {
    if h == [] then 0
    else
      var init, a := h[..|h| - 1], h[|h| - 1];
      PointsGiven(init) + match a
        case BlockFinished(_, _, _) => 0
        case HashFailed(p) => BAD_PIECE * |ContributorSet(init, |init|, p)|
        case PieceFinished(p) => GOOD_PIECE * |ContributorSet(init, |init|, p)|
  }

  /** Conservation: the deltas of all peers together are the points the verdicts handed out. */
  lemma {:induction false} PointsConserved(h: seq<Alert>)
    ensures Total(AfterHistory(h).delta) == PointsGiven(h)
  {
    if h != [] {
      var init, a := h[..|h| - 1], h[|h| - 1];
      PointsConserved(init);
      if !a.BlockFinished? {
        var l := AfterHistory(init);
        var peers := PeersOf(l, a.piece).Keys;
        forall peer
          ensures peer in peers <==> peer in ContributorSet(init, |init|, a.piece)
        {
          ContributorsFromHistory(init, a.piece, peer);
          if Contributed(init, |init|, a.piece, peer) {
            var i :| 0 <= i < |init| && BlockSince(init, i, |init|, a.piece, peer);
            assert init[i].peer == peer;
          }
        }
        assert peers == ContributorSet(init, |init|, a.piece);
        TotalCredited(l.delta, peers, Weight(a));
      }
    }
  }

  // ----- Independence -----

  ghost predicate AgreeAt(l: Ledger, m: Ledger, piece: int) {
    && (piece in l.contributors <==> piece in m.contributors)
    && PeersOf(l, piece) == PeersOf(m, piece)
  }

  function Weight(a: Alert): int {
    if a.HashFailed? then BAD_PIECE else GOOD_PIECE
  }

  function Paid(l: Ledger, a: Alert): set<Endpoint> {
    if a.BlockFinished? then {} else PeersOf(l, a.piece).Keys
  }

  /** An alert touches its own piece only, and reads nothing of the others. */
  lemma AppliedIsLocal(l: Ledger, m: Ledger, a: Alert, piece: int)
    ensures piece != a.piece ==> AgreeAt(Applied(l, a), l, piece)
    ensures AgreeAt(l, m, a.piece) ==> AgreeAt(Applied(l, a), Applied(m, a), a.piece)
    ensures Applied(l, a).delta == Credited(l.delta, Paid(l, a), Weight(a))
  {
    CreditNobody(l.delta, Weight(a));
  }

  lemma CreditsCommute(delta: map<Endpoint, int>, s: set<Endpoint>, v: int, t: set<Endpoint>, w: int)
    ensures Credited(Credited(delta, s, v), t, w) == Credited(Credited(delta, t, w), s, v)
  {
  }

  lemma CreditNobody(delta: map<Endpoint, int>, weight: int)
    ensures Credited(delta, {}, weight) == delta
  {
  }

  /** Neighbouring alerts about different pieces can be swapped anywhere in a history. */
  lemma {:induction false} DifferentPiecesCommute(before: seq<Alert>, a: Alert, b: Alert, after: seq<Alert>)
    requires a.piece != b.piece
    ensures AfterHistory(before + [a, b] + after) == AfterHistory(before + [b, a] + after)
  {
    if after == [] {
      AppliedTwice(before, a, b);
      AppliedTwice(before, b, a);
      TwoPiecesCommute(AfterHistory(before), a, b);
      assert before + [a, b] + after == before + [a, b] && before + [b, a] + after == before + [b, a];
    } else {
      var init, last := after[..|after| - 1], after[|after| - 1];
      DifferentPiecesCommute(before, a, b, init);
      var h, h' := before + [a, b] + after, before + [b, a] + after;
      assert h[..|h| - 1] == before + [a, b] + init && h[|h| - 1] == last;
      assert h'[..|h'| - 1] == before + [b, a] + init && h'[|h'| - 1] == last;
    }
  }

  lemma AppliedTwice(h: seq<Alert>, a: Alert, b: Alert)
    ensures AfterHistory(h + [a, b]) == Applied(Applied(AfterHistory(h), a), b)
  {
    var h1, h2 := h + [a], h + [a, b];
    assert h2[..|h2| - 1] == h1 && h2[|h2| - 1] == b;
    assert h1[..|h1| - 1] == h && h1[|h1| - 1] == a;
    assert AfterHistory(h1) == Applied(AfterHistory(h), a);
  }

  lemma TwoPiecesCommute(l: Ledger, a: Alert, b: Alert)
    requires a.piece != b.piece
    ensures Applied(Applied(l, a), b) == Applied(Applied(l, b), a)
  {
    var ab, ba := Applied(Applied(l, a), b), Applied(Applied(l, b), a);
    forall p
      ensures AgreeAt(ab, ba, p)
    {
      AppliedIsLocal(l, Applied(l, a), b, p);
      AppliedIsLocal(l, Applied(l, b), a, p);
      AppliedIsLocal(Applied(l, a), l, b, p);
      AppliedIsLocal(Applied(l, b), l, a, p);
      AppliedIsLocal(l, l, a, b.piece);
      AppliedIsLocal(l, l, b, a.piece);
    }
    AppliedIsLocal(l, l, a, b.piece);
    AppliedIsLocal(l, l, b, a.piece);
    AppliedIsLocal(Applied(l, a), l, b, a.piece);
    AppliedIsLocal(Applied(l, b), l, a, b.piece);
    CreditsCommute(l.delta, Paid(l, a), Weight(a), Paid(l, b), Weight(b));
    SameContributors(ab, ba);
  }

  lemma SameContributors(l: Ledger, m: Ledger)
    requires forall p :: AgreeAt(l, m, p)
    ensures l.contributors == m.contributors
  {
    forall p
      ensures p in l.contributors <==> p in m.contributors
      ensures p in l.contributors ==> l.contributors[p] == m.contributors[p]
    {
      assert AgreeAt(l, m, p);
    }
  }

  /** Ledgers that differ at most in empty entries. */
  ghost predicate SameButEmpty(l: Ledger, m: Ledger) {
    l.delta == m.delta && forall p :: PeersOf(l, p) == PeersOf(m, p)
  }

  lemma SameButEmptyApplied(l: Ledger, m: Ledger, a: Alert)
    requires SameButEmpty(l, m)
    ensures SameButEmpty(Applied(l, a), Applied(m, a))
  {
    CreditNobody(l.delta, Weight(a));
    assert PeersOf(l, a.piece) == PeersOf(m, a.piece);
    forall p
      ensures PeersOf(Applied(l, a), p) == PeersOf(Applied(m, a), p)
    {
      assert PeersOf(l, p) == PeersOf(m, p);
    }
  }

  /** The empty entry left behind by looking up a piece's contributors never changes a later delta. */
  lemma {:induction false} EmptyEntryHarmless(l: Ledger, piece: int, h: seq<Alert>)
    ensures SameButEmpty(AppliedAll(Touched(l, piece), h), AppliedAll(l, h))
  {
    if h != [] {
      EmptyEntryHarmless(l, piece, h[..|h| - 1]);
      SameButEmptyApplied(AppliedAll(Touched(l, piece), h[..|h| - 1]), AppliedAll(l, h[..|h| - 1]), h[|h| - 1]);
    }
  }

  // ----- The tracker as an object -----

  datatype Update = Update(peer: Endpoint, delta: int)

  /** The updates list every entry of the delta map exactly once, in some order. */
  ghost predicate ListsAll(updates: seq<Update>, delta: map<Endpoint, int>) {
    && |updates| == |delta| && NoDuplicates(updates)
    && forall p, d :: Update(p, d) in updates <==> p in delta && delta[p] == d
  }

  class PieceTracker {
    var pieceContributors: map<int, map<Endpoint, set<int>>>
    var peerReputationDelta: map<Endpoint, int>

    ghost function Contents(): Ledger
      reads this
    {
      Ledger(pieceContributors, peerReputationDelta)
    }

    constructor ()
      ensures Contents() == EMPTY_LEDGER
    {
      pieceContributors, peerReputationDelta := map[], map[];
    }

    method AddBlock(piece: int, block: int, peer: Endpoint)
      modifies this`pieceContributors
      ensures Contents() == WithBlock(old(Contents()), piece, block, peer)
    {
      var peers := map[];
      if piece in pieceContributors {
        peers := pieceContributors[piece];
      }
      var blocks := {};
      if peer in peers {
        blocks := peers[peer];
      }
      pieceContributors := pieceContributors[piece := peers[peer := blocks + {block}]];
    }

    /** The loop both verdicts share: every contributor of the piece, in no particular order. */
    method Record(piece: int, weight: int)
      modifies this
      ensures Contents() == Judged(old(Contents()), piece, weight)
    {
      if piece !in pieceContributors {
        return;
      }
      var peers := pieceContributors[piece].Keys;
      var todo := peers;
      CreditNobody(peerReputationDelta, weight);
      while todo != {}
        invariant todo <= peers && pieceContributors == old(pieceContributors)
        invariant peerReputationDelta == Credited(old(peerReputationDelta), peers - todo, weight)
      {
        var p :| p in todo;
        CreditOne(old(peerReputationDelta), peers - (todo - {p}), p, weight);
        assert peers - (todo - {p}) - {p} == peers - todo;
        peerReputationDelta := peerReputationDelta[p := (if p in peerReputationDelta then peerReputationDelta[p] else 0) + weight];
        todo := todo - {p};
      }
      assert peers - {} == peers;
      pieceContributors := pieceContributors - {piece};
    }

    method RecordGoodPiece(piece: int)
      modifies this
      ensures Contents() == Judged(old(Contents()), piece, GOOD_PIECE)
    {
      Record(piece, GOOD_PIECE);
    }

    method RecordBadPiece(piece: int)
      modifies this
      ensures Contents() == Judged(old(Contents()), piece, BAD_PIECE)
    {
      Record(piece, BAD_PIECE);
    }

    method GetPieceContributors(piece: int) returns (peers: seq<Endpoint>)
      modifies this`pieceContributors
      ensures Contents() == Touched(old(Contents()), piece)
      ensures |peers| == |PeersOf(old(Contents()), piece)|
      ensures forall p :: p in peers <==> p in PeersOf(old(Contents()), piece)
    {
      if piece !in pieceContributors {
        pieceContributors := pieceContributors[piece := map[]];
      }
      assert pieceContributors == Touched(old(Contents()), piece).contributors;
      peers := [];
      var todo := pieceContributors[piece].Keys;
      while todo != {}
        invariant todo <= pieceContributors[piece].Keys
        invariant |peers| + |todo| == |pieceContributors[piece].Keys|
        invariant forall p :: p in peers <==> p in pieceContributors[piece].Keys - todo
      {
        var p :| p in todo;
        peers, todo := peers + [p], todo - {p};
      }
    }

    method GetReputationUpdates() returns (updates: seq<Update>)
      ensures ListsAll(updates, peerReputationDelta)
    {
      updates := [];
      var todo := peerReputationDelta.Keys;
      while todo != {}
        invariant todo <= peerReputationDelta.Keys
        invariant |updates| + |todo| == |peerReputationDelta.Keys| && NoDuplicates(updates)
        invariant forall p, d :: Update(p, d) in updates <==>
                    p in peerReputationDelta.Keys - todo && peerReputationDelta[p] == d
      {
        var p :| p in todo;
        updates, todo := updates + [Update(p, peerReputationDelta[p])], todo - {p};
      }
    }
  }
}
