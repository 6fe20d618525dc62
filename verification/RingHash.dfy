/**
 * Placement of keywords on the ring of index nodes: the wrapping 64-bit hash, the window of
 * NUM_REPLICATIONS + 1 nodes that hold a keyword, and the prefix a query is forwarded to.
 */
module RingHash {
  import opened Common

  const NUM_REPLICATIONS: nat := 2
  const TWO_64: nat := 0x1_0000_0000_0000_0000

  /** The value a `char` contributes: bytes from 128 on are negative before they are widened. */
  function SignedChar(c: char): int {
    if 128 <= c as int < 256 then c as int - 256 else c as int
  }

  /** `((hash << 5) + hash) + c` in 64-bit unsigned arithmetic, wrapping at each operation. */
  function HashStep(h: nat, c: char): nat {
    (((h * 32) % TWO_64 + h) % TWO_64 + SignedChar(c)) % TWO_64
  }

  function Hash(keyword: string): nat {
    if keyword == "" then 5381
    else HashStep(Hash(keyword[..|keyword| - 1]), keyword[|keyword| - 1])
  }

  function PrimaryNode(keyword: string, n: nat): (p: nat)
    requires n > 0
    ensures p < n
  {
    Hash(keyword) % n
  }

  method ResponsibleNodeIndex(keyword: string, n: nat) returns (p: nat)
    requires n > 0
    ensures p == PrimaryNode(keyword, n)
    ensures p == (5381 * Pow33(|keyword|) + WeightedSum(keyword)) % 0x1_0000_0000_0000_0000 % n
  {
    HashClosedForm(keyword);
    var hash := 5381;
    for i := 0 to |keyword|
      invariant hash == Hash(keyword[..i])
    {
      assert keyword[..i + 1][..i] == keyword[..i];
      hash := HashStep(hash, keyword[i]);
    }
    assert keyword[..|keyword|] == keyword;
    p := hash % n;
  }

  // ----- Closed form of the hash -----

  function Pow33(k: nat): (p: nat)
    ensures p > 0
  {
    if k == 0 then 1 else 33 * Pow33(k - 1)
  }

  /** Sum of c_i * 33^(len - 1 - i), over the unbounded integers. */
  function WeightedSum(s: string): int {
    if s == "" then 0 else SignedChar(s[0]) * Pow33(|s| - 1) + WeightedSum(s[1..])
  }

  lemma {:induction false} WeightedSumSnoc(s: string, c: char)
    ensures WeightedSum(s + [c]) == WeightedSum(s) * 33 + SignedChar(c)
  {
    if s == "" {
      assert (s + [c])[1..] == "";
      assert Pow33(0) == 1;
    } else {
      assert (s + [c])[1..] == s[1..] + [c];
      WeightedSumSnoc(s[1..], c);
      calc {
        WeightedSum(s + [c]);
        SignedChar(s[0]) * Pow33(|s|) + WeightedSum(s[1..] + [c]);
        SignedChar(s[0]) * (33 * Pow33(|s| - 1)) + WeightedSum(s[1..]) * 33 + SignedChar(c);
        { TimesAssoc(SignedChar(s[0]), Pow33(|s| - 1)); }
        (SignedChar(s[0]) * Pow33(|s| - 1) + WeightedSum(s[1..])) * 33 + SignedChar(c);
      }
    }
  }

  lemma TimesAssoc(a: int, b: int)
    ensures a * (33 * b) == a * b * 33
  {
  }

  /** Reducing a summand first does not change a sum modulo n. */
  lemma ModOfSum(a: int, b: int, n: nat)
    requires n > 0
    ensures (a % n + b) % n == (a + b) % n
  {
    var q, y := a / n, a % n + b;
    assert a == q * n + a % n;
    ModMultiple(q, y, n);
  }

  lemma ModMultiple(k: int, y: int, n: nat)
    requires n > 0
    ensures (k * n + y) % n == y % n
  {
    var q := y / n;
    assert y == q * n + y % n;
    assert k * n + y == (k + q) * n + y % n;
    ModUnique(k * n + y, n, k + q, y % n);
  }

  lemma HashStepMod(x: int, h: nat, c: char)
    requires h == x % TWO_64
    ensures HashStep(h, c) == (x * 33 + SignedChar(c)) % TWO_64
  {
    ModOfSum(h * 32, h, TWO_64);
    ModOfSum(h * 33, SignedChar(c), TWO_64);
    assert HashStep(h, c) == (h * 33 + SignedChar(c)) % TWO_64;
    var q := x / TWO_64;
    assert x * 33 + SignedChar(c) == (33 * q) * TWO_64 + (h * 33 + SignedChar(c));
    ModMultiple(33 * q, h * 33 + SignedChar(c), TWO_64);
  }

  /** The loop equals the polynomial 5381*33^len + sum c_i*33^(len-1-i) modulo 2^64. */
  lemma {:induction false} HashClosedForm(s: string)
    ensures Hash(s) == (5381 * Pow33(|s|) + WeightedSum(s)) % TWO_64
  {
    if s == "" {
    } else {
      var t, c := s[..|s| - 1], s[|s| - 1];
      assert s == t + [c];
      HashClosedForm(t);
      WeightedSumSnoc(t, c);
      HashStepMod(5381 * Pow33(|t|) + WeightedSum(t), Hash(t), c);
    }
  }

  /** Hashing continues from where it stopped: a law for concatenated keywords. */
  lemma {:induction false} HashConcat(a: string, b: string)
    ensures Hash(a + b) == (Hash(a) * Pow33(|b|) + WeightedSum(b)) % TWO_64
  {
    if b == "" {
      assert a + b == a;
      HashClosedForm(a);
    } else {
      var t, c := b[..|b| - 1], b[|b| - 1];
      assert b == t + [c];
      assert (a + b)[..|a + b| - 1] == a + t;
      HashConcat(a, t);
      WeightedSumSnoc(t, c);
      ConcatStep(Hash(a), Pow33(|t|), WeightedSum(t), Hash(a + t), c);
    }
  }

  lemma ConcatStep(h: nat, power: nat, sum: int, before: nat, c: char)
    requires before == (h * power + sum) % TWO_64
    ensures HashStep(before, c) == (h * (33 * power) + (sum * 33 + SignedChar(c))) % TWO_64
  {
    var x := h * power + sum;
    TimesAssoc(h, power);
    assert x * 33 + SignedChar(c) == h * (33 * power) + (sum * 33 + SignedChar(c));
    HashStepMod(x, before, c);
  }

  /** The node of a keyword, from its characters alone. */
  lemma PrimaryClosedForm(s: string, n: nat)
    requires n > 0
    ensures PrimaryNode(s, n) == (5381 * Pow33(|s|) + WeightedSum(s)) % 0x1_0000_0000_0000_0000 % n
  {
    HashClosedForm(s);
  }

  /** The node of a concatenation, from the hash of the first part. */
  lemma PrimaryConcat(a: string, b: string, n: nat)
    requires n > 0
    ensures PrimaryNode(a + b, n) == (Hash(a) * Pow33(|b|) + WeightedSum(b)) % TWO_64 % n
  {
    HashConcat(a, b);
  }

  /** Bytes below 128 count as they are, the others are negative `char`s. */
  lemma SignedBytes(c: char)
    requires c as int < 256
    ensures (c as int < 128 ==> SignedChar(c) == c as int) && (c as int >= 128 ==> SignedChar(c) == c as int - 256)
  {
  }

  lemma BelowWrap(x: int)
    requires 0 <= x < TWO_64
    ensures x % TWO_64 == x
  {
  }

  /** One more character, before anything wraps. */
  lemma SmallStep(s: string, c: char, h: nat)
    requires Hash(s) == h && h * 33 + 256 < 0x1_0000_0000_0000_0000 && h >= 256 && c as int < 256
    ensures Hash(s + [c]) == h * 33 + if c as int < 128 then c as int else c as int - 256
  {
    assert (s + [c])[..|s|] == s;
    SignedBytes(c);
    BelowWrap(h);
    HashStepMod(h, h, c);
    BelowWrap(h * 33 + SignedChar(c));
  }

  /** Reference values: a word, and a byte that is negative as a `char`. */
  lemma SampleHashes()
    ensures Hash("") == 5381
    ensures Hash("dune") == 6385165745 && PrimaryNode("dune", 5) == 0
    ensures Hash([200 as char]) == 177517
  {
    SmallStep("", 'd', 5381);
    assert "" + ['d'] == "d";
    SmallStep("d", 'u', 177673);
    assert "d" + ['u'] == "du";
    SmallStep("du", 'n', 5863326);
    assert "du" + ['n'] == "dun";
    SmallStep("dun", 'e', 193489868);
    assert "dun" + ['e'] == "dune";
    SmallStep("", 200 as char, 5381);
    assert "" + [200 as char] == [200 as char];
  }

  // ----- Who holds a keyword -----

  /** The node i places after p on a ring of n. */
  function Slot(p: nat, i: nat, n: nat): (id: nat)
    requires n > 0
    ensures id < n
  {
    (p + i) % n
  }

  /** The nodes `addTorrent` sends a keyword to, in sending order. */
  function Targets(keyword: string, n: nat): seq<nat>
    requires n > 0
  {
    seq(NUM_REPLICATIONS + 1, i requires 0 <= i <= NUM_REPLICATIONS => Slot(PrimaryNode(keyword, n), i, n))
  }

  /** How far node id lies after node p, going round a ring of n nodes. */
  function ShiftOf(id: nat, p: nat, n: nat): int {
    if p <= id then id - p else id + n - p
  }

  /** Cyclic window membership: node id is at ring distance at most NUM_REPLICATIONS after p. */
  predicate InWindow(id: nat, p: nat, n: nat) {
    ShiftOf(id, p, n) <= NUM_REPLICATIONS
  }

  predicate Responsible(id: nat, keyword: string, n: nat)
    requires n > 0
  {
    InWindow(id, PrimaryNode(keyword, n), n)
  }

  lemma ModOnce(x: nat, n: nat)
    requires 0 < n && x < 2 * n
    ensures x % n == if x < n then x else x - n
  {
    if x >= n {
      assert x == n + (x - n);
      assert x % n == (x - n) % n by { ModSubtract(x, n); }
    }
  }

  lemma ModSubtract(x: nat, n: nat)
    requires 0 < n <= x
    ensures x % n == (x - n) % n
  {
    var q, r := (x - n) / n, (x - n) % n;
    assert x - n == q * n + r;
    assert x == (q + 1) * n + r;
    ModUnique(x, n, q + 1, r);
  }

  lemma ModUnique(x: int, n: nat, q: int, r: nat)
    requires 0 < n && r < n && x == q * n + r
    ensures x % n == r
  {
    var q', r' := x / n, x % n;
    assert x == q' * n + r';
    assert (q - q') * n == r' - r;
    assert (q' - q) * n == r - r';
    if q > q' {
      MulAtLeast(q - q', n);
    } else if q < q' {
      MulAtLeast(q' - q, n);
    }
  }

  lemma MulAtLeast(k: int, n: nat)
    requires k >= 1
    ensures k * n >= n
  {
    assert k * n == n + (k - 1) * n;
    assert (k - 1) * n >= 0;
  }

  /** Shifting round the ring at most NUM_REPLICATIONS places lands in the window, and covers it. */
  lemma WindowByShift(id: nat, p: nat, n: nat)
    requires p < n && id < n
    ensures InWindow(id, p, n) <==> id in [Slot(p, 0, n), Slot(p, 1, n), Slot(p, 2, n)]
  {
    if n > 1 {
      SlotValue(p, 0, n);
      SlotValue(p, 1, n);
      SlotValue(p, 2, n);
    } else {
      assert Slot(p, 0, n) == 0;
    }
  }

  lemma SlotValue(p: nat, i: nat, n: nat)
    requires p < n && i <= n
    ensures Slot(p, i, n) == if p + i < n then p + i else p + i - n
  {
    ModOnce(p + i, n);
  }

  method IsResponsible(id: nat, keyword: string, n: nat) returns (yes: bool)
    requires id < n
    ensures yes <==> Responsible(id, keyword, n)
  {
    var p := ResponsibleNodeIndex(keyword, n);
    WindowByShift(id, p, n);
    for i := 0 to NUM_REPLICATIONS + 1
      invariant forall k :: 0 <= k < i ==> id != Slot(p, k, n)
    {
      if id == Slot(p, i, n) {
        return true;
      }
    }
    return false;
  }

  /** A node holds a keyword iff it is the primary or one of the two nodes after it round the ring. */
  lemma ResponsibleIff(id: nat, keyword: string, n: nat)
    requires id < n
    ensures var p := (5381 * Pow33(|keyword|) + WeightedSum(keyword)) % 0x1_0000_0000_0000_0000 % n;
            Responsible(id, keyword, n) <==> id == p || id == (p + 1) % n || id == (p + 2) % n
  {
    var p := PrimaryNode(keyword, n);
    PrimaryClosedForm(keyword, n);
    WindowByShift(id, p, n);
    ModOnce(p, n);
  }

  /** Write set equals read set: a node is sent a keyword iff it will answer for that keyword. */
  lemma WriteSetIsReadSet(keyword: string, n: nat, id: nat)
    requires n > 0 && id < n
    ensures id in Targets(keyword, n) <==> Responsible(id, keyword, n)
  {
    var p := PrimaryNode(keyword, n);
    WindowByShift(id, p, n);
    assert Targets(keyword, n) == [Slot(p, 0, n), Slot(p, 1, n), Slot(p, 2, n)];
  }

  /** With three or more nodes, a keyword is kept at three distinct nodes. */
  lemma TargetsDistinct(keyword: string, n: nat)
    requires n >= 3
    ensures forall i, j :: 0 <= i < j <= NUM_REPLICATIONS ==> Targets(keyword, n)[i] != Targets(keyword, n)[j]
    ensures forall i :: 0 <= i <= NUM_REPLICATIONS ==> Targets(keyword, n)[i] < n
  {
    var p := PrimaryNode(keyword, n);
    ModOnce(p, n);
    ModOnce(p + 1, n);
    ModOnce(p + 2, n);
  }

  /** The number of distinct holders is min(3, n): with fewer nodes every node is a holder. */
  lemma HolderCount(keyword: string, n: nat)
    requires n > 0
    ensures |set id | 0 <= id < n && Responsible(id, keyword, n)| == if n < 3 then n else 3
  {
    var holders := set id | 0 <= id < n && Responsible(id, keyword, n);
    if n < 3 {
      forall id | 0 <= id < n
        ensures id in holders
      {
        assert Responsible(id, keyword, n);
      }
      assert holders == if n == 1 then {0} else {0, 1};
    } else {
      var ts := Targets(keyword, n);
      TargetsDistinct(keyword, n);
      forall id | 0 <= id < n
        ensures id in holders <==> id in {ts[0], ts[1], ts[2]}
      {
        WriteSetIsReadSet(keyword, n, id);
        assert ts == [ts[0], ts[1], ts[2]];
      }
      assert holders == {ts[0], ts[1], ts[2]};
    }
  }

  /** Any two crashes leave a live node that is responsible for the keyword. */
  lemma TwoCrashesSurvived(keyword: string, n: nat, crashed: set<nat>)
    requires n >= 3 && |crashed| <= 2
    ensures exists id :: 0 <= id < n && id !in crashed && Responsible(id, keyword, n)
  {
    var holders := set id | 0 <= id < n && Responsible(id, keyword, n);
    HolderCount(keyword, n);
    if holders <= crashed {
      SubsetSize(holders, crashed);
      assert false;
    } else {
      var id :| id in holders && id !in crashed;
      assert Responsible(id, keyword, n);
    }
  }

  // ----- Forwarding: the fixed prefix against the cyclic window -----

  /** Some node of the prefix 0..r lies in the window of r + 1 nodes that starts at p. */
  ghost predicate PrefixMeets(p: nat, n: nat, r: nat) {
    exists id: nat :: id <= r && ShiftOf(id, p, n) <= r
  }

  /**
   * A query is forwarded to the nodes 0..r. That prefix meets the window of r + 1 nodes after
   * every primary iff the ring has fewer than 2*(r + 1) nodes.
   */
  lemma PrefixMeetsWindow(n: nat, r: nat)
    requires n > r
    ensures (forall p: nat :: p < n ==> PrefixMeets(p, n, r)) <==> n < 2 * (r + 1)
  {
    if n < 2 * (r + 1) {
      forall p: nat | p < n
        ensures PrefixMeets(p, n, r)
      {
        assert ShiftOf(if p <= r then p else 0, p, n) <= r;
      }
    } else {
      assert !PrefixMeets(r + 1, n, r);
    }
  }

  /** The nodes a forwarding node sends to; it leaves itself out. */
  predicate ForwardedTo(i: nat, self: nat) {
    i <= NUM_REPLICATIONS && i != self
  }

  /** A node that forwards is on a ring of at least four, so the nodes 0..2 exist. */
  lemma ForwardingNeedsFourNodes(self: nat, keyword: string, n: nat)
    requires self < n && !Responsible(self, keyword, n)
    ensures n >= 4
  {
  }

  /** On a ring of n nodes every forwarded query reaches a responsible node iff n <= 5. */
  lemma ForwardingReachesReplica(n: nat)
    requires n > 0
    ensures (forall self: nat, keyword :: self < n && !Responsible(self, keyword, n)
              ==> SomeReplicaForwardedTo(self, keyword, n))
       <==> n <= 5
  {
    if n <= 5 {
      forall self: nat, keyword | self < n && !Responsible(self, keyword, n)
        ensures SomeReplicaForwardedTo(self, keyword, n)
      {
        PrefixMeetsWindow(n, NUM_REPLICATIONS);
        var p := PrimaryNode(keyword, n);
        assert PrefixMeets(p, n, NUM_REPLICATIONS);
        var id: nat :| id <= NUM_REPLICATIONS && ShiftOf(id, p, n) <= NUM_REPLICATIONS;
        assert ForwardedTo(id, self) && Responsible(id, keyword, n);
      }
    } else {
      var keyword := LetterOffPrefix(n);
      assert !Responsible(0, keyword, n);
      assert !SomeReplicaForwardedTo(0, keyword, n);
    }
  }

  ghost predicate SomeReplicaForwardedTo(self: nat, keyword: string, n: nat)
    requires n > 0
  {
    exists i: nat :: ForwardedTo(i, self) && i < n && Responsible(i, keyword, n)
  }

  /** For each ring of six or more some one-letter keyword is held by none of the nodes 0..2. */
  lemma LetterOffPrefix(n: nat) returns (keyword: string)
    requires n >= 6
    ensures 3 <= PrimaryNode(keyword, n) <= n - 3
  {
    var base := 5381 * 33 + 97;
    var shift := ShiftToMiddle(base, n);
    keyword := [(97 + shift) as char];
    OneLetterHash(keyword);
  }

  lemma OneLetterHash(w: string)
    requires |w| == 1 && 97 <= w[0] as int <= 122
    ensures Hash(w) == 5381 * 33 + w[0] as int
  {
    assert w[..0] == "";
  }

  /** Of six consecutive numbers one has a remainder away from both ends. */
  lemma ShiftToMiddle(base: nat, n: nat) returns (shift: nat)
    requires n >= 6
    ensures shift <= 5 && 3 <= (base + shift) % n <= n - 3
  {
    var q, b := base / n, base % n;
    assert base == q * n + b;
    if b <= 2 {
      shift := 3 - b;
      ModUnique(base + shift, n, q, 3);
    } else if b <= n - 3 {
      shift := 0;
    } else {
      shift := 3 + n - b;
      assert base + shift == (q + 1) * n + 3;
      ModUnique(base + shift, n, q + 1, 3);
    }
  }
}
