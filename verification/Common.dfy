/** Values shared by every part of the model: addresses and small sequence facts. */
module Common {

  datatype Option<+T> = None | Some(value: T)

  /** A TCP endpoint: an IPv4 address in text form and a port. */
  datatype Endpoint = Endpoint(ip: string, port: nat)

  /** Decimal rendering of a port or a time stamp, as `std::to_string` gives it. */
  function Decimal(n: nat): string {
    if n < 10 then [(n + '0' as nat) as char] else Decimal(n / 10) + Decimal(n % 10)
  }

  /** The number a decimal numeral stands for. */
  function ValueOf(s: string): int {
    if s == "" then 0 else 10 * ValueOf(s[..|s| - 1]) + (s[|s| - 1] as int - 48)
  }

  /** Decimal numerals are digits and stand for their number, so different numbers have different numerals. */
  lemma {:induction false} DecimalValue(n: nat)
    ensures ValueOf(Decimal(n)) == n && Decimal(n) != ""
    ensures forall i :: 0 <= i < |Decimal(n)| ==> '0' <= Decimal(n)[i] <= '9'
  {
    if n >= 10 {
      DecimalValue(n / 10);
      assert Decimal(n)[..|Decimal(n)| - 1] == Decimal(n / 10);
    }
  }

  lemma DecimalInjective(a: nat, b: nat)
    requires Decimal(a) == Decimal(b)
    ensures a == b
  {
    DecimalValue(a);
    DecimalValue(b);
  }

  lemma SameTail(p: string, a: string, b: string)
    requires p + a == p + b
    ensures a == b
  {
    assert a == (p + a)[|p|..] && b == (p + b)[|p|..];
  }

  function Elements<T(==)>(s: seq<T>): set<T> {
    set x | x in s
  }

  ghost predicate NoDuplicates<T(!new)>(s: seq<T>) {
    forall i, j :: 0 <= i < j < |s| ==> s[i] != s[j]
  }

  lemma CountOfFew<T>(s: seq<T>, x: T)
    requires |s| <= 1
    ensures multiset(s)[x] == if x in s then 1 else 0
  {
    if s != [] {
      assert s == [s[0]];
    }
  }

  /** The sequence without position k. */
  function Without<T>(s: seq<T>, k: nat): seq<T>
    requires k < |s|
  {
    s[..k] + s[k + 1..]
  }

  lemma WithoutElements<T>(s: seq<T>, k: nat)
    requires k < |s|
    ensures forall x :: x in Without(s, k) ==> x in s
    ensures forall x :: x in s ==> x == s[k] || x in Without(s, k)
    ensures multiset(s) == multiset(Without(s, k)) + multiset{s[k]}
  {
    assert s == s[..k] + [s[k]] + s[k + 1..];
    forall x | x in s
      ensures x == s[k] || x in Without(s, k)
    {
      var j :| 0 <= j < |s| && s[j] == x;
      if j < k {
        assert Without(s, k)[j] == x;
      } else if j > k {
        assert Without(s, k)[j - 1] == x;
      }
    }
  }

  lemma Associate<T>(a: seq<T>, b: seq<T>, c: seq<T>)
    ensures a + b + c == a + (b + c)
  {
  }

  lemma WithoutMultiset<T>(s: seq<T>, k: nat)
    requires k < |s|
    ensures multiset(Without(s, k)) == multiset(s) - multiset{s[k]}
  {
    WithoutElements(s, k);
  }

  lemma SubsetSize<T>(a: set<T>, b: set<T>)
    requires a <= b
    ensures |a| <= |b|
  {
    assert b == a + (b - a);
  }

  /** What a function lists for each element, in order. */
  function FlatMap<A, B>(f: A -> seq<B>, s: seq<A>): seq<B> {
    if s == [] then [] else FlatMap(f, s[..|s| - 1]) + f(s[|s| - 1])
  }

  lemma FlatMapSnoc<A, B>(f: A -> seq<B>, s: seq<A>, x: A)
    ensures FlatMap(f, s + [x]) == FlatMap(f, s) + f(x)
  {
    assert (s + [x])[..|s|] == s;
  }

  lemma {:induction false} FlatMapAppend<A, B>(f: A -> seq<B>, a: seq<A>, b: seq<A>)
    ensures FlatMap(f, a + b) == FlatMap(f, a) + FlatMap(f, b)
    decreases b
  {
    if b == [] {
      assert a + b == a;
    } else {
      FlatMapAppend(f, a, b[..|b| - 1]);
      assert (a + b)[..|a + b| - 1] == a + b[..|b| - 1];
    }
  }
}
