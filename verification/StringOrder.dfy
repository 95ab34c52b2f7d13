/** The order in which the program sorts names: by code point, shorter prefix first. */
module StringOrder {

  predicate Less(a: string, b: string) {
    if b == [] then false
    else if a == [] then true
    else if a[0] != b[0] then a[0] < b[0]
    else Less(a[1..], b[1..])
  }

  /** The first difference decides, by character; a proper prefix comes first. */
  ghost predicate LessAt(a: string, b: string, k: nat) {
    k <= |a| && k < |b| && a[..k] == b[..k] && (k == |a| || a[k] < b[k])
  }

  lemma {:induction false} LessMeans(a: string, b: string)
    ensures Less(a, b) <==> exists k: nat :: LessAt(a, b, k)
  {
    if b != [] {
      if a == [] || a[0] != b[0] {
        assert LessAt(a, b, 0) <==> Less(a, b);
        if k: nat :| k > 0 && LessAt(a, b, k) { FirstSame(a, b, k); }
      } else {
        LessMeans(a[1..], b[1..]);
        if k: nat :| LessAt(a[1..], b[1..], k) {
          assert a[..k + 1] == [a[0]] + a[1..][..k] && b[..k + 1] == [b[0]] + b[1..][..k];
          assert LessAt(a, b, k + 1);
        }
        if k: nat :| LessAt(a, b, k) {
          assert a[1..][..k - 1] == a[..k][1..] && b[1..][..k - 1] == b[..k][1..];
          assert LessAt(a[1..], b[1..], k - 1);
        }
      }
    }
  }

  lemma FirstSame(a: string, b: string, k: nat)
    requires k > 0 && LessAt(a, b, k)
    ensures a != [] && b != [] && a[0] == b[0]
  {
    assert a[..k][0] == b[..k][0];
  }

  lemma {:induction false} LessTotal(a: string, b: string)
    ensures a == b || Less(a, b) || Less(b, a)
  {
    if a != [] && b != [] && a[0] == b[0] {
      LessTotal(a[1..], b[1..]);
      assert a == [a[0]] + a[1..] && b == [b[0]] + b[1..];
    }
  }

  lemma {:induction false} LessTransitive(a: string, b: string, c: string)
    requires Less(a, b) && Less(b, c)
    ensures Less(a, c)
  {
    if a != [] && a[0] == b[0] && b[0] == c[0] {
      LessTransitive(a[1..], b[1..], c[1..]);
    }
  }

  lemma {:induction false} LessAsymmetric(a: string, b: string)
    requires Less(a, b)
    ensures !Less(b, a) && a != b
  {
    if a != [] && a[0] == b[0] {
      LessAsymmetric(a[1..], b[1..]);
    }
  }

  ghost predicate Ascending(s: seq<string>) {
    forall i, j :: 0 <= i < j < |s| ==> Less(s[i], s[j])
  }

  ghost predicate IsLeast(m: string, s: set<string>) {
    m in s && forall x :: x in s && x != m ==> Less(m, x)
  }

  lemma {:induction false} LeastExists(s: set<string>)
    requires s != {}
    ensures exists m :: IsLeast(m, s)
  {
    var x :| x in s;
    if s == {x} {
      assert IsLeast(x, s);
    } else {
      LeastExists(s - {x});
      var rest :| IsLeast(rest, s - {x});
      LessTotal(x, rest);
      if Less(x, rest) {
        forall y | y in s && y != x ensures Less(x, y) {
          if y != rest { LessTransitive(x, rest, y); }
        }
        assert IsLeast(x, s);
      } else {
        assert IsLeast(rest, s);
      }
    }
  }

  /** The members of a set in ascending order. */
  ghost function Sorted(s: set<string>): (r: seq<string>)
    ensures Ascending(r) && |r| == |s|
    ensures forall x :: x in r <==> x in s
  {
    if s == {} then [] else
      LeastExists(s);
      var m :| IsLeast(m, s);
      [m] + Sorted(s - {m})
  }

  lemma {:induction false} SortedUnique(a: seq<string>, b: seq<string>)
    requires Ascending(a) && Ascending(b)
    requires forall x :: x in a <==> x in b
    ensures a == b
  {
    assert b != [] ==> b[0] in b;
    if a != [] {
      assert a[0] in a;
      var i :| 0 <= i < |b| && b[i] == a[0];
      var j :| 0 <= j < |a| && a[j] == b[0];
      if i > 0 {
        assert Less(b[0], a[0]);
        LessAsymmetric(b[0], a[0]);
      }
      forall x ensures x in a[1..] <==> x in b[1..] {
        TailMembers(a, x);
        TailMembers(b, x);
      }
      SortedUnique(a[1..], b[1..]);
      assert a == [a[0]] + a[1..] && b == [b[0]] + b[1..];
    }
  }

  lemma TailMembers(a: seq<string>, x: string)
    requires Ascending(a) && a != []
    ensures x in a[1..] <==> x in a && x != a[0]
  {
    if x in a[1..] {
      var k :| 0 <= k < |a[1..]| && a[1..][k] == x;
      LessAsymmetric(a[0], a[k + 1]);
    }
  }

  /** The members of a set, sorted. */
  method SortSet(s: set<string>) returns (r: seq<string>)
    ensures r == Sorted(s)
  {
    r := [];
    var rest := s;
    while rest != {}
      invariant rest <= s && Ascending(r) && forall x :: x in r <==> x in s && x !in rest
      decreases |rest|
    {
      var x :| x in rest;
      var k := 0;
      while k < |r| && Less(r[k], x)
        invariant k <= |r| && forall i :: 0 <= i < k ==> Less(r[i], x)
      {
        k := k + 1;
      }
      InsertAt(r, k, x);
      r, rest := r[..k] + [x] + r[k..], rest - {x};
    }
    SortedUnique(r, Sorted(s));
  }

  lemma InsertAt(r: seq<string>, k: nat, x: string)
    requires Ascending(r) && k <= |r| && x !in r
    requires forall i :: 0 <= i < k ==> Less(r[i], x)
    requires k < |r| ==> !Less(r[k], x)
    ensures Ascending(r[..k] + [x] + r[k..])
    ensures forall y :: y in r[..k] + [x] + r[k..] <==> y in r || y == x
  {
    var r' := r[..k] + [x] + r[k..];
    assert r == r[..k] + r[k..];
    forall i | k <= i < |r| ensures Less(x, r[i]) {
      LessTotal(r[k], x);
      if i > k { LessTransitive(x, r[k], r[i]); }
    }
    forall i, j | 0 <= i < j < |r'| ensures Less(r'[i], r'[j]) {
      assert i < k ==> r'[i] == r[i];
      assert j > k ==> r'[j] == r[j - 1];
      assert i > k ==> r'[i] == r[i - 1];
      assert j < k ==> r'[j] == r[j];
    }
  }

  // --------------------------------------------------------------------
  // Sorting pairs, by name and then by text

  type Pair = (string, string)

  predicate PairLess(a: Pair, b: Pair) {
    Less(a.0, b.0) || (a.0 == b.0 && Less(a.1, b.1))
  }

  function InsertPair(b: seq<Pair>, x: Pair): (r: seq<Pair>)
    ensures multiset(r) == multiset(b) + multiset{x}
  {
    if b == [] then [x]
    else if PairLess(b[0], x) then
      assert b == [b[0]] + b[1..];
      [b[0]] + InsertPair(b[1..], x)
    else [x] + b
  }

  function SortPairs(b: seq<Pair>): (r: seq<Pair>)
    ensures multiset(r) == multiset(b)
  {
    if b == [] then []
    else
      assert b == [b[0]] + b[1..];
      InsertPair(SortPairs(b[1..]), b[0])
  }

  ghost predicate DistinctNames(b: seq<Pair>) {
    forall i, j :: 0 <= i < j < |b| ==> b[i].0 != b[j].0
  }

  ghost predicate AscendingNames(b: seq<Pair>) {
    forall i, j :: 0 <= i < j < |b| ==> Less(b[i].0, b[j].0)
  }

  lemma AscendingDistinct(b: seq<Pair>, i: nat, j: nat)
    requires AscendingNames(b) && i < j < |b|
    ensures b[i].0 != b[j].0
  {
    if b[i].0 == b[j].0 { LessAsymmetric(b[i].0, b[j].0); }
  }

  lemma {:induction false} InsertAscends(b: seq<Pair>, x: Pair)
    requires AscendingNames(b) && forall y :: y in b ==> y.0 != x.0
    ensures AscendingNames(InsertPair(b, x))
  {
    if b != [] {
      LessTotal(b[0].0, x.0);
      var r := InsertPair(b, x);
      if PairLess(b[0], x) {
        InsertAscends(b[1..], x);
        forall j | 0 < j < |r| ensures Less(r[0].0, r[j].0) {
          assert r[j] in multiset(b[1..]) + multiset{x} by { assert r[j] == r[1..][j - 1]; }
        }
      } else {
        forall j | 0 < j < |r| ensures Less(x.0, r[j].0) {
          if j > 1 { LessTransitive(x.0, b[0].0, b[j - 1].0); }
        }
      }
    }
  }

  /** Pairs with distinct names come out in strictly ascending order of names. */
  lemma {:induction false} SortAscends(b: seq<Pair>)
    requires DistinctNames(b)
    ensures AscendingNames(SortPairs(b))
  {
    if b != [] {
      SortAscends(b[1..]);
      forall y | y in SortPairs(b[1..]) ensures y.0 != b[0].0 {
        assert y in multiset(b[1..]);
        var i :| 0 <= i < |b[1..]| && b[1..][i] == y;
      }
      InsertAscends(SortPairs(b[1..]), b[0]);
    }
  }
}
