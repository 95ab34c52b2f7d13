/** The greedy test sharder (scripts/run_ci_tests.py:27-42). */
module Sharder {
  import StringOrder

  datatype File = File(path: string, size: nat)

  /** Largest first, then by path. */
  predicate Before(x: File, y: File) {
    x.size > y.size || (x.size == y.size && StringOrder.Less(x.path, y.path))
  }

  ghost predicate Descending(f: seq<File>) {
    forall i, j :: 0 <= i < j < |f| ==> f[i].size >= f[j].size
  }

  /** Largest first, and of the same size by path. */
  ghost predicate Sorted(f: seq<File>) {
    forall i, j :: 0 <= i < j < |f| ==>
      f[i].size > f[j].size || (f[i].size == f[j].size && StringOrder.Less(f[i].path, f[j].path))
  }

  ghost predicate DistinctPaths(f: seq<File>) {
    forall i, j :: 0 <= i < j < |f| ==> f[i].path != f[j].path
  }

  // --------------------------------------------------------------------
  // Assignments: a[i] is the shard of file i

  type Assignment = seq<nat>

  /** The load of shard s after the first n files. */
  ghost function Load(a: Assignment, f: seq<File>, n: nat, s: nat): nat
    requires n <= |a| && n <= |f|
  {
    if n == 0 then 0 else Load(a, f, n - 1, s) + (if a[n - 1] == s then f[n - 1].size else 0)
  }

  ghost function Count(a: Assignment, n: nat, s: nat): nat
    requires n <= |a|
  {
    if n == 0 then 0 else Count(a, n - 1, s) + (if a[n - 1] == s then 1 else 0)
  }

  ghost function Total(f: seq<File>, n: nat): nat
    requires n <= |f|
  {
    if n == 0 then 0 else Total(f, n - 1) + f[n - 1].size
  }

  ghost predicate Within(a: Assignment, f: seq<File>, m: nat) {
    |a| == |f| && forall i :: 0 <= i < |a| ==> a[i] < m
  }

  /** No shard's load is over t. */
  ghost predicate Fits(a: Assignment, f: seq<File>, m: nat, t: nat) {
    Within(a, f, m) && forall s :: 0 <= s < m ==> Load(a, f, |f|, s) <= t
  }

  /** Each file goes to a shard that was then the lightest. */
  ghost predicate Greedy(a: Assignment, f: seq<File>, m: nat) {
    Within(a, f, m) && forall k :: 0 <= k < |f| ==> Lightest(a, f, m, k)
  }

  ghost predicate Lightest(a: Assignment, f: seq<File>, m: nat, k: nat)
    requires k < |a| && k < |f|
  {
    forall s :: 0 <= s < m ==> Load(a, f, k, a[k]) <= Load(a, f, k, s)
  }

  /** Of the lightest shards, each file went to the first. */
  ghost predicate FirstOfEquals(a: Assignment, f: seq<File>)
    requires |a| == |f|
  {
    forall k, s :: 0 <= k < |f| && 0 <= s < a[k] ==> Heavier(a, f, k, s)
  }

  ghost predicate Heavier(a: Assignment, f: seq<File>, k: nat, s: nat)
    requires k < |a| && k < |f|
  {
    Load(a, f, k, s) > Load(a, f, k, a[k])
  }

  // --------------------------------------------------------------------
  // Sums

  ghost function LoadSum(a: Assignment, f: seq<File>, n: nat, m: nat): nat
    requires n <= |a| && n <= |f|
  {
    if m == 0 then 0 else LoadSum(a, f, n, m - 1) + Load(a, f, n, m - 1)
  }

  lemma {:induction false} LoadSumStep(a: Assignment, f: seq<File>, n: nat, m: nat)
    requires 0 < n <= |a| && n <= |f|
    ensures LoadSum(a, f, n, m) == LoadSum(a, f, n - 1, m) + (if a[n - 1] < m then f[n - 1].size else 0)
    decreases m
  {
    if m > 0 { LoadSumStep(a, f, n, m - 1); }
  }

  lemma {:induction false} LoadsAreTotal(a: Assignment, f: seq<File>, n: nat, m: nat)
    requires n <= |a| && n <= |f| && forall i :: 0 <= i < n ==> a[i] < m
    ensures LoadSum(a, f, n, m) == Total(f, n)
  {
    if n == 0 {
      NoLoad(a, f, m);
    } else {
      LoadSumStep(a, f, n, m);
      LoadsAreTotal(a, f, n - 1, m);
    }
  }

  lemma {:induction false} NoLoad(a: Assignment, f: seq<File>, m: nat)
    ensures LoadSum(a, f, 0, m) == 0
  {
    if m > 0 { NoLoad(a, f, m - 1); }
  }

  /** The lightest load times the number of shards is at most the total. */
  lemma {:induction false} LightestTimes(a: Assignment, f: seq<File>, n: nat, m: nat, least: nat)
    requires n <= |a| && n <= |f| && forall s :: 0 <= s < m ==> least <= Load(a, f, n, s)
    ensures m * least <= LoadSum(a, f, n, m)
  {
    if m > 0 {
      LightestTimes(a, f, n, m - 1, least);
      assert m * least == (m - 1) * least + least;
    }
  }

  lemma {:induction false} HeaviestTimes(a: Assignment, f: seq<File>, n: nat, m: nat, most: nat)
    requires n <= |a| && n <= |f| && forall s :: 0 <= s < m ==> Load(a, f, n, s) <= most
    ensures LoadSum(a, f, n, m) <= m * most
  {
    if m > 0 {
      HeaviestTimes(a, f, n, m - 1, most);
      assert m * most == (m - 1) * most + most;
    }
  }

  lemma {:induction false} LoadGrows(a: Assignment, f: seq<File>, n: nat, k: nat, s: nat)
    requires n <= k <= |a| && k <= |f|
    ensures Load(a, f, n, s) <= Load(a, f, k, s)
    decreases k
  {
    if n < k { LoadGrows(a, f, n, k - 1, s); }
  }

  lemma {:induction false} TotalGrows(f: seq<File>, n: nat, k: nat)
    requires n <= k <= |f|
    ensures Total(f, n) <= Total(f, k)
    decreases k
  {
    if n < k { TotalGrows(f, n, k - 1); }
  }

  /** In a greedy assignment the lightest shard takes each file. */
  lemma GreedyLight(a: Assignment, f: seq<File>, m: nat, k: nat)
    requires Greedy(a, f, m) && k < |f|
    ensures m * Load(a, f, k, a[k]) <= Total(f, k)
  {
    assert Lightest(a, f, m, k);
    LightestTimes(a, f, k, m, Load(a, f, k, a[k]));
    LoadsAreTotal(a, f, k, m);
  }

  // --------------------------------------------------------------------
  // The list-scheduling bound

  lemma BoundStep(m: nat, load: nat, p: nat, total: nat, largest: nat)
    requires m > 0 && m * load <= total && p <= largest
    ensures m * (load + p) <= total + p + (m - 1) * largest
  {
    assert m * (load + p) == m * load + m * p;
    assert m * p == p + (m - 1) * p;
    MulMonotone(m - 1, p, largest);
  }

  lemma MulMonotone(m: nat, p: nat, q: nat)
    requires p <= q
    ensures m * p <= m * q
  {
  }

  /** m times any load is at most the total plus m - 1 times the largest file. */
  lemma {:induction false} GreedyBound(a: Assignment, f: seq<File>, m: nat, largest: nat, n: nat, s: nat)
    requires Greedy(a, f, m) && n <= |f| && s < m && forall i :: 0 <= i < |f| ==> f[i].size <= largest
    ensures m * Load(a, f, n, s) <= Total(f, n) + (m - 1) * largest
    decreases n
  {
    hide Lightest;
    if n == 0 {
      MulMonotone(m - 1, 0, largest);
    } else {
      GreedyBound(a, f, m, largest, n - 1, s);
      if a[n - 1] == s {
        GreedyLight(a, f, m, n - 1);
        BoundStep(m, Load(a, f, n - 1, s), f[n - 1].size, Total(f, n - 1), largest);
      }
    }
  }

  // --------------------------------------------------------------------
  // When every file is over a third of what is possible, greedy does what is possible

  /** Each of the first n files is more than a third of t. */
  ghost predicate AllBig(f: seq<File>, n: nat, t: nat) {
    n <= |f| && forall i :: 0 <= i < n ==> 3 * f[i].size > t
  }

  lemma {:induction false} BigLoad(a: Assignment, f: seq<File>, n: nat, t: nat, s: nat)
    requires AllBig(f, n, t) && n <= |a|
    ensures 3 * Load(a, f, n, s) >= Count(a, n, s) * (t + 1)
  {
    if n > 0 {
      BigLoad(a, f, n - 1, t, s);
      assert (Count(a, n - 1, s) + 1) * (t + 1) == Count(a, n - 1, s) * (t + 1) + (t + 1);
    }
  }

  /** A shard within t holds at most two big files. */
  lemma AtMostTwo(a: Assignment, f: seq<File>, n: nat, t: nat, s: nat)
    requires AllBig(f, n, t) && n <= |a| && Load(a, f, n, s) <= t
    ensures Count(a, n, s) <= 2
  {
    BigLoad(a, f, n, t, s);
  }

  ghost function CountSum(a: Assignment, n: nat, m: nat): nat
    requires n <= |a|
  {
    if m == 0 then 0 else CountSum(a, n, m - 1) + Count(a, n, m - 1)
  }

  lemma {:induction false} CountSumStep(a: Assignment, n: nat, m: nat)
    requires 0 < n <= |a|
    ensures CountSum(a, n, m) == CountSum(a, n - 1, m) + (if a[n - 1] < m then 1 else 0)
    decreases m
  {
    if m > 0 { CountSumStep(a, n, m - 1); }
  }

  lemma {:induction false} CountsAreAll(a: Assignment, n: nat, m: nat)
    requires n <= |a| && forall i :: 0 <= i < n ==> a[i] < m
    ensures CountSum(a, n, m) == n
  {
    if n == 0 {
      NoCount(a, m);
    } else {
      CountSumStep(a, n, m);
      CountsAreAll(a, n - 1, m);
    }
  }

  lemma {:induction false} NoCount(a: Assignment, m: nat)
    ensures CountSum(a, 0, m) == 0
  {
    if m > 0 { NoCount(a, m - 1); }
  }

  /** The shards that hold one file. */
  ghost function Singles(a: Assignment, n: nat, m: nat): set<nat>
    requires n <= |a|
  {
    set s: nat | s < m && Count(a, n, s) == 1
  }

  lemma {:induction false} SinglesCount(a: Assignment, n: nat, m: nat)
    requires n <= |a| && forall s :: 0 <= s < m ==> Count(a, n, s) <= 2
    ensures CountSum(a, n, m) + |Singles(a, n, m)| <= 2 * m
    ensures (forall s :: 0 <= s < m ==> Count(a, n, s) >= 1) ==> CountSum(a, n, m) + |Singles(a, n, m)| == 2 * m
    decreases m
  {
    if m == 0 {
      assert Singles(a, n, 0) == {};
    } else {
      SinglesCount(a, n, m - 1);
      var fewer := Singles(a, n, m - 1);
      if Count(a, n, m - 1) == 1 {
        assert Singles(a, n, m) == fewer + {m - 1};
      } else {
        assert Singles(a, n, m) == fewer;
      }
    }
  }

  /** The one file of a shard that holds one. */
  ghost function FileOn(a: Assignment, n: nat, s: nat): (i: nat)
    requires n <= |a| && Count(a, n, s) == 1
    ensures i < n && a[i] == s
  {
    if a[n - 1] == s then n - 1 else FileOn(a, n - 1, s)
  }

  /** A file alone on its shard is that shard's whole load. */
  lemma {:induction false} AloneLoad(a: Assignment, f: seq<File>, n: nat, s: nat)
    requires n <= |a| && n <= |f| && Count(a, n, s) == 1
    ensures Load(a, f, n, s) == f[FileOn(a, n, s)].size
    decreases n
  {
    if a[n - 1] == s { EmptyLoad(a, f, n - 1, s); } else { AloneLoad(a, f, n - 1, s); }
  }

  lemma {:induction false} EmptyLoad(a: Assignment, f: seq<File>, n: nat, s: nat)
    requires n <= |a| && n <= |f| && Count(a, n, s) == 0
    ensures Load(a, f, n, s) == 0
  {
    if n > 0 { EmptyLoad(a, f, n - 1, s); }
  }

  /** Where a file's shard holds two files, its load is at least this one and another. */
  lemma {:induction false} WithAnother(a: Assignment, f: seq<File>, n: nat, i: nat, least: nat)
    requires i < n <= |a| && n <= |f| && (forall k :: 0 <= k < n ==> f[k].size >= least)
    ensures Count(a, n, a[i]) >= 1
    ensures Count(a, n, a[i]) >= 2 ==> Load(a, f, n, a[i]) >= f[i].size + least
    ensures Load(a, f, n, a[i]) >= f[i].size
    decreases n
  {
    if i == n - 1 {
      if Count(a, n - 1, a[i]) >= 1 { SomeLoad(a, f, n - 1, a[i], least); }
    } else {
      WithAnother(a, f, n - 1, i, least);
    }
  }

  lemma {:induction false} SomeLoad(a: Assignment, f: seq<File>, n: nat, s: nat, least: nat)
    requires n <= |a| && n <= |f| && (forall k :: 0 <= k < n ==> f[k].size >= least) && Count(a, n, s) >= 1
    ensures Load(a, f, n, s) >= least
    decreases n
  {
    if a[n - 1] != s { SomeLoad(a, f, n - 1, s, least); }
  }

  /** Two files alone on the same shard are the same file. */
  lemma {:induction false} AloneUnique(a: Assignment, n: nat, i: nat, k: nat)
    requires i < k < n <= |a| && a[i] == a[k]
    ensures Count(a, n, a[i]) >= 2
    decreases n
  {
    if k < n - 1 { AloneUnique(a, n - 1, i, k); } else { HasOne(a, n - 1, i); }
  }

  lemma {:induction false} HasOne(a: Assignment, n: nat, i: nat)
    requires i < n <= |a|
    ensures Count(a, n, a[i]) >= 1
  {
    if i < n - 1 { HasOne(a, n - 1, i); }
  }

  lemma {:induction false} InjectionCard(from: set<nat>, to: set<nat>, image: map<nat, nat>)
    requires image.Keys == from && forall x :: x in from ==> image[x] in to
    requires forall x, y :: x in from && y in from && image[x] == image[y] ==> x == y
    ensures |from| <= |to|
  {
    if from != {} {
      var x :| x in from;
      InjectionCard(from - {x}, to - {image[x]}, image - {x});
    }
  }

  /** A file alone in the greedy assignment cannot share a shard in one that fits. */
  lemma AloneThere(a: Assignment, f: seq<File>, m: nat, b: Assignment, t: nat, k: nat, s: nat)
    requires Within(a, f, m) && Descending(f) && Fits(b, f, m, t) && k < |f| && s < m
    requires Count(a, k, s) == 1 && Load(a, f, k, s) + f[k].size > t
    ensures Count(b, k + 1, b[FileOn(a, k, s)]) == 1
  {
    var i := FileOn(a, k, s);
    AloneLoad(a, f, k, s);
    WithAnother(b, f, k + 1, i, f[k].size);
    LoadGrows(b, f, k + 1, |f|, b[i]);
  }

  /** Fewer shards hold one file in the greedy assignment than in one that fits. */
  lemma SinglesInject(a: Assignment, f: seq<File>, m: nat, b: Assignment, t: nat, k: nat)
    requires Within(a, f, m) && Descending(f) && Fits(b, f, m, t) && k < |f|
    requires forall s :: 0 <= s < m ==> Load(a, f, k, s) + f[k].size > t
    ensures |Singles(a, k, m)| <= |Singles(b, k + 1, m)|
  {
    hide Load;
    var from, to := Singles(a, k, m), Singles(b, k + 1, m);
    var image: map<nat, nat> := map s | s in from :: b[FileOn(a, k, s)];
    forall s | s in from ensures image[s] in to { AloneThere(a, f, m, b, t, k, s); }
    forall s, s' | s in from && s' in from && image[s] == image[s'] ensures s == s' {
      var i, i' := FileOn(a, k, s), FileOn(a, k, s');
      AloneThere(a, f, m, b, t, k, s);
      if i < i' { AloneUnique(b, k + 1, i, i'); } else if i' < i { AloneUnique(b, k + 1, i', i); }
    }
    InjectionCard(from, to, image);
  }

  /** Greedy never overshoots what fits while all files are big. */
  lemma NoOvershoot(a: Assignment, f: seq<File>, m: nat, b: Assignment, t: nat, k: nat)
    requires Greedy(a, f, m) && Descending(f) && Fits(b, f, m, t) && k < |f| && AllBig(f, k + 1, t)
    requires forall s :: 0 <= s < m ==> Load(a, f, k, s) <= t
    ensures Load(a, f, k, a[k]) + f[k].size <= t
  {
    hide Load, Count;
    if Load(a, f, k, a[k]) + f[k].size > t {
      WithAnother(b, f, k + 1, k, 0);
      LoadGrows(b, f, k + 1, |f|, b[k]);
      assert Lightest(a, f, m, k);
      forall s | 0 <= s < m ensures 1 <= Count(a, k, s) <= 2 {
        AtMostTwo(a, f, k, t, s);
        if Count(a, k, s) == 0 { EmptyLoad(a, f, k, s); }
      }
      var n := k + 1;
      forall s | 0 <= s < m ensures Count(b, n, s) <= 2 {
        LoadGrows(b, f, k + 1, |f|, s);
        AtMostTwo(b, f, k + 1, t, s);
      }
      SinglesCount(a, k, m);
      CountsAreAll(a, k, m);
      SinglesCount(b, k + 1, m);
      CountsAreAll(b, k + 1, m);
      SinglesInject(a, f, m, b, t, k);
      assert false;
    }
  }

  lemma {:induction false} BigGreedyFits(a: Assignment, f: seq<File>, m: nat, b: Assignment, t: nat, n: nat, s: nat)
    requires Greedy(a, f, m) && Descending(f) && Fits(b, f, m, t) && n <= |f| && AllBig(f, n, t) && s < m
    ensures Load(a, f, n, s) <= t
    decreases n
  {
    hide Lightest, Fits;
    if n > 0 {
      var k := n - 1;
      forall s' | 0 <= s' < m ensures Load(a, f, k, s') <= t { BigGreedyFits(a, f, m, b, t, k, s'); }
      NoOvershoot(a, f, m, b, t, n - 1);
    }
  }

  // --------------------------------------------------------------------
  // The four-thirds bound

  lemma SmallStep(m: nat, load: nat, p: nat, t: nat)
    requires m > 0 && m * load + p <= m * t && 3 * p <= t
    ensures 3 * m * (load + p) <= (4 * m - 1) * t
  {
    assert m * (load + p) == m * load + m * p;
    assert 3 * (m * p) == 3 * p + (m - 1) * (3 * p);
    MulMonotone(m - 1, 3 * p, t);
    assert (4 * m - 1) * t == 3 * (m * t) + (m - 1) * t;
    assert 3 * m * (load + p) == 3 * (m * (load + p));
  }

  lemma BigStep(m: nat, load: nat, t: nat)
    requires m > 0 && load <= t
    ensures 3 * m * load <= (4 * m - 1) * t
  {
    MulMonotone(3 * m, load, t);
    assert (4 * m - 1) * t == 3 * m * t + (m - 1) * t;
  }

  /** Three m times any load the greedy sharder makes is at most four m - 1 times the heaviest
      load of any assignment whatever. */
  lemma {:induction false} GreedyWithinFourThirds(a: Assignment, f: seq<File>, m: nat, b: Assignment, t: nat, n: nat,
                                                  s: nat)
    requires Greedy(a, f, m) && Descending(f) && Fits(b, f, m, t) && n <= |f| && s < m
    ensures 3 * m * Load(a, f, n, s) <= (4 * m - 1) * t
    decreases n
  {
    hide Lightest, Fits, Descending;
    if n == 0 {
      BigStep(m, 0, t);
    } else if a[n - 1] != s {
      GreedyWithinFourThirds(a, f, m, b, t, n - 1, s);
    } else if 3 * f[n - 1].size > t {
      BigPrefix(f, n, t);
      BigGreedyFits(a, f, m, b, t, n, s);
      BigStep(m, Load(a, f, n, s), t);
    } else {
      GreedyLight(a, f, m, n - 1);
      TotalFits(f, m, b, t, n);
      SmallStep(m, Load(a, f, n - 1, s), f[n - 1].size, t);
    }
  }

  lemma BigPrefix(f: seq<File>, n: nat, t: nat)
    requires Descending(f) && 0 < n <= |f| && 3 * f[n - 1].size > t
    ensures AllBig(f, n, t)
  {
  }

  lemma TotalFits(f: seq<File>, m: nat, b: Assignment, t: nat, n: nat)
    requires Fits(b, f, m, t) && n <= |f|
    ensures Total(f, n) <= m * t
  {
    HeaviestTimes(b, f, |f|, m, t);
    LoadsAreTotal(b, f, |f|, m);
    TotalGrows(f, n, |f|);
  }

  // --------------------------------------------------------------------
  // full_suite_shards

  lemma {:induction false} SamePrefix(a: Assignment, a': Assignment, f: seq<File>, f': seq<File>, n: nat, s: nat)
    requires n <= |a| && n <= |a'| && n <= |f| && n <= |f'| && a[..n] == a'[..n] && f[..n] == f'[..n]
    ensures Load(a, f, n, s) == Load(a', f', n, s)
  {
    if n > 0 {
      assert a[..n - 1] == a[..n][..n - 1] && a'[..n - 1] == a'[..n][..n - 1];
      assert f[..n - 1] == f[..n][..n - 1] && f'[..n - 1] == f'[..n][..n - 1];
      assert a[n - 1] == a[..n][n - 1] && f[n - 1] == f[..n][n - 1];
      SamePrefix(a, a', f, f', n - 1, s);
    }
  }

  /** The lightest shard, the first of equals. */
  method LightestShard(sizes: array<nat>) returns (index: nat)
    requires sizes.Length > 0
    ensures index < sizes.Length && forall s :: 0 <= s < sizes.Length ==> sizes[index] <= sizes[s]
    ensures forall s :: 0 <= s < index ==> sizes[index] < sizes[s]
  {
    index := 0;
    for s := 1 to sizes.Length
      invariant index < s && forall k :: 0 <= k < s ==> sizes[index] <= sizes[k]
      invariant forall k :: 0 <= k < index ==> sizes[index] < sizes[k]
    {
      if sizes[s] < sizes[index] { index := s; }
    }
  }

  /** Extending a greedy assignment by one file on the lightest shard. */
  lemma GreedyStep(a: Assignment, f: seq<File>, m: nat, k: nat, index: nat)
    requires |a| == k < |f| && Greedy(a, f[..k], m) && index < m
    requires forall s :: 0 <= s < m ==> Load(a, f, k, index) <= Load(a, f, k, s)
    ensures Greedy(a + [index], f[..k + 1], m)
    ensures forall s :: 0 <= s < m ==>
      Load(a + [index], f, k + 1, s) == Load(a, f, k, s) + (if s == index then f[k].size else 0)
  {
    hide Load;
    var a', f' := a + [index], f[..k + 1];
    forall n, s | 0 <= n <= k && 0 <= s < m
      ensures Load(a', f', n, s) == Load(a, f[..k], n, s) == Load(a', f, n, s) == Load(a, f, n, s)
    {
      SamePrefix(a', a, f', f[..k], n, s);
      SamePrefix(a', a', f, f', n, s);
      SamePrefix(a, a', f, f', n, s);
    }
    forall n | 0 <= n < k + 1 ensures Lightest(a', f', m, n) {
      if n < k {
        assert Lightest(a, f[..k], m, n);
        assert a'[n] == a[n];
      }
    }
    forall s | 0 <= s < m
      ensures Load(a', f, k + 1, s) == Load(a, f, k, s) + (if s == index then f[k].size else 0)
    {
      LoadLast(a', f, k, s);
    }
  }

  lemma FirstStep(a: Assignment, f: seq<File>, k: nat, index: nat)
    requires |a| == k < |f| && FirstOfEquals(a, f[..k])
    requires forall s :: 0 <= s < index ==> Load(a, f, k, index) < Load(a, f, k, s)
    ensures FirstOfEquals(a + [index], f[..k + 1])
  {
    hide Load;
    var a', f' := a + [index], f[..k + 1];
    forall n, s | 0 <= n < k + 1 && 0 <= s < a'[n] ensures Heavier(a', f', n, s) {
      assert n < k ==> Heavier(a, f[..k], n, s);
      SamePrefix(a', a, f', f[..k], n, s);
      SamePrefix(a', a, f', f[..k], n, a'[n]);
      SamePrefix(a', a, f', f, n, s);
      SamePrefix(a', a, f', f, n, a'[n]);
    }
  }

  lemma LoadLast(a: Assignment, f: seq<File>, k: nat, s: nat)
    requires k < |a| && k < |f|
    ensures Load(a, f, k + 1, s) == Load(a, f, k, s) + (if a[k] == s then f[k].size else 0)
  {
  }

  ghost function Shard(a: Assignment, f: seq<File>, n: nat, s: nat): seq<File>
    requires n <= |a| && n <= |f|
  {
    if n == 0 then [] else Shard(a, f, n - 1, s) + (if a[n - 1] == s then [f[n - 1]] else [])
  }

  /** Files in order of size, one by one onto the lightest shard. */
  method Distribute(f: seq<File>, count: nat) returns (shards: array<seq<File>>, ghost a: Assignment)
    requires count > 0
    ensures fresh(shards) && shards.Length == count && Greedy(a, f, count) && FirstOfEquals(a, f)
    ensures forall s :: 0 <= s < count ==> shards[s] == Shard(a, f, |f|, s)
  {
    hide Greedy;
    shards := new seq<File>[count](_ => []);
    var sizes := new nat[count](_ => 0);
    a := [];
    GreedyStart(count, f);
    for k := 0 to |f|
      invariant |a| == k && Greedy(a, f[..k], count) && FirstOfEquals(a, f[..k])
      invariant forall s :: 0 <= s < count ==> sizes[s] == Load(a, f, k, s) && shards[s] == Shard(a, f, k, s)
    {
      var index := LightestShard(sizes);
      forall s | 0 <= s < count ensures Load(a, f, k, index) <= Load(a, f, k, s) {
        assert sizes[index] <= sizes[s];
      }
      forall s | 0 <= s < index ensures Load(a, f, k, index) < Load(a, f, k, s) {
        assert sizes[index] < sizes[s];
      }
      GreedyStep(a, f, count, k, index);
      FirstStep(a, f, k, index);
      ghost var a' := a + [index];
      forall s | 0 <= s < count
        ensures Shard(a', f, k + 1, s) == if s == index then Shard(a, f, k, s) + [f[k]] else Shard(a, f, k, s)
      {
        ShardStep(a, f, k, index, s);
      }
      shards[index] := shards[index] + [f[k]];
      sizes[index] := sizes[index] + f[k].size;
      a := a';
    }
    assert f[..|f|] == f;
  }

  lemma GreedyStart(m: nat, f: seq<File>)
    ensures Greedy([], f[..0], m)
  {
  }

  lemma {:induction false} ShardSame(a: Assignment, a': Assignment, f: seq<File>, n: nat, s: nat)
    requires n <= |a| && n <= |a'| && n <= |f| && forall i :: 0 <= i < n ==> a[i] == a'[i]
    ensures Shard(a, f, n, s) == Shard(a', f, n, s)
  {
    if n > 0 { ShardSame(a, a', f, n - 1, s); }
  }

  lemma ShardStep(a: Assignment, f: seq<File>, k: nat, index: nat, s: nat)
    requires |a| == k < |f|
    ensures Shard(a + [index], f, k + 1, s) == if s == index then Shard(a, f, k, s) + [f[k]] else Shard(a, f, k, s)
  {
    ShardSame(a, a + [index], f, k, s);
  }

  /** A file is in a shard exactly when it was assigned there. */
  lemma {:induction false} ShardMembers(a: Assignment, f: seq<File>, n: nat, s: nat, x: File)
    requires n <= |a| && n <= |f|
    ensures x in Shard(a, f, n, s) <==> exists i :: 0 <= i < n && a[i] == s && f[i] == x
  {
    if n > 0 {
      ShardMembers(a, f, n - 1, s, x);
      if a[n - 1] == s && f[n - 1] == x { assert x in Shard(a, f, n, s); }
    }
  }

  function Names(files: seq<File>): set<string> {
    set x | x in files :: x.path
  }

  /** Every path is in the shard of the one file that has it, and in no other. */
  ghost predicate Partition(shards: seq<seq<string>>, f: seq<File>) {
    && (forall i :: 0 <= i < |f| ==> Somewhere(shards, f[i].path))
    && (forall s, s', p :: 0 <= s < |shards| && 0 <= s' < |shards| && p in shards[s] && p in shards[s'] ==> s == s')
    && (forall s, p :: 0 <= s < |shards| && p in shards[s] ==> IsPath(f, p))
    && (forall s :: 0 <= s < |shards| ==> StringOrder.Ascending(shards[s]))
  }

  ghost predicate Somewhere(shards: seq<seq<string>>, p: string) {
    exists s :: 0 <= s < |shards| && p in shards[s]
  }

  ghost predicate IsPath(f: seq<File>, p: string) {
    exists i :: 0 <= i < |f| && f[i].path == p
  }

  /** m times each load is at most the total plus m - 1 times the largest file. */
  ghost predicate WithinList(a: Assignment, f: seq<File>, m: nat, files: map<string, nat>)
    requires |a| == |f|
  {
    forall s: nat, largest: nat :: s < m && AtMost(files, largest) ==>
      m * LoadOf(Shard(a, f, |f|, s)) <= Total(f, |f|) + (m - 1) * largest
  }

  /** Three m times each load is at most four m - 1 times the heaviest load of any assignment. */
  ghost predicate WithinFourThirds(a: Assignment, f: seq<File>, m: nat)
    requires |a| == |f|
  {
    forall s: nat, b: Assignment, t: nat :: s < m && Fits(b, f, m, t) ==>
      3 * m * LoadOf(Shard(a, f, |f|, s)) <= (4 * m - 1) * t
  }

  ghost function LoadOf(files: seq<File>): nat {
    if files == [] then 0 else LoadOf(files[..|files| - 1]) + files[|files| - 1].size
  }

  lemma {:induction false} ShardLoad(a: Assignment, f: seq<File>, n: nat, s: nat)
    requires n <= |a| && n <= |f|
    ensures LoadOf(Shard(a, f, n, s)) == Load(a, f, n, s)
  {
    if n > 0 {
      ShardLoad(a, f, n - 1, s);
      var rest := Shard(a, f, n - 1, s);
      assert (rest + [f[n - 1]])[..|rest|] == rest;
      assert rest + [] == rest;
    }
  }

  /** Every file of the suite once, largest first and of the same size by path. */
  method SortFiles(files: map<string, nat>) returns (f: seq<File>)
    ensures Sorted(f) && Descending(f) && DistinctPaths(f)
    ensures forall x :: x in f <==> x.path in files && files[x.path] == x.size
  {
    f := [];
    var rest := files.Keys;
    while rest != {}
      invariant rest <= files.Keys && Sorted(f) && DistinctPaths(f)
      invariant forall x :: x in f <==> x.path in files && x.path !in rest && files[x.path] == x.size
      decreases |rest|
    {
      var path :| path in rest;
      var x := File(path, files[path]);
      var k := 0;
      while k < |f| && Before(f[k], x)
        invariant k <= |f| && forall i :: 0 <= i < k ==> Before(f[i], x)
      {
        k := k + 1;
      }
      InsertFile(f, k, x);
      f, rest := f[..k] + [x] + f[k..], rest - {path};
    }
  }

  lemma InsertFile(f: seq<File>, k: nat, x: File)
    requires Sorted(f) && DistinctPaths(f) && k <= |f| && forall y :: y in f ==> y.path != x.path
    requires (forall i :: 0 <= i < k ==> Before(f[i], x)) && (k < |f| ==> !Before(f[k], x))
    ensures var f' := f[..k] + [x] + f[k..];
            Sorted(f') && DistinctPaths(f') && forall y :: y in f' <==> y in f || y == x
  {
    forall i | k <= i < |f| ensures Before(x, f[i]) {
      StringOrder.LessTotal(f[k].path, x.path);
      assert f[k] in f;
      if i > k { BeforeTransitive(x, f[k], f[i]); }
    }
    InsertSorted(f, k, x);
    InsertDistinct(f, k, x);
    assert f == f[..k] + f[k..];
  }

  lemma BeforeTransitive(x: File, y: File, z: File)
    requires Before(x, y) && Before(y, z)
    ensures Before(x, z)
  {
    if x.size == y.size == z.size { StringOrder.LessTransitive(x.path, y.path, z.path); }
  }

  lemma InsertSorted(f: seq<File>, k: nat, x: File)
    requires Sorted(f) && k <= |f|
    requires (forall i :: 0 <= i < k ==> Before(f[i], x)) && (forall i :: k <= i < |f| ==> Before(x, f[i]))
    ensures Sorted(f[..k] + [x] + f[k..])
  {
    var f' := f[..k] + [x] + f[k..];
    forall i, j | 0 <= i < j < |f'| ensures Before(f'[i], f'[j]) {
      var y := if i < k then f[i] else if i == k then x else f[i - 1];
      var z := if j < k then f[j] else if j == k then x else f[j - 1];
      assert f'[i] == y && f'[j] == z;
    }
  }

  lemma InsertDistinct(f: seq<File>, k: nat, x: File)
    requires DistinctPaths(f) && k <= |f| && forall y :: y in f ==> y.path != x.path
    ensures DistinctPaths(f[..k] + [x] + f[k..])
  {
    var f' := f[..k] + [x] + f[k..];
    forall i, j | 0 <= i < j < |f'| ensures f'[i].path != f'[j].path {
      var y := if j < k then f[j] else if j == k then x else f[j - 1];
      assert f'[j] == y;
    }
  }

  ghost predicate AtMost(files: map<string, nat>, largest: nat) {
    forall p :: p in files ==> files[p] <= largest
  }

  /** The names of each shard's files, in order. */
  method SortedNames(parts: array<seq<File>>) returns (shards: seq<seq<string>>)
    ensures |shards| == parts.Length
    ensures forall s :: 0 <= s < parts.Length ==> shards[s] == StringOrder.Sorted(Names(parts[s]))
  {
    hide Names, StringOrder.Sorted;
    shards := [];
    for s := 0 to parts.Length
      invariant |shards| == s
      invariant forall k :: 0 <= k < s ==> shards[k] == StringOrder.Sorted(Names(parts[k]))
    {
      var names := StringOrder.SortSet(Names(parts[s]));
      shards := shards + [names];
    }
  }

  /** Each test file is in exactly one shard; m times the heaviest load is at most the total plus
      m - 1 times the largest file, and three m times it at most four m - 1 times the heaviest
      load of any other way to share the files out. */
  method FullSuiteShards(files: map<string, nat>, count: nat)
    returns (shards: seq<seq<string>>, ghost f: seq<File>, ghost a: Assignment)
    requires count > 0
    ensures Sorted(f) && DistinctPaths(f) && forall x :: x in f <==> x.path in files && files[x.path] == x.size
    ensures |shards| == count && Greedy(a, f, count) && FirstOfEquals(a, f) && Partition(shards, f)
    ensures forall s :: 0 <= s < count ==> shards[s] == StringOrder.Sorted(Names(Shard(a, f, |f|, s)))
    ensures WithinList(a, f, count, files) && WithinFourThirds(a, f, count)
  {
    hide Fits, Shard, Load, Lightest, LoadOf, Partition, Descending, Sorted, DistinctPaths, AtMost, Assigned;
    hide FirstOfEquals;
    hide WithinList, WithinFourThirds, Names, StringOrder.Sorted;
    var sorted := SortFiles(files);
    f := sorted;
    var parts;
    parts, a := Distribute(sorted, count);
    shards := SortedNames(parts);
    ShardsPartition(a, f, count, shards);
    BoundsHold(a, f, count, files);
  }

  lemma BoundsHold(a: Assignment, f: seq<File>, m: nat, files: map<string, nat>)
    requires Greedy(a, f, m) && Descending(f) && forall x :: x in f <==> x.path in files && files[x.path] == x.size
    ensures WithinList(a, f, m, files) && WithinFourThirds(a, f, m)
  {
    hide Fits, Shard, Load, LoadOf, Lightest, AtMost, Descending;
    forall s: nat, largest: nat | s < m && AtMost(files, largest)
      ensures m * LoadOf(Shard(a, f, |f|, s)) <= Total(f, |f|) + (m - 1) * largest
    {
      ShardWithinList(a, f, files, m, s, largest);
    }
    forall s: nat, b: Assignment, t: nat | s < m && Fits(b, f, m, t)
      ensures 3 * m * LoadOf(Shard(a, f, |f|, s)) <= (4 * m - 1) * t
    {
      ShardWithinFourThirds(a, f, m, s, b, t);
    }
  }

  /** Some file of this path was assigned to the shard. */
  ghost predicate Assigned(a: Assignment, f: seq<File>, s: nat, p: string) {
    |a| == |f| && exists i :: 0 <= i < |f| && a[i] == s && f[i].path == p
  }

  lemma AssignedOnce(a: Assignment, f: seq<File>, s: nat, s': nat, p: string)
    requires DistinctPaths(f) && Assigned(a, f, s, p) && Assigned(a, f, s', p)
    ensures s == s'
  {
    var i :| 0 <= i < |f| && a[i] == s && f[i].path == p;
    var k :| 0 <= k < |f| && a[k] == s' && f[k].path == p;
  }

  lemma AssignedHere(a: Assignment, f: seq<File>, i: nat)
    requires |a| == |f| && i < |f|
    ensures Assigned(a, f, a[i], f[i].path)
  {
  }

  lemma SomeFile(a: Assignment, f: seq<File>, s: nat, p: string)
    requires Assigned(a, f, s, p)
    ensures IsPath(f, p)
  {
  }

  /** The names in shard s are exactly those assigned to it, in order. */
  ghost predicate ShardOf(a: Assignment, f: seq<File>, s: nat, names: seq<string>) {
    StringOrder.Ascending(names) && forall p :: p in names <==> Assigned(a, f, s, p)
  }

  lemma ShardsPartition(a: Assignment, f: seq<File>, m: nat, shards: seq<seq<string>>)
    requires Within(a, f, m) && DistinctPaths(f) && |shards| == m
    requires forall s :: 0 <= s < m ==> shards[s] == StringOrder.Sorted(Names(Shard(a, f, |f|, s)))
    ensures Partition(shards, f)
  {
    hide DistinctPaths, StringOrder.Ascending, Assigned, Somewhere, IsPath, Shard;
    forall s | 0 <= s < m ensures ShardOf(a, f, s, shards[s]) { SortedShard(a, f, s, shards[s]); }
    forall i | 0 <= i < |f| ensures Somewhere(shards, f[i].path) { FoundIn(a, f, shards, i); }
    forall s, p | 0 <= s < |shards| && p in shards[s] ensures IsPath(f, p) {
      assert ShardOf(a, f, s, shards[s]);
      SomeFile(a, f, s, p);
    }
    forall s, s', p | 0 <= s < |shards| && 0 <= s' < |shards| && p in shards[s] && p in shards[s'] ensures s == s' {
      assert ShardOf(a, f, s, shards[s]) && ShardOf(a, f, s', shards[s']);
      AssignedOnce(a, f, s, s', p);
    }
    forall s | 0 <= s < |shards| ensures StringOrder.Ascending(shards[s]) { assert ShardOf(a, f, s, shards[s]); }
  }

  lemma FoundIn(a: Assignment, f: seq<File>, shards: seq<seq<string>>, i: nat)
    requires Within(a, f, |shards|) && i < |f|
    requires forall s :: 0 <= s < |shards| ==> ShardOf(a, f, s, shards[s])
    ensures Somewhere(shards, f[i].path)
  {
    hide Assigned, StringOrder.Ascending;
    AssignedHere(a, f, i);
    assert ShardOf(a, f, a[i], shards[a[i]]);
    assert f[i].path in shards[a[i]];
  }

  lemma SortedShard(a: Assignment, f: seq<File>, s: nat, names: seq<string>)
    requires |a| == |f| && names == StringOrder.Sorted(Names(Shard(a, f, |f|, s)))
    ensures ShardOf(a, f, s, names)
  {
    hide Shard;
    var files := Shard(a, f, |f|, s);
    forall p ensures p in Names(files) <==> Assigned(a, f, s, p) {
      if p in Names(files) {
        var x :| x in files && x.path == p;
        ShardMembers(a, f, |f|, s, x);
      }
      if i :| 0 <= i < |f| && a[i] == s && f[i].path == p {
        ShardMembers(a, f, |f|, s, f[i]);
        assert f[i] in files;
      }
    }
  }

  lemma ShardWithinList(a: Assignment, f: seq<File>, files: map<string, nat>, m: nat, s: nat, largest: nat)
    requires Greedy(a, f, m) && s < m && AtMost(files, largest)
    requires forall x :: x in f ==> x.path in files && files[x.path] == x.size
    ensures m * LoadOf(Shard(a, f, |f|, s)) <= Total(f, |f|) + (m - 1) * largest
  {
    hide Lightest, LoadOf, Shard;
    ShardLoad(a, f, |f|, s);
    assert forall i :: 0 <= i < |f| ==> f[i] in f;
    GreedyBound(a, f, m, largest, |f|, s);
  }

  lemma ShardWithinFourThirds(a: Assignment, f: seq<File>, m: nat, s: nat, b: Assignment, t: nat)
    requires Greedy(a, f, m) && Descending(f) && s < m && Fits(b, f, m, t)
    ensures 3 * m * LoadOf(Shard(a, f, |f|, s)) <= (4 * m - 1) * t
  {
    hide Lightest, LoadOf, Shard, Fits, Descending;
    ShardLoad(a, f, |f|, s);
    GreedyWithinFourThirds(a, f, m, b, t, |f|, s);
  }
}
