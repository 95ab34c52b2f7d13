/** Which hosts may take a job, and in what order (src/vq/overview.py:1556-1755). */
module BrokerDecision {
  import opened Common
  import opened BrokerRecord
  import opened BrokerCharges
  import StringOrder

  /** The hosts that may take the job, the best first, and why each other host may not. */
  datatype Decision = Decision(ranking: seq<string>, blockers: Blockers)

  predicate UniqueHosts(snapshots: seq<Snapshot>) {
    forall i, k :: 0 <= i < k < |snapshots| ==> snapshots[i].host != snapshots[k].host
  }

  ghost predicate NamedHosts(snapshots: seq<Snapshot>) {
    forall i :: 0 <= i < |snapshots| ==> !Blank(snapshots[i].host)
  }

  // --------------------------------------------------------------------
  // The order

  /** What the program sorts by; the smaller comes first. */
  datatype Rank = Rank(memFits: int, cpuFits: int, mem: int, cpus: int, pending: int, idle: int, host: string)

  function RankOf(s: Snapshot, t: Intent): Rank {
    if s.isScheduler || s.freeCpus.None? then Rank(0, 0, 0, 0, 0, 0, s.host)
    else
      var memFits := s.freeMemMb.None? || s.freeMemMb.value >= t.memMb;
      Rank(if memFits then -1 else 0,
           if s.freeCpus.value >= t.cpus then -1 else 0,
           if s.freeMemMb.None? then 0 else -s.freeMemMb.value,
           -s.freeCpus.value,
           s.pendingCpus,
           if s.idleSeconds.None? then 1 else -s.idleSeconds.value,
           s.host)
  }

  predicate RankLess(x: Rank, y: Rank) {
    if x.memFits != y.memFits then x.memFits < y.memFits
    else if x.cpuFits != y.cpuFits then x.cpuFits < y.cpuFits
    else if x.mem != y.mem then x.mem < y.mem
    else if x.cpus != y.cpus then x.cpus < y.cpus
    else if x.pending != y.pending then x.pending < y.pending
    else if x.idle != y.idle then x.idle < y.idle
    else StringOrder.Less(x.host, y.host)
  }

  lemma RankTotal(x: Rank, y: Rank)
    requires x.host != y.host
    ensures RankLess(x, y) || RankLess(y, x)
  {
    StringOrder.LessTotal(x.host, y.host);
  }

  lemma RankTransitive(x: Rank, y: Rank, z: Rank)
    requires RankLess(x, y) && RankLess(y, z)
    ensures RankLess(x, z)
  {
    if StringOrder.Less(x.host, y.host) && StringOrder.Less(y.host, z.host) {
      StringOrder.LessTransitive(x.host, y.host, z.host);
    }
  }

  /** The one is more; what is not known is the least. */
  ghost predicate More(x: Option<int>, y: Option<int>) {
    x.Some? && (y.None? || x.value > y.value)
  }

  /** Which of two eligible hosts comes first: direct hosts before scheduler lanes; of direct hosts
      the one with more free memory, then more free CPUs, then fewer CPUs pending, then the longer
      idle; and the name where nothing else tells them apart. */
  ghost predicate Prefers(a: Snapshot, b: Snapshot) {
    if a.isScheduler != b.isScheduler then b.isScheduler
    else if a.isScheduler then StringOrder.Less(a.host, b.host)
    else if a.freeMemMb != b.freeMemMb then More(a.freeMemMb, b.freeMemMb)
    else if a.freeCpus != b.freeCpus then More(a.freeCpus, b.freeCpus)
    else if a.pendingCpus != b.pendingCpus then a.pendingCpus < b.pendingCpus
    else if a.idleSeconds != b.idleSeconds then More(a.idleSeconds, b.idleSeconds)
    else StringOrder.Less(a.host, b.host)
  }

  ghost predicate Eligible(s: Snapshot, t: Intent, now: Time, maxAge: Time) {
    HostBlocker(s, t, now, maxAge).None?
  }

  /** Among eligible hosts the program's key orders as the preference does. */
  lemma RankPrefers(a: Snapshot, b: Snapshot, t: Intent, now: Time, maxAge: Time)
    requires Eligible(a, t, now, maxAge) && Eligible(b, t, now, maxAge)
    ensures RankLess(RankOf(a, t), RankOf(b, t)) <==> Prefers(a, b)
  {
    hide HostBlocker;
    EligibleFigures(a, t, now, maxAge);
    EligibleFigures(b, t, now, maxAge);
  }

  lemma EligibleFigures(s: Snapshot, t: Intent, now: Time, maxAge: Time)
    requires Eligible(s, t, now, maxAge)
    ensures !s.isScheduler ==>
      && s.freeCpus.Some? && s.freeMemMb.Some? && s.freeCpus.value >= t.cpus && s.freeMemMb.value >= t.memMb
      && s.pendingCpus >= 0 && (s.idleSeconds.Some? ==> s.idleSeconds.value >= 0)
  {
  }

  // --------------------------------------------------------------------
  // The decision

  /** The snapshot of this host. */
  ghost predicate Shows(snapshots: seq<Snapshot>, host: string, s: Snapshot) {
    s in snapshots && s.host == host
  }

  /** Each eligible host is ranked and each other has its reason; the best host comes first, and
      the reasons are in order of hosts. */
  ghost predicate Decided(snapshots: seq<Snapshot>, t: Intent, now: Time, maxAge: Time, d: Decision) {
    && (forall s :: s in snapshots && Eligible(s, t, now, maxAge) ==> s.host in d.ranking)
    && (forall h :: h in d.ranking ==> exists s :: Shows(snapshots, h, s) && Eligible(s, t, now, maxAge))
    && (forall s :: s in snapshots && !Eligible(s, t, now, maxAge) ==>
          (s.host, HostBlocker(s, t, now, maxAge).value.Text()) in d.blockers)
    && (forall b :: b in d.blockers ==> exists s :: Blocks(snapshots, t, now, maxAge, s, b))
    && (forall i, k, a, b :: (0 <= i < k < |d.ranking| && Shows(snapshots, d.ranking[i], a)
                              && Shows(snapshots, d.ranking[k], b)) ==> Prefers(a, b))
    && StringOrder.AscendingNames(d.blockers)
  }

  ghost predicate Blocks(snapshots: seq<Snapshot>, t: Intent, now: Time, maxAge: Time, s: Snapshot, b: (string, string))
  {
    s in snapshots && !Eligible(s, t, now, maxAge) && b == (s.host, HostBlocker(s, t, now, maxAge).value.Text())
  }

  ghost predicate RankAscending(ranks: seq<Rank>) {
    forall i, k :: 0 <= i < k < |ranks| ==> RankLess(ranks[i], ranks[k])
  }

  ghost predicate DistinctRanks(ranks: seq<Rank>) {
    forall i, k :: 0 <= i < k < |ranks| ==> ranks[i].host != ranks[k].host
  }

  lemma InsertRank(ranks: seq<Rank>, k: nat, x: Rank)
    requires RankAscending(ranks) && k <= |ranks| && forall r :: r in ranks ==> r.host != x.host
    requires forall i :: 0 <= i < k ==> RankLess(ranks[i], x)
    requires k < |ranks| ==> !RankLess(ranks[k], x)
    ensures RankAscending(ranks[..k] + [x] + ranks[k..])
  {
    hide RankLess;
    var all := ranks[..k] + [x] + ranks[k..];
    forall i | k <= i < |ranks| ensures RankLess(x, ranks[i]) {
      RankTotal(ranks[k], x);
      if i > k { RankTransitive(x, ranks[k], ranks[i]); }
    }
    forall i, m | 0 <= i < m < |all| ensures RankLess(all[i], all[m]) {
      assert i < k ==> all[i] == ranks[i];
      assert m > k ==> all[m] == ranks[m - 1];
      assert i > k ==> all[i] == ranks[i - 1];
      assert m < k ==> all[m] == ranks[m];
    }
  }

  method Insert(ranks: seq<Rank>, x: Rank) returns (r: seq<Rank>)
    requires RankAscending(ranks) && forall r :: r in ranks ==> r.host != x.host
    ensures RankAscending(r) && multiset(r) == multiset(ranks) + multiset{x}
  {
    hide RankLess;
    var k := 0;
    while k < |ranks| && RankLess(ranks[k], x)
      invariant k <= |ranks| && forall i :: 0 <= i < k ==> RankLess(ranks[i], x)
    {
      k := k + 1;
    }
    InsertRank(ranks, k, x);
    assert ranks == ranks[..k] + ranks[k..];
    r := ranks[..k] + [x] + ranks[k..];
  }

  method SortRanks(ranks: seq<Rank>) returns (sorted: seq<Rank>)
    requires DistinctRanks(ranks)
    ensures RankAscending(sorted) && multiset(sorted) == multiset(ranks)
  {
    hide RankAscending;
    sorted := [];
    EmptyAscends();
    for n := 0 to |ranks|
      invariant RankAscending(sorted) && multiset(sorted) == multiset(ranks[..n])
    {
      assert ranks[..n + 1] == ranks[..n] + [ranks[n]];
      forall r | r in sorted ensures r.host != ranks[n].host { assert r in multiset(ranks[..n]); }
      sorted := Insert(sorted, ranks[n]);
    }
    assert ranks[..|ranks|] == ranks;
  }

  lemma EmptyAscends()
    ensures RankAscending([])
  {
  }

  /** Every snapshot so far is ranked or has its reason, under its own host alone. */
  ghost predicate Collected(snapshots: seq<Snapshot>, n: nat, t: Intent, now: Time, maxAge: Time,
                            ranks: seq<Rank>, blockers: Blockers)
  {
    && n <= |snapshots| && DistinctRanks(ranks) && StringOrder.DistinctNames(blockers)
    && (forall r :: r in ranks <==> exists i :: 0 <= i < n && Ranked(snapshots[i], t, now, maxAge, r))
    && (forall b :: b in blockers <==> exists i :: 0 <= i < n && Declined(snapshots[i], t, now, maxAge, b))
  }

  ghost predicate Ranked(s: Snapshot, t: Intent, now: Time, maxAge: Time, r: Rank) {
    Eligible(s, t, now, maxAge) && r == RankOf(s, t)
  }

  ghost predicate Declined(s: Snapshot, t: Intent, now: Time, maxAge: Time, b: (string, string)) {
    !Eligible(s, t, now, maxAge) && b == (s.host, HostBlocker(s, t, now, maxAge).value.Text())
  }

  lemma CollectNext(snapshots: seq<Snapshot>, n: nat, t: Intent, now: Time, maxAge: Time,
                    ranks: seq<Rank>, blockers: Blockers)
    requires UniqueHosts(snapshots) && n < |snapshots| && Collected(snapshots, n, t, now, maxAge, ranks, blockers)
    ensures var s := snapshots[n];
            if Eligible(s, t, now, maxAge)
            then Collected(snapshots, n + 1, t, now, maxAge, ranks + [RankOf(s, t)], blockers)
            else Collected(snapshots, n + 1, t, now, maxAge, ranks,
                           blockers + [(s.host, HostBlocker(s, t, now, maxAge).value.Text())])
  {
    hide HostBlocker, RankOf, Reason.Text;
    var s := snapshots[n];
    RankHosts(t);
    forall r | r in ranks ensures r.host != s.host {
      var i :| 0 <= i < n && Ranked(snapshots[i], t, now, maxAge, r);
    }
    forall b | b in blockers ensures b.0 != s.host {
      var i :| 0 <= i < n && Declined(snapshots[i], t, now, maxAge, b);
    }
    if Eligible(s, t, now, maxAge) {
      assert Ranked(s, t, now, maxAge, RankOf(s, t));
    } else {
      assert Declined(s, t, now, maxAge, (s.host, HostBlocker(s, t, now, maxAge).value.Text()));
    }
  }

  lemma CollectNone(snapshots: seq<Snapshot>, t: Intent, now: Time, maxAge: Time)
    ensures Collected(snapshots, 0, t, now, maxAge, [], [])
  {
  }

  lemma RankHosts(t: Intent)
    ensures forall s :: RankOf(s, t).host == s.host
  {
  }

  /** Sorting keeps what is in a list. */
  lemma SameMembers<T>(a: seq<T>, b: seq<T>, x: T)
    requires multiset(a) == multiset(b)
    ensures x in a <==> x in b
  {
    assert x in a <==> x in multiset(a);
    assert x in b <==> x in multiset(b);
  }

  ghost function Hosts(ranks: seq<Rank>): (hosts: seq<string>)
    ensures |hosts| == |ranks| && forall i :: 0 <= i < |ranks| ==> hosts[i] == ranks[i].host
  {
    seq(|ranks|, i requires 0 <= i < |ranks| => ranks[i].host)
  }

  ghost predicate Sorts(ranks: seq<Rank>, sorted: seq<Rank>) {
    RankAscending(sorted) && multiset(sorted) == multiset(ranks)
  }

  lemma RankedHosts(snapshots: seq<Snapshot>, t: Intent, now: Time, maxAge: Time,
                    ranks: seq<Rank>, blockers: Blockers, sorted: seq<Rank>)
    requires Collected(snapshots, |snapshots|, t, now, maxAge, ranks, blockers) && Sorts(ranks, sorted)
    ensures forall s :: s in snapshots && Eligible(s, t, now, maxAge) ==> s.host in Hosts(sorted)
    ensures forall h :: h in Hosts(sorted) ==> exists s :: Shows(snapshots, h, s) && Eligible(s, t, now, maxAge)
  {
    hide HostBlocker, RankOf, RankAscending, StringOrder.DistinctNames;
    RankHosts(t);
    forall s | s in snapshots && Eligible(s, t, now, maxAge) ensures s.host in Hosts(sorted) {
      var i :| 0 <= i < |snapshots| && snapshots[i] == s;
      assert Ranked(snapshots[i], t, now, maxAge, RankOf(s, t));
      SameMembers(ranks, sorted, RankOf(s, t));
      var k :| 0 <= k < |sorted| && sorted[k] == RankOf(s, t);
      assert Hosts(sorted)[k] == s.host;
    }
    forall h | h in Hosts(sorted) ensures exists s :: Shows(snapshots, h, s) && Eligible(s, t, now, maxAge) {
      var k :| 0 <= k < |sorted| && Hosts(sorted)[k] == h;
      var i := RankOrigin(snapshots, t, now, maxAge, ranks, blockers, sorted, k);
      assert Shows(snapshots, h, snapshots[i]);
    }
  }

  lemma RankOrigin(snapshots: seq<Snapshot>, t: Intent, now: Time, maxAge: Time,
                   ranks: seq<Rank>, blockers: Blockers, sorted: seq<Rank>, k: nat) returns (i: nat)
    requires Collected(snapshots, |snapshots|, t, now, maxAge, ranks, blockers) && Sorts(ranks, sorted)
    requires k < |sorted|
    ensures i < |snapshots| && Ranked(snapshots[i], t, now, maxAge, sorted[k]) && snapshots[i].host == sorted[k].host
  {
    hide RankAscending, StringOrder.DistinctNames, HostBlocker;
    SameMembers(ranks, sorted, sorted[k]);
    i :| 0 <= i < |snapshots| && Ranked(snapshots[i], t, now, maxAge, sorted[k]);
  }

  lemma RankingPrefers(snapshots: seq<Snapshot>, t: Intent, now: Time, maxAge: Time,
                       ranks: seq<Rank>, blockers: Blockers, sorted: seq<Rank>,
                       m: nat, n: nat, a: Snapshot, b: Snapshot)
    requires UniqueHosts(snapshots) && Sorts(ranks, sorted)
    requires Collected(snapshots, |snapshots|, t, now, maxAge, ranks, blockers)
    requires m < n < |sorted| && Shows(snapshots, sorted[m].host, a) && Shows(snapshots, sorted[n].host, b)
    ensures Prefers(a, b)
  {
    hide HostBlocker, RankOf, RankLess, Collected, Prefers;
    var i := RankOrigin(snapshots, t, now, maxAge, ranks, blockers, sorted, m);
    var k := RankOrigin(snapshots, t, now, maxAge, ranks, blockers, sorted, n);
    assert a == snapshots[i] && b == snapshots[k];
    RankPrefers(a, b, t, now, maxAge);
  }

  lemma BlockersGiven(snapshots: seq<Snapshot>, t: Intent, now: Time, maxAge: Time,
                      ranks: seq<Rank>, blockers: Blockers)
    requires Collected(snapshots, |snapshots|, t, now, maxAge, ranks, blockers)
    ensures forall s :: s in snapshots && !Eligible(s, t, now, maxAge) ==>
      (s.host, HostBlocker(s, t, now, maxAge).value.Text()) in StringOrder.SortPairs(blockers)
    ensures forall b :: b in StringOrder.SortPairs(blockers) ==> exists s :: Blocks(snapshots, t, now, maxAge, s, b)
    ensures StringOrder.AscendingNames(StringOrder.SortPairs(blockers))
  {
    hide HostBlocker, Reason.Text, DistinctRanks, StringOrder.SortPairs;
    StringOrder.SortAscends(blockers);
    var sorted := StringOrder.SortPairs(blockers);
    forall s | s in snapshots && !Eligible(s, t, now, maxAge)
      ensures (s.host, HostBlocker(s, t, now, maxAge).value.Text()) in sorted
    {
      var b := (s.host, HostBlocker(s, t, now, maxAge).value.Text());
      var i :| 0 <= i < |snapshots| && snapshots[i] == s;
      assert Declined(snapshots[i], t, now, maxAge, b);
      SameMembers(blockers, sorted, b);
    }
    forall b | b in sorted ensures exists s :: Blocks(snapshots, t, now, maxAge, s, b) {
      SameMembers(blockers, sorted, b);
      var i :| 0 <= i < |snapshots| && Declined(snapshots[i], t, now, maxAge, b);
      assert Blocks(snapshots, t, now, maxAge, snapshots[i], b);
    }
  }

  /** Rank the eligible hosts for one job, and give each of the others its reason. */
  method PlaceBrokerJob(snapshots: seq<Snapshot>, t: Intent, now: Time, maxAge: Time) returns (d: Decision)
    requires UniqueHosts(snapshots)
    ensures Decided(snapshots, t, now, maxAge, d)
  {
    hide HostBlocker, RankOf, RankLess, Reason.Text, Prefers, Ranked, Declined, RankAscending, StringOrder.SortPairs;
    CollectNone(snapshots, t, now, maxAge);
    var ranks: seq<Rank> := [];
    var blockers: Blockers := [];
    for n := 0 to |snapshots|
      invariant Collected(snapshots, n, t, now, maxAge, ranks, blockers)
    {
      CollectNext(snapshots, n, t, now, maxAge, ranks, blockers);
      var why := HostBlocker(snapshots[n], t, now, maxAge);
      if why.Some? {
        blockers := blockers + [(snapshots[n].host, why.value.Text())];
      } else {
        ranks := ranks + [RankOf(snapshots[n], t)];
      }
    }
    var sorted := SortRanks(ranks);
    d := Decision(seq(|sorted|, i requires 0 <= i < |sorted| => sorted[i].host), StringOrder.SortPairs(blockers));
    assert d.ranking == Hosts(sorted);
    RankedHosts(snapshots, t, now, maxAge, ranks, blockers, sorted);
    BlockersGiven(snapshots, t, now, maxAge, ranks, blockers);
    forall i, k, a, b | 0 <= i < k < |d.ranking|
                        && Shows(snapshots, d.ranking[i], a) && Shows(snapshots, d.ranking[k], b)
      ensures Prefers(a, b)
    {
      RankingPrefers(snapshots, t, now, maxAge, ranks, blockers, sorted, i, k, a, b);
    }
  }

  // --------------------------------------------------------------------
  // What every decision is

  /** Each host once, ranked or with a reason, the reasons in order of hosts. */
  ghost predicate Sorted(d: Decision) {
    && StringOrder.AscendingNames(d.blockers) && BlockersOk(d.blockers)
    && (forall i, k :: 0 <= i < k < |d.ranking| ==> d.ranking[i] != d.ranking[k])
    && (forall i, k :: 0 <= i < |d.ranking| && 0 <= k < |d.blockers| ==> d.ranking[i] != d.blockers[k].0)
    && (forall i :: 0 <= i < |d.ranking| ==> d.ranking[i] != "")
  }

  lemma DecidedSorted(snapshots: seq<Snapshot>, t: Intent, now: Time, maxAge: Time, d: Decision)
    requires UniqueHosts(snapshots) && NamedHosts(snapshots) && Decided(snapshots, t, now, maxAge, d)
    ensures Sorted(d)
  {
    hide HostBlocker, Reason.Text, Prefers, StringOrder.AscendingNames;
    forall i, k | 0 <= i < k < |d.ranking| ensures d.ranking[i] != d.ranking[k] {
      assert d.ranking[i] in d.ranking;
      var s :| Shows(snapshots, d.ranking[i], s) && Eligible(s, t, now, maxAge);
      if d.ranking[i] == d.ranking[k] { NotPreferred(s); }
    }
    forall i, k | 0 <= i < |d.ranking| && 0 <= k < |d.blockers| ensures d.ranking[i] != d.blockers[k].0 {
      assert d.ranking[i] in d.ranking && d.blockers[k] in d.blockers;
      var a :| Shows(snapshots, d.ranking[i], a) && Eligible(a, t, now, maxAge);
      var b :| Blocks(snapshots, t, now, maxAge, b, d.blockers[k]);
    }
    forall k | 0 <= k < |d.blockers| ensures d.blockers[k].0 != "" && d.blockers[k].1 != "" {
      assert d.blockers[k] in d.blockers;
      var b :| Blocks(snapshots, t, now, maxAge, b, d.blockers[k]);
    }
    forall i | 0 <= i < |d.ranking| ensures d.ranking[i] != "" {
      assert d.ranking[i] in d.ranking;
      var s :| Shows(snapshots, d.ranking[i], s) && Eligible(s, t, now, maxAge);
    }
  }

  lemma NotPreferred(s: Snapshot)
    ensures !Prefers(s, s)
  {
    if StringOrder.Less(s.host, s.host) { StringOrder.LessAsymmetric(s.host, s.host); }
  }
}
