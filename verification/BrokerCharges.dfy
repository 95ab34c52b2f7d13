/** Outstanding charges, debited snapshots and admission (src/vq/broker_store.py,
    src/vq/broker_placement.py, src/vq/overview.py). */
module BrokerCharges {
  import opened Common
  import opened BrokerRecord

  type Records = map<string, Record>

  const NOTHING := Charge(0, 0, 0)

  function Plus(a: Charge, b: Charge): Charge {
    Charge(a.cpus + b.cpus, a.memMb + b.memMb, a.jobSlots + b.jobSlots)
  }

  ghost function Minus(a: Charge, b: Charge): Charge {
    Charge(a.cpus - b.cpus, a.memMb - b.memMb, a.jobSlots - b.jobSlots)
  }

  // --------------------------------------------------------------------
  // The reference: one sum over the records, each with its newest attempt alone

  /** What the record still holds on the host. */
  ghost function ChargeOn(r: Record, host: string): Charge {
    if r.attempts == [] then NOTHING
    else
      var a := r.attempts[|r.attempts| - 1];
      if a.chargeReleasedAt.None? && a.targetHost == host then a.charge else NOTHING
  }

  /** What the record still holds anywhere. */
  ghost function ChargeOf(r: Record): Charge {
    if r.attempts == [] then NOTHING
    else
      var a := r.attempts[|r.attempts| - 1];
      if a.chargeReleasedAt.None? then a.charge else NOTHING
  }

  /** The sum of a table's values, whatever the order of its keys. */
  ghost function Sum(m: map<string, Charge>): Charge
    decreases |m|
  {
    if m == map[] then NOTHING
    else
      var k :| k in m;
      Plus(m[k], Sum(m - {k}))
  }

  lemma {:induction false} SumRemove(m: map<string, Charge>, k: string)
    requires k in m
    ensures Sum(m) == Plus(m[k], Sum(m - {k}))
    decreases |m|
  {
    var first :| first in m && Sum(m) == Plus(m[first], Sum(m - {first}));
    if first != k {
      var rest := m - {first} - {k};
      assert rest == m - {k} - {first};
      SumRemove(m - {first}, k);
      SumRemove(m - {k}, first);
      assert Sum(m) == Plus(m[first], Plus(m[k], Sum(rest)));
      assert Sum(m - {k}) == Plus(m[first], Sum(rest));
    }
  }

  lemma SumUpdate(m: map<string, Charge>, k: string, c: Charge)
    ensures Sum(m[k := c]) == Plus(Minus(Sum(m), if k in m then m[k] else NOTHING), c)
  {
    SumRemove(m[k := c], k);
    if k in m {
      SumRemove(m, k);
      assert m[k := c] - {k} == m - {k};
    } else {
      assert m[k := c] - {k} == m;
    }
  }

  ghost function Table(records: Records, host: string): map<string, Charge> {
    map j | j in records :: ChargeOn(records[j], host)
  }

  /** The charges outstanding on one host. */
  ghost function Outstanding(records: Records, host: string): Charge {
    Sum(Table(records, host))
  }

  ghost function WholeTable(records: Records): map<string, Charge> {
    map j | j in records :: ChargeOf(records[j])
  }

  /** The charges outstanding anywhere. */
  ghost function Everywhere(records: Records): Charge {
    Sum(WholeTable(records))
  }

  /** One record's write moves each sum by that record's own difference. */
  lemma OutstandingUpdate(records: Records, j: string, r: Record, host: string)
    ensures Outstanding(records[j := r], host)
            == Plus(Minus(Outstanding(records, host), if j in records then ChargeOn(records[j], host) else NOTHING),
                    ChargeOn(r, host))
  {
    hide Sum, ChargeOn, Plus, Minus;
    SumUpdate(Table(records, host), j, ChargeOn(r, host));
    assert Table(records[j := r], host) == Table(records, host)[j := ChargeOn(r, host)];
  }

  lemma EverywhereUpdate(records: Records, j: string, r: Record)
    ensures Everywhere(records[j := r])
            == Plus(Minus(Everywhere(records), if j in records then ChargeOf(records[j]) else NOTHING), ChargeOf(r))
  {
    hide Sum, ChargeOf, Plus, Minus;
    SumUpdate(WholeTable(records), j, ChargeOf(r));
    assert WholeTable(records[j := r]) == WholeTable(records)[j := ChargeOf(r)];
  }

  // --------------------------------------------------------------------
  // outstanding_charges

  function Lookup(totals: map<string, Charge>, host: string): Charge {
    if host in totals then totals[host] else NOTHING
  }

  /** Totals per host agree with the reference for these records. */
  ghost predicate Totals(totals: map<string, Charge>, records: Records) {
    && (forall host :: Lookup(totals, host) == Outstanding(records, host))
    && Sum(totals) == Everywhere(records)
  }

  function Add(totals: map<string, Charge>, host: string, c: Charge): map<string, Charge> {
    totals[host := Plus(Lookup(totals, host), c)]
  }

  ghost function AddNewest(totals: map<string, Charge>, r: Record): map<string, Charge> {
    if r.attempts == [] then totals
    else
      var a := r.attempts[|r.attempts| - 1];
      if a.chargeReleasedAt.None? then Add(totals, a.targetHost, a.charge) else totals
  }

  lemma AddAdds(totals: map<string, Charge>, at: string, c: Charge, host: string)
    ensures Lookup(Add(totals, at, c), host) == Plus(Lookup(totals, host), if host == at then c else NOTHING)
  {
  }

  lemma AddSum(totals: map<string, Charge>, at: string, c: Charge)
    ensures Sum(Add(totals, at, c)) == Plus(Sum(totals), c)
  {
    hide Sum;
    SumUpdate(totals, at, Plus(Lookup(totals, at), c));
  }

  lemma AddNewestAdds(totals: map<string, Charge>, r: Record, host: string)
    ensures Lookup(AddNewest(totals, r), host) == Plus(Lookup(totals, host), ChargeOn(r, host))
    ensures Sum(AddNewest(totals, r)) == Plus(Sum(totals), ChargeOf(r))
  {
    hide Sum, Add, Lookup;
    if r.attempts != [] && r.attempts[|r.attempts| - 1].chargeReleasedAt.None? {
      var a := r.attempts[|r.attempts| - 1];
      AddAdds(totals, a.targetHost, a.charge, host);
      AddSum(totals, a.targetHost, a.charge);
    }
  }

  /** One more record: both readings grow by its charge. */
  lemma TotalsStep(totals: map<string, Charge>, done: Records, j: string, r: Record)
    requires Totals(totals, done) && j !in done
    ensures Totals(AddNewest(totals, r), done[j := r])
  {
    hide Outstanding, Everywhere, ChargeOn, ChargeOf, AddNewest, Sum, Lookup;
    EverywhereUpdate(done, j, r);
    AddNewestAdds(totals, r, "");
    forall host ensures Lookup(AddNewest(totals, r), host) == Outstanding(done[j := r], host) {
      OutstandingUpdate(done, j, r, host);
      AddNewestAdds(totals, r, host);
    }
  }

  /** One record's attempts, each that is not yet released; there is never more than the newest. */
  method AddRecord(totals: map<string, Charge>, r: Record) returns (totals': map<string, Charge>)
    requires Grounded(r)
    ensures totals' == AddNewest(totals, r)
  {
    hide Grounded, Add;
    totals' := totals;
    for i := 0 to |r.attempts|
      invariant totals' == if i < |r.attempts| then totals else AddNewest(totals, r)
    {
      var a := r.attempts[i];
      if a.chargeReleasedAt.None? {
        SingleCharge(r, i);
        totals' := Add(totals', a.targetHost, a.charge);
      }
    }
  }

  lemma EmptyTotals()
    ensures Totals(map[], map[])
  {
  }

  /** The broker's own reading of its records equals the per-host sum over records of their
      single unreleased attempt, and its total over hosts the sum over all of them. */
  method OutstandingCharges(records: Records) returns (totals: map<string, Charge>)
    requires forall j :: j in records ==> Grounded(records[j])
    ensures Totals(totals, records)
  {
    hide Grounded, Totals, AddNewest;
    EmptyTotals();
    totals := map[];
    var done: Records := map[];
    var rest := records.Keys;
    while rest != {}
      invariant rest <= records.Keys && done == records - rest
      invariant Totals(totals, done)
      decreases |rest|
    {
      var j :| j in rest;
      assert done[j := records[j]] == records - (rest - {j});
      TotalsStep(totals, done, j, records[j]);
      totals := AddRecord(totals, records[j]);
      done, rest := done[j := records[j]], rest - {j};
    }
    assert done == records;
  }

  // --------------------------------------------------------------------
  // Debiting and admission

  function Less(free: Option<int>, taken: int): Option<int> {
    if free.None? then None else Some(free.value - taken)
  }

  function Debit(s: Snapshot, charges: map<string, Charge>, slots: int): Snapshot {
    if s.isScheduler then s.(freeJobs := Less(s.freeJobs, slots))
    else
      var c := Lookup(charges, s.host);
      s.(freeCpus := Less(s.freeCpus, c.cpus), freeMemMb := Less(s.freeMemMb, c.memMb),
         freeJobs := Less(s.freeJobs, c.jobSlots))
  }

  method SlotsOf(charges: map<string, Charge>) returns (slots: int)
    ensures slots == Sum(charges).jobSlots
  {
    slots := 0;
    var rest := charges;
    while rest != map[]
      invariant Sum(charges).jobSlots == slots + Sum(rest).jobSlots
      decreases |rest|
    {
      var host :| host in rest;
      SumRemove(rest, host);
      slots, rest := slots + rest[host].jobSlots, rest - {host};
    }
  }

  /** The snapshot as what is outstanding leaves it: a direct host short of what is charged to it,
      a scheduler lane of every slot charged anywhere. What is unknown stays unknown. */
  ghost function Debited(s: Snapshot, records: Records): Snapshot {
    if s.isScheduler then
      s.(freeJobs := if s.freeJobs.None? then None else Some(s.freeJobs.value - Everywhere(records).jobSlots))
    else
      var c := Outstanding(records, s.host);
      s.(freeCpus := if s.freeCpus.None? then None else Some(s.freeCpus.value - c.cpus),
         freeMemMb := if s.freeMemMb.None? then None else Some(s.freeMemMb.value - c.memMb),
         freeJobs := if s.freeJobs.None? then None else Some(s.freeJobs.value - c.jobSlots))
  }

  ghost predicate AllDebited(snapshots: seq<Snapshot>, debited: seq<Snapshot>, records: Records) {
    |debited| == |snapshots| && forall i :: 0 <= i < |snapshots| ==> debited[i] == Debited(snapshots[i], records)
  }

  lemma DebitExact(s: Snapshot, charges: map<string, Charge>, records: Records)
    requires Totals(charges, records)
    ensures Debit(s, charges, Sum(charges).jobSlots) == Debited(s, records)
  {
    hide Sum, Outstanding, Everywhere;
    assert Lookup(charges, s.host) == Outstanding(records, s.host);
  }

  /** Every snapshot short of exactly the charges its host answers for. */
  method DebitSnapshots(snapshots: seq<Snapshot>, charges: map<string, Charge>, ghost records: Records)
    returns (debited: seq<Snapshot>)
    requires Totals(charges, records)
    ensures AllDebited(snapshots, debited, records)
  {
    hide Totals, Debited;
    debited := [];
    for i := 0 to |snapshots|
      invariant |debited| == i && forall k :: 0 <= k < i ==> debited[k] == Debited(snapshots[k], records)
    {
      DebitExact(snapshots[i], charges, records);
      if snapshots[i].isScheduler {
        var slots := SlotsOf(charges);
        debited := debited + [snapshots[i].(freeJobs := Less(snapshots[i].freeJobs, slots))];
      } else if snapshots[i].host !in charges {
        debited := debited + [snapshots[i]];
      } else {
        debited := debited + [Debit(snapshots[i], charges, 0)];
      }
    }
  }

  /** The reasons, in the order they are looked at. */
  datatype Reason =
    | NoLane | Unreachable | NotReady | RootUnverified | Closed | QueueBusy | Future | Stale | NoPool
    | BadLimit | NoWallTime | TooLong | BadLane | TooWide | Unknown | BadLoad | FewCpus | LittleMemory | NoSlot
  {
    ghost function Place(): nat {
      match this
      case NoLane => 0
      case Unreachable => 1
      case NotReady => 2
      case RootUnverified => 3
      case Closed => 4
      case QueueBusy => 5
      case Future => 6
      case Stale => 7
      case NoPool => 8
      case BadLimit => 9
      case NoWallTime => 10
      case TooLong => 11
      case BadLane => 12
      case TooWide => 13
      case Unknown => 14
      case BadLoad => 15
      case FewCpus => 16
      case LittleMemory => 17
      case NoSlot => 18
    }

    function Text(): (text: string)
      ensures text != ""
    {
      match this
      case NoLane => "scheduler-unsupported"
      case Unreachable => "unreachable"
      case NotReady => "daemon-not-ready"
      case RootUnverified => "state-root-unverified"
      case Closed => "admission-blocked"
      case QueueBusy => "queue-not-ready"
      case Future => "snapshot-future"
      case Stale => "snapshot-stale"
      case NoPool => "pool-mismatch"
      case BadLimit => "capacity-invalid"
      case NoWallTime => "wall-time-unknown"
      case TooLong => "wall-time-exceeded"
      case BadLane => "capacity-invalid"
      case TooWide => "cpus-exceeded"
      case Unknown => "capacity-unknown"
      case BadLoad => "capacity-invalid"
      case FewCpus => "cpus-insufficient"
      case LittleMemory => "memory-insufficient"
      case NoSlot => "job-slots-insufficient"
    }

    /** It is true of the snapshot and the job. */
    ghost predicate Holds(s: Snapshot, t: Intent, now: Time, maxAge: Time) {
      match this
      case NoLane => s.isScheduler && !s.schedulerAdmission
      case Unreachable => !s.reachable
      case NotReady => !s.daemonHealthy
      case RootUnverified => !s.rootAgreement
      case Closed => !s.admissionOpen
      case QueueBusy => !s.queueReady
      case Future => s.observedAt > now
      case Stale => s.observedAt + maxAge < now
      case NoPool => t.pool.Some? && t.pool.value !in s.pools
      case BadLimit => s.maxWallTime.Some? && s.maxWallTime.value <= 0
      case NoWallTime => s.maxWallTime.Some? && t.wallTime.None?
      case TooLong => s.maxWallTime.Some? && t.wallTime.Some? && s.maxWallTime.value < t.wallTime.value
      case BadLane => s.isScheduler && s.maxRequestCpus.Some? && s.maxRequestCpus.value < 1
      case TooWide => s.isScheduler && s.maxRequestCpus.Some? && s.maxRequestCpus.value < t.cpus
      case Unknown => s.freeJobs.None? || (!s.isScheduler && (s.freeCpus.None? || s.freeMemMb.None?))
      case BadLoad => !s.isScheduler && (s.pendingCpus < 0 || (s.idleSeconds.Some? && s.idleSeconds.value < 0))
      case FewCpus => !s.isScheduler && s.freeCpus.Some? && s.freeCpus.value < t.cpus
      case LittleMemory => !s.isScheduler && s.freeMemMb.Some? && s.freeMemMb.value < t.memMb
      case NoSlot => s.freeJobs.Some? && s.freeJobs.value < 1
    }
  }

  /** A text tells which reason it stands for; one stands for three. */
  lemma TextNames(why: Reason)
    ensures why.NoLane? <==> why.Text() == "scheduler-unsupported"
    ensures why.Unreachable? <==> why.Text() == "unreachable"
    ensures why.NotReady? <==> why.Text() == "daemon-not-ready"
    ensures why.RootUnverified? <==> why.Text() == "state-root-unverified"
    ensures why.Closed? <==> why.Text() == "admission-blocked"
    ensures why.QueueBusy? <==> why.Text() == "queue-not-ready"
    ensures why.Future? <==> why.Text() == "snapshot-future"
    ensures why.Stale? <==> why.Text() == "snapshot-stale"
    ensures why.NoPool? <==> why.Text() == "pool-mismatch"
    ensures why.BadLimit? || why.BadLane? || why.BadLoad? <==> why.Text() == "capacity-invalid"
    ensures why.NoWallTime? <==> why.Text() == "wall-time-unknown"
    ensures why.TooLong? <==> why.Text() == "wall-time-exceeded"
    ensures why.TooWide? <==> why.Text() == "cpus-exceeded"
    ensures why.Unknown? <==> why.Text() == "capacity-unknown"
    ensures why.FewCpus? <==> why.Text() == "cpus-insufficient"
    ensures why.LittleMemory? <==> why.Text() == "memory-insufficient"
    ensures why.NoSlot? <==> why.Text() == "job-slots-insufficient"
  {
  }

  /** Why a held job cannot run on the host now, if it cannot. */
  function HostBlocker(s: Snapshot, t: Intent, now: Time, maxAge: Time): Option<Reason> {
    if s.isScheduler && !s.schedulerAdmission then Some(NoLane)
    else if !s.reachable then Some(Unreachable)
    else if !s.daemonHealthy then Some(NotReady)
    else if !s.rootAgreement then Some(RootUnverified)
    else if !s.admissionOpen then Some(Closed)
    else if !s.queueReady then Some(QueueBusy)
    else if now < s.observedAt then Some(Future)
    else if now - s.observedAt > maxAge then Some(Stale)
    else if t.pool.Some? && t.pool.value !in s.pools then Some(NoPool)
    else if s.maxWallTime.Some? && s.maxWallTime.value <= 0 then Some(BadLimit)
    else if s.maxWallTime.Some? && t.wallTime.None? then Some(NoWallTime)
    else if s.maxWallTime.Some? && t.wallTime.value > s.maxWallTime.value then Some(TooLong)
    else if s.isScheduler then
      if s.maxRequestCpus.Some? && s.maxRequestCpus.value < 1 then Some(BadLane)
      else if s.maxRequestCpus.Some? && t.cpus > s.maxRequestCpus.value then Some(TooWide)
      else if s.freeJobs.None? then Some(Unknown)
      else if s.freeJobs.value < 1 then Some(NoSlot)
      else None
    else if s.freeCpus.None? || s.freeMemMb.None? || s.freeJobs.None? then Some(Unknown)
    else if s.pendingCpus < 0 || (s.idleSeconds.Some? && s.idleSeconds.value < 0) then Some(BadLoad)
    else if s.freeCpus.value < t.cpus then Some(FewCpus)
    else if s.freeMemMb.value < t.memMb then Some(LittleMemory)
    else if s.freeJobs.value < 1 then Some(NoSlot)
    else None
  }

  /** The snapshot's own headroom covers these charges. */
  ghost predicate Covers(s: Snapshot, c: Charge) {
    && s.freeCpus.Some? && s.freeMemMb.Some? && s.freeJobs.Some?
    && c.cpus <= s.freeCpus.value && c.memMb <= s.freeMemMb.value && c.jobSlots <= s.freeJobs.value
  }

  /** The undebited snapshot has room for all that is outstanding under its rule: on a direct
      host what is charged to that host, on a scheduler lane every slot charged anywhere. */
  ghost predicate Fits(s: Snapshot, records: Records) {
    if s.isScheduler then s.freeJobs.Some? && Everywhere(records).jobSlots <= s.freeJobs.value
    else Covers(s, Outstanding(records, s.host))
  }

  /** The reason given is true. */
  lemma BlockerHolds(s: Snapshot, t: Intent, now: Time, maxAge: Time)
    ensures HostBlocker(s, t, now, maxAge).Some? ==> HostBlocker(s, t, now, maxAge).value.Holds(s, t, now, maxAge)
  {
  }

  /** No reason that comes before the one given is true. */
  lemma BlockerIsFirst(s: Snapshot, t: Intent, now: Time, maxAge: Time, other: Reason)
    requires other.Holds(s, t, now, maxAge)
    ensures HostBlocker(s, t, now, maxAge).Some? && HostBlocker(s, t, now, maxAge).value.Place() <= other.Place()
  {
  }

  /** A host is eligible exactly when no reason holds of it. */
  lemma EligibleIff(s: Snapshot, t: Intent, now: Time, maxAge: Time)
    ensures HostBlocker(s, t, now, maxAge).None? <==> forall why: Reason :: !why.Holds(s, t, now, maxAge)
  {
    hide HostBlocker;
    BlockerHolds(s, t, now, maxAge);
    forall why: Reason | why.Holds(s, t, now, maxAge) ensures HostBlocker(s, t, now, maxAge).Some? {
      BlockerIsFirst(s, t, now, maxAge, why);
    }
  }

  /** The reasons that are about headroom. */
  ghost predicate Headroom(why: Reason) {
    why in {Unknown, FewCpus, LittleMemory, NoSlot}
  }

  /** Nothing but its headroom could keep the host from running the job. */
  ghost predicate Open(s: Snapshot, t: Intent, now: Time, maxAge: Time) {
    forall why: Reason :: why.Holds(s, t, now, maxAge) ==> Headroom(why)
  }

  lemma DebitKeepsOpen(s: Snapshot, t: Intent, now: Time, maxAge: Time, records: Records, why: Reason)
    requires !Headroom(why)
    ensures why.Holds(Debited(s, records), t, now, maxAge) <==> why.Holds(s, t, now, maxAge)
  {
    hide Outstanding, Everywhere;
  }

  /** The debited snapshot has room for one more job of this size. */
  ghost predicate Room(s: Snapshot, t: Intent) {
    && s.freeJobs.Some? && s.freeJobs.value >= 1
    && (!s.isScheduler ==>
          && s.freeCpus.Some? && s.freeMemMb.Some? && s.freeCpus.value >= t.cpus && s.freeMemMb.value >= t.memMb)
  }

  lemma HeadroomIff(s: Snapshot, t: Intent, now: Time, maxAge: Time)
    ensures Room(s, t) <==> forall why: Reason :: Headroom(why) ==> !why.Holds(s, t, now, maxAge)
  {
    assert Room(s, t) <==>
      && !Unknown.Holds(s, t, now, maxAge) && !FewCpus.Holds(s, t, now, maxAge)
      && !LittleMemory.Holds(s, t, now, maxAge) && !NoSlot.Holds(s, t, now, maxAge);
  }

  /** A job is admitted on a debited snapshot exactly when the host is open to it and the undebited
      snapshot has room for the job's charge on top of all that is outstanding. */
  lemma AdmittedIff(s: Snapshot, t: Intent, now: Time, maxAge: Time, records: Records, j: string, r: Record)
    requires j in records && ChargeOf(records[j]) == NOTHING && r.attempts != []
    requires var a := r.attempts[|r.attempts| - 1];
             a.targetHost == s.host && a.charge == Charge(t.cpus, t.memMb, 1) && a.chargeReleasedAt.None?
    ensures HostBlocker(Debited(s, records), t, now, maxAge).None? <==>
      Open(s, t, now, maxAge) && Fits(s, records[j := r])
  {
    hide Outstanding, Everywhere, HostBlocker, Reason.Holds;
    var debited := Debited(s, records);
    EligibleIff(debited, t, now, maxAge);
    HeadroomIff(debited, t, now, maxAge);
    forall why: Reason | !Headroom(why) ensures why.Holds(debited, t, now, maxAge) <==> why.Holds(s, t, now, maxAge) {
      DebitKeepsOpen(s, t, now, maxAge, records, why);
    }
    OutstandingUpdate(records, j, r, s.host);
    EverywhereUpdate(records, j, r);
  }
}
